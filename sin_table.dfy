/**
 * The interpolated quarter-sine lookup `sin_from_table`.
 *
 * Of its 16-bit phase argument only the low 14 bits are used, laid out as
 * `qqtt_tttt_tttt_iiii`: `t` (10 bits) indexes a 1025-entry quarter-sine table and `i`
 * (4 bits) interpolates linearly between entry `t` and entry `t + 1`.
 */
module SinTable {
  import opened Int32

  const FRAC_BITS: nat := 4
  const FRAC_LEN: i32 := 16
  const FRAC_MASK: i32 := 15
  const TABLE_BITS: nat := 10
  const TABLE_LEN: i32 := 1024
  const TABLE_MASK: i32 := 1023
  const TABLE_SHIFT: nat := 4

  /** The bit-layout constants are the powers of two they are defined from. */
  lemma LayoutConstants()
    ensures FRAC_LEN == Pow2(FRAC_BITS) && FRAC_MASK == FRAC_LEN - 1
    ensures TABLE_LEN == Pow2(TABLE_BITS) && TABLE_MASK == TABLE_LEN - 1 && TABLE_SHIFT == FRAC_BITS
  {
    Pow2Values();
  }

  // ------------------------------------------------------------ the table

  /** Sixteen table entries in ascending order. */
  predicate Ascending16(s: seq<u16>) {
    |s| == 16 && forall c :: 0 <= c < 15 ==> s[c] <= s[c + 1]
  }

  type TableRow = s: seq<u16> | Ascending16(s) witness [0, 0, 0, 0, 0, 0, 0, 0, 0, 0, 0, 0, 0, 0, 0, 0]

  // `SIN_TABLE[16 * r .. 16 * r + 16]`, row by row as the source lists them.
  const SIN_ROW_00: TableRow := [    0,   100,   201,   301,   402,   502,   603,   703,   804,   904,  1005,  1105,  1206,  1306,  1407,  1507]
  const SIN_ROW_01: TableRow := [ 1608,  1708,  1809,  1909,  2010,  2110,  2211,  2311,  2412,  2512,  2613,  2713,  2814,  2914,  3014,  3115]
  const SIN_ROW_02: TableRow := [ 3215,  3316,  3416,  3516,  3617,  3717,  3818,  3918,  4018,  4119,  4219,  4319,  4420,  4520,  4620,  4720]
  const SIN_ROW_03: TableRow := [ 4821,  4921,  5021,  5121,  5222,  5322,  5422,  5522,  5622,  5722,  5823,  5923,  6023,  6123,  6223,  6323]
  const SIN_ROW_04: TableRow := [ 6423,  6523,  6623,  6723,  6823,  6923,  7023,  7123,  7223,  7323,  7423,  7523,  7623,  7722,  7822,  7922]
  const SIN_ROW_05: TableRow := [ 8022,  8122,  8221,  8321,  8421,  8520,  8620,  8720,  8819,  8919,  9019,  9118,  9218,  9317,  9417,  9516]
  const SIN_ROW_06: TableRow := [ 9616,  9715,  9814,  9914, 10013, 10113, 10212, 10311, 10410, 10510, 10609, 10708, 10807, 10906, 11006, 11105]
  const SIN_ROW_07: TableRow := [11204, 11303, 11402, 11501, 11600, 11699, 11797, 11896, 11995, 12094, 12193, 12292, 12390, 12489, 12588, 12686]
  const SIN_ROW_08: TableRow := [12785, 12884, 12982, 13081, 13179, 13278, 13376, 13474, 13573, 13671, 13769, 13868, 13966, 14064, 14162, 14260]
  const SIN_ROW_09: TableRow := [14359, 14457, 14555, 14653, 14751, 14849, 14946, 15044, 15142, 15240, 15338, 15435, 15533, 15631, 15728, 15826]
  const SIN_ROW_10: TableRow := [15923, 16021, 16118, 16216, 16313, 16411, 16508, 16605, 16702, 16800, 16897, 16994, 17091, 17188, 17285, 17382]
  const SIN_ROW_11: TableRow := [17479, 17576, 17672, 17769, 17866, 17963, 18059, 18156, 18253, 18349, 18446, 18542, 18638, 18735, 18831, 18927]
  const SIN_ROW_12: TableRow := [19024, 19120, 19216, 19312, 19408, 19504, 19600, 19696, 19792, 19888, 19983, 20079, 20175, 20270, 20366, 20461]
  const SIN_ROW_13: TableRow := [20557, 20652, 20748, 20843, 20938, 21034, 21129, 21224, 21319, 21414, 21509, 21604, 21699, 21794, 21889, 21983]
  const SIN_ROW_14: TableRow := [22078, 22173, 22267, 22362, 22456, 22551, 22645, 22739, 22833, 22928, 23022, 23116, 23210, 23304, 23398, 23492]
  const SIN_ROW_15: TableRow := [23586, 23679, 23773, 23867, 23960, 24054, 24147, 24241, 24334, 24427, 24521, 24614, 24707, 24800, 24893, 24986]
  const SIN_ROW_16: TableRow := [25079, 25172, 25265, 25357, 25450, 25543, 25635, 25728, 25820, 25913, 26005, 26097, 26189, 26281, 26373, 26465]
  const SIN_ROW_17: TableRow := [26557, 26649, 26741, 26833, 26925, 27016, 27108, 27199, 27291, 27382, 27473, 27565, 27656, 27747, 27838, 27929]
  const SIN_ROW_18: TableRow := [28020, 28111, 28201, 28292, 28383, 28473, 28564, 28654, 28745, 28835, 28925, 29015, 29105, 29196, 29285, 29375]
  const SIN_ROW_19: TableRow := [29465, 29555, 29645, 29734, 29824, 29913, 30003, 30092, 30181, 30271, 30360, 30449, 30538, 30627, 30715, 30804]
  const SIN_ROW_20: TableRow := [30893, 30982, 31070, 31159, 31247, 31335, 31424, 31512, 31600, 31688, 31776, 31864, 31952, 32039, 32127, 32215]
  const SIN_ROW_21: TableRow := [32302, 32390, 32477, 32564, 32651, 32738, 32826, 32912, 32999, 33086, 33173, 33260, 33346, 33433, 33519, 33605]
  const SIN_ROW_22: TableRow := [33692, 33778, 33864, 33950, 34036, 34122, 34208, 34293, 34379, 34465, 34550, 34635, 34721, 34806, 34891, 34976]
  const SIN_ROW_23: TableRow := [35061, 35146, 35231, 35316, 35400, 35485, 35569, 35654, 35738, 35822, 35906, 35990, 36074, 36158, 36242, 36326]
  const SIN_ROW_24: TableRow := [36409, 36493, 36576, 36660, 36743, 36826, 36909, 36992, 37075, 37158, 37241, 37324, 37406, 37489, 37571, 37653]
  const SIN_ROW_25: TableRow := [37736, 37818, 37900, 37982, 38064, 38146, 38227, 38309, 38390, 38472, 38553, 38634, 38716, 38797, 38878, 38958]
  const SIN_ROW_26: TableRow := [39039, 39120, 39201, 39281, 39362, 39442, 39522, 39602, 39682, 39762, 39842, 39922, 40002, 40081, 40161, 40240]
  const SIN_ROW_27: TableRow := [40319, 40399, 40478, 40557, 40636, 40714, 40793, 40872, 40950, 41029, 41107, 41185, 41263, 41342, 41419, 41497]
  const SIN_ROW_28: TableRow := [41575, 41653, 41730, 41808, 41885, 41962, 42040, 42117, 42194, 42271, 42347, 42424, 42501, 42577, 42653, 42730]
  const SIN_ROW_29: TableRow := [42806, 42882, 42958, 43034, 43110, 43185, 43261, 43336, 43412, 43487, 43562, 43637, 43712, 43787, 43862, 43936]
  const SIN_ROW_30: TableRow := [44011, 44085, 44160, 44234, 44308, 44382, 44456, 44530, 44603, 44677, 44750, 44824, 44897, 44970, 45043, 45116]
  const SIN_ROW_31: TableRow := [45189, 45262, 45335, 45407, 45480, 45552, 45624, 45696, 45768, 45840, 45912, 45984, 46055, 46127, 46198, 46269]
  const SIN_ROW_32: TableRow := [46340, 46411, 46482, 46553, 46624, 46695, 46765, 46835, 46906, 46976, 47046, 47116, 47186, 47255, 47325, 47394]
  const SIN_ROW_33: TableRow := [47464, 47533, 47602, 47671, 47740, 47809, 47878, 47946, 48015, 48083, 48151, 48219, 48288, 48355, 48423, 48491]
  const SIN_ROW_34: TableRow := [48558, 48626, 48693, 48760, 48828, 48895, 48961, 49028, 49095, 49161, 49228, 49294, 49360, 49426, 49492, 49558]
  const SIN_ROW_35: TableRow := [49624, 49690, 49755, 49820, 49886, 49951, 50016, 50081, 50146, 50210, 50275, 50339, 50403, 50468, 50532, 50596]
  const SIN_ROW_36: TableRow := [50660, 50723, 50787, 50850, 50914, 50977, 51040, 51103, 51166, 51229, 51291, 51354, 51416, 51478, 51541, 51603]
  const SIN_ROW_37: TableRow := [51665, 51726, 51788, 51850, 51911, 51972, 52033, 52095, 52155, 52216, 52277, 52338, 52398, 52458, 52518, 52579]
  const SIN_ROW_38: TableRow := [52639, 52698, 52758, 52818, 52877, 52936, 52996, 53055, 53114, 53172, 53231, 53290, 53348, 53407, 53465, 53523]
  const SIN_ROW_39: TableRow := [53581, 53639, 53696, 53754, 53811, 53869, 53926, 53983, 54040, 54097, 54153, 54210, 54266, 54323, 54379, 54435]
  const SIN_ROW_40: TableRow := [54491, 54546, 54602, 54658, 54713, 54768, 54823, 54879, 54933, 54988, 55043, 55097, 55152, 55206, 55260, 55314]
  const SIN_ROW_41: TableRow := [55368, 55422, 55475, 55529, 55582, 55635, 55688, 55741, 55794, 55847, 55899, 55952, 56004, 56056, 56108, 56160]
  const SIN_ROW_42: TableRow := [56212, 56263, 56315, 56366, 56417, 56468, 56519, 56570, 56621, 56671, 56722, 56772, 56822, 56872, 56922, 56972]
  const SIN_ROW_43: TableRow := [57022, 57071, 57120, 57170, 57219, 57268, 57316, 57365, 57414, 57462, 57510, 57558, 57606, 57654, 57702, 57750]
  const SIN_ROW_44: TableRow := [57797, 57844, 57892, 57939, 57986, 58032, 58079, 58125, 58172, 58218, 58264, 58310, 58356, 58402, 58447, 58493]
  const SIN_ROW_45: TableRow := [58538, 58583, 58628, 58673, 58718, 58762, 58807, 58851, 58895, 58939, 58983, 59027, 59070, 59114, 59157, 59200]
  const SIN_ROW_46: TableRow := [59243, 59286, 59329, 59372, 59414, 59457, 59499, 59541, 59583, 59625, 59666, 59708, 59749, 59790, 59831, 59872]
  const SIN_ROW_47: TableRow := [59913, 59954, 59994, 60035, 60075, 60115, 60155, 60195, 60235, 60274, 60313, 60353, 60392, 60431, 60470, 60508]
  const SIN_ROW_48: TableRow := [60547, 60585, 60624, 60662, 60700, 60737, 60775, 60813, 60850, 60887, 60924, 60961, 60998, 61035, 61071, 61108]
  const SIN_ROW_49: TableRow := [61144, 61180, 61216, 61252, 61288, 61323, 61359, 61394, 61429, 61464, 61499, 61533, 61568, 61602, 61637, 61671]
  const SIN_ROW_50: TableRow := [61705, 61738, 61772, 61805, 61839, 61872, 61905, 61938, 61971, 62003, 62036, 62068, 62100, 62133, 62164, 62196]
  const SIN_ROW_51: TableRow := [62228, 62259, 62291, 62322, 62353, 62384, 62414, 62445, 62475, 62506, 62536, 62566, 62596, 62625, 62655, 62684]
  const SIN_ROW_52: TableRow := [62714, 62743, 62772, 62800, 62829, 62858, 62886, 62914, 62942, 62970, 62998, 63026, 63053, 63080, 63108, 63135]
  const SIN_ROW_53: TableRow := [63162, 63188, 63215, 63241, 63268, 63294, 63320, 63346, 63371, 63397, 63422, 63447, 63473, 63498, 63522, 63547]
  const SIN_ROW_54: TableRow := [63571, 63596, 63620, 63644, 63668, 63692, 63715, 63739, 63762, 63785, 63808, 63831, 63854, 63876, 63899, 63921]
  const SIN_ROW_55: TableRow := [63943, 63965, 63987, 64009, 64030, 64051, 64073, 64094, 64115, 64135, 64156, 64176, 64197, 64217, 64237, 64257]
  const SIN_ROW_56: TableRow := [64276, 64296, 64315, 64334, 64353, 64372, 64391, 64410, 64428, 64447, 64465, 64483, 64501, 64518, 64536, 64553]
  const SIN_ROW_57: TableRow := [64571, 64588, 64605, 64622, 64638, 64655, 64671, 64687, 64703, 64719, 64735, 64751, 64766, 64781, 64796, 64811]
  const SIN_ROW_58: TableRow := [64826, 64841, 64855, 64870, 64884, 64898, 64912, 64926, 64939, 64953, 64966, 64979, 64992, 65005, 65018, 65030]
  const SIN_ROW_59: TableRow := [65043, 65055, 65067, 65079, 65091, 65102, 65114, 65125, 65136, 65147, 65158, 65169, 65179, 65190, 65200, 65210]
  const SIN_ROW_60: TableRow := [65220, 65230, 65239, 65249, 65258, 65267, 65276, 65285, 65294, 65302, 65311, 65319, 65327, 65335, 65343, 65350]
  const SIN_ROW_61: TableRow := [65358, 65365, 65372, 65379, 65386, 65393, 65400, 65406, 65412, 65418, 65424, 65430, 65436, 65441, 65446, 65452]
  const SIN_ROW_62: TableRow := [65457, 65461, 65466, 65471, 65475, 65479, 65483, 65487, 65491, 65495, 65498, 65501, 65505, 65508, 65511, 65513]
  const SIN_ROW_63: TableRow := [65516, 65518, 65520, 65522, 65524, 65526, 65528, 65529, 65531, 65532, 65533, 65534, 65534, 65535, 65535, 65535]
  /** The last entry, `SIN_TABLE[1024]`, read only as the upper neighbour of entry 1023. */
  const SIN_GUARD: u16 := 65535

  function SinRow(r: int): TableRow
    requires 0 <= r < 64
  {
    match r
    case 0 => SIN_ROW_00
    case 1 => SIN_ROW_01
    case 2 => SIN_ROW_02
    case 3 => SIN_ROW_03
    case 4 => SIN_ROW_04
    case 5 => SIN_ROW_05
    case 6 => SIN_ROW_06
    case 7 => SIN_ROW_07
    case 8 => SIN_ROW_08
    case 9 => SIN_ROW_09
    case 10 => SIN_ROW_10
    case 11 => SIN_ROW_11
    case 12 => SIN_ROW_12
    case 13 => SIN_ROW_13
    case 14 => SIN_ROW_14
    case 15 => SIN_ROW_15
    case 16 => SIN_ROW_16
    case 17 => SIN_ROW_17
    case 18 => SIN_ROW_18
    case 19 => SIN_ROW_19
    case 20 => SIN_ROW_20
    case 21 => SIN_ROW_21
    case 22 => SIN_ROW_22
    case 23 => SIN_ROW_23
    case 24 => SIN_ROW_24
    case 25 => SIN_ROW_25
    case 26 => SIN_ROW_26
    case 27 => SIN_ROW_27
    case 28 => SIN_ROW_28
    case 29 => SIN_ROW_29
    case 30 => SIN_ROW_30
    case 31 => SIN_ROW_31
    case 32 => SIN_ROW_32
    case 33 => SIN_ROW_33
    case 34 => SIN_ROW_34
    case 35 => SIN_ROW_35
    case 36 => SIN_ROW_36
    case 37 => SIN_ROW_37
    case 38 => SIN_ROW_38
    case 39 => SIN_ROW_39
    case 40 => SIN_ROW_40
    case 41 => SIN_ROW_41
    case 42 => SIN_ROW_42
    case 43 => SIN_ROW_43
    case 44 => SIN_ROW_44
    case 45 => SIN_ROW_45
    case 46 => SIN_ROW_46
    case 47 => SIN_ROW_47
    case 48 => SIN_ROW_48
    case 49 => SIN_ROW_49
    case 50 => SIN_ROW_50
    case 51 => SIN_ROW_51
    case 52 => SIN_ROW_52
    case 53 => SIN_ROW_53
    case 54 => SIN_ROW_54
    case 55 => SIN_ROW_55
    case 56 => SIN_ROW_56
    case 57 => SIN_ROW_57
    case 58 => SIN_ROW_58
    case 59 => SIN_ROW_59
    case 60 => SIN_ROW_60
    case 61 => SIN_ROW_61
    case 62 => SIN_ROW_62
    case _ => SIN_ROW_63
  }

  /** Entry `i` of the table; indices past the last row read the guard entry. */
  function Entry(i: int): u16
  {
    if 0 <= i < 1024 then SinRow(i / 16)[i % 16] else SIN_GUARD
  }

  /** `SIN_TABLE: [u16; TABLE_LEN + 1]`. */
  const SIN_TABLE: seq<u16> := seq(1025, i => Entry(i))

  lemma TableEnds()
    ensures |SIN_TABLE| == TABLE_LEN as int + 1
    ensures SIN_TABLE[0] == 0 && SIN_TABLE[1] == 100
    ensures SIN_TABLE[1023] == 65535 && SIN_TABLE[1024] == 65535
  {
  }

  lemma DivMod16(i: int, q: int, c: int)
    requires i == 16 * q + c && 0 <= c < 16
    ensures i / 16 == q && i % 16 == c
  {
  }

  lemma InRow(q: int, c: int)
    requires 0 <= q < 64 && 0 <= c < 15
    ensures SinRow(q)[c] <= SinRow(q)[c + 1]
  {
    var row := SinRow(q);
    assert Ascending16(row);
  }

  lemma RowsChained0(r: int)
    requires 0 <= r < 8
    ensures SinRow(r)[15] <= SinRow(r + 1)[0]
  {
  }

  lemma RowsChained1(r: int)
    requires 8 <= r < 16
    ensures SinRow(r)[15] <= SinRow(r + 1)[0]
  {
  }

  lemma RowsChained2(r: int)
    requires 16 <= r < 24
    ensures SinRow(r)[15] <= SinRow(r + 1)[0]
  {
  }

  lemma RowsChained3(r: int)
    requires 24 <= r < 32
    ensures SinRow(r)[15] <= SinRow(r + 1)[0]
  {
  }

  lemma RowsChained4(r: int)
    requires 32 <= r < 40
    ensures SinRow(r)[15] <= SinRow(r + 1)[0]
  {
  }

  lemma RowsChained5(r: int)
    requires 40 <= r < 48
    ensures SinRow(r)[15] <= SinRow(r + 1)[0]
  {
  }

  lemma RowsChained6(r: int)
    requires 48 <= r < 56
    ensures SinRow(r)[15] <= SinRow(r + 1)[0]
  {
  }

  lemma RowsChained7(r: int)
    requires 56 <= r < 63
    ensures SinRow(r)[15] <= SinRow(r + 1)[0]
  {
  }
  lemma RowsChained(r: int)
    requires 0 <= r < 63
    ensures SinRow(r)[15] <= SinRow(r + 1)[0]
  {
    if r < 32 {
      if r < 8 { RowsChained0(r); }
      else if r < 16 { RowsChained1(r); }
      else if r < 24 { RowsChained2(r); }
      else { RowsChained3(r); }
    } else {
      if r < 40 { RowsChained4(r); }
      else if r < 48 { RowsChained5(r); }
      else if r < 56 { RowsChained6(r); }
      else { RowsChained7(r); }
    }
  }

  lemma TableIsEntry(i: int)
    requires 0 <= i < 1025
    ensures SIN_TABLE[i] == Entry(i)
  {
  }

  lemma EntryAt(i: int)
    requires 0 <= i < 1024
    ensures SIN_TABLE[i] == SinRow(i / 16)[i % 16]
  {
  }

  lemma AdjacentInRow(i: int)
    requires 0 <= i < 1024 && i % 16 < 15
    ensures SIN_TABLE[i] <= SIN_TABLE[i + 1]
  {
    var q, c := i / 16, i % 16;
    DivMod16(i + 1, q, c + 1);
    EntryAt(i);
    EntryAt(i + 1);
    InRow(q, c);
  }

  lemma AdjacentAcrossRows(i: int)
    requires 0 <= i < 1023 && i % 16 == 15
    ensures SIN_TABLE[i] <= SIN_TABLE[i + 1]
  {
    var q := i / 16;
    DivMod16(i + 1, q + 1, 0);
    EntryAt(i);
    EntryAt(i + 1);
    RowsChained(q);
  }

  /** Neighbouring entries never decrease. */
  lemma TableAdjacent(i: int)
    requires 0 <= i < 1024
    ensures SIN_TABLE[i] <= SIN_TABLE[i + 1]
  {
    if i % 16 < 15 {
      AdjacentInRow(i);
    } else if i < 1023 {
      AdjacentAcrossRows(i);
    } else {
      TableEnds();
    }
  }

  /** `SIN_TABLE` is non-decreasing. */
  lemma {:induction false} TableMonotone(i: int, j: int)
    requires 0 <= i <= j <= 1024
    ensures SIN_TABLE[i] <= SIN_TABLE[j]
    decreases j - i
  {
    if i < j {
      TableAdjacent(i);
      TableMonotone(i + 1, j);
    }
  }

  // ------------------------------------------------------------ sin_from_table

  /** The table index `(w >> TABLE_SHIFT) & TABLE_MASK` (`IndexIsMask`); the entry after it exists too. */
  function TableIndex(w: i32): (idx: int)
    ensures 0 <= idx < TABLE_LEN as int
  {
    (w / 16) % 1024
  }

  /** The interpolation weight `w & FRAC_MASK` (`IndexIsMask`). */
  function Fraction(w: i32): (div: int)
    ensures 0 <= div < FRAC_LEN as int
  {
    w % 16
  }

  /** Index and weight are the source's shift-and-mask expressions, for every `i32`, negative ones included. */
  lemma IndexIsMask(w: i32)
    ensures TableIndex(w) == And(ShiftRight(w, TABLE_SHIFT), TABLE_MASK)
    ensures Fraction(w) == And(w, FRAC_MASK)
  {
    Pow2Values();
    ShiftRightFloor(w, 4);
    AndLowMask(ShiftRight(w, 4), 1023, 10);
    AndLowMask(w, 15, 4);
  }

  /** Linear interpolation between `bot` and `top` with weight `div / 16` stays between them. */
  lemma InterpolationBounds(bot: int, top: int, div: int)
    requires 0 <= bot <= top && 0 <= div <= 16
    ensures 16 * bot <= bot * (16 - div) + top * div <= 16 * top
    ensures div == 0 ==> bot * (16 - div) + top * div == 16 * bot
  {
    MulSign(div, top - bot);
    MulSign(16 - div, top - bot);
    assert bot * (16 - div) + top * div == 16 * bot + div * (top - bot);
    assert 16 * top - (bot * (16 - div) + top * div) == (16 - div) * (top - bot);
  }

  /** Linear interpolation between two neighbouring entries, weighted by `div` sixteenths. */
  function Interpolate(bot: int, top: int, div: int): (r: i32)
    requires 0 <= bot <= top <= 0xFFFF && 0 <= div <= 16
    ensures bot <= r <= top
  {
    InterpolationBounds(bot, top, div);
    Pow2Values();
    ShiftRightFloor(bot * (16 - div) + top * div, 4);
    ShiftRight(bot * (16 - div) + top * div, 4)
  }

  /** The interpolated sine of the phase `w`, read from the quarter-sine table: an `i32` in `[0, 0xFFFF]`. */
  function SinFromTable(w: i32): (r: u16)
    ensures Entry(TableIndex(w)) <= r <= Entry(TableIndex(w) + 1)
  {
    TableAdjacent(TableIndex(w));
    TableIsEntry(TableIndex(w));
    TableIsEntry(TableIndex(w) + 1);
    Interpolate(Entry(TableIndex(w)), Entry(TableIndex(w) + 1), Fraction(w))
  }

  /** With no fractional weight the interpolation returns the lower entry exactly. */
  lemma InterpolateExact(bot: int, top: int)
    requires 0 <= bot <= top <= 0xFFFF
    ensures Interpolate(bot, top, 0) == bot
  {
    Pow2Values();
    ShiftRightFloor(bot * 16 + top * 0, 4);
    DivModUnique(16 * bot, 16, bot, 0);
  }

  /** A heavier weight on the upper entry never lowers the interpolated value. */
  lemma InterpolateMonotone(bot: int, top: int, d1: int, d2: int)
    requires 0 <= bot <= top <= 0xFFFF && 0 <= d1 <= d2 <= 16
    ensures Interpolate(bot, top, d1) <= Interpolate(bot, top, d2)
  {
    var s1 := bot * (16 - d1) + top * d1;
    var s2 := bot * (16 - d2) + top * d2;
    assert s1 == 16 * bot + d1 * (top - bot);
    assert s2 == 16 * bot + d2 * (top - bot);
    MulSign(d2 - d1, top - bot);
    assert d2 * (top - bot) - d1 * (top - bot) == (d2 - d1) * (top - bot);
    InterpolationBounds(bot, top, d1);
    InterpolationBounds(bot, top, d2);
    Pow2Values();
    ShiftRightFloor(s1, 4);
    ShiftRightFloor(s2, 4);
    DivMonotone(s1, s2, 16);
  }

  /** Only the low 14 bits of the phase matter: the quadrant bits and everything above them are ignored. */
  lemma SinLowBitsOnly(w: i32)
    ensures SinFromTable(w) == SinFromTable(w % 0x4000)
  {
    var q, s := w / 0x4000, w % 0x4000;
    assert w == 0x4000 * q + s;
    var h, f := s / 16, s % 16;
    assert s == 16 * h + f;
    DivModUnique(w, 16, 0x400 * q + h, f);
    DivModUnique(s, 16, h, f);
    assert 0 <= h < 1024;
    DivModUnique(0x400 * q + h, 1024, q, h);
    DivModUnique(h, 1024, 0, h);
  }

  /** At a phase with no fractional part the result is the table entry itself. */
  lemma SinAtTablePoint(w: i32)
    requires Fraction(w) == 0
    ensures SinFromTable(w) == Entry(TableIndex(w))
  {
    TableAdjacent(TableIndex(w));
    TableIsEntry(TableIndex(w));
    TableIsEntry(TableIndex(w) + 1);
    InterpolateExact(Entry(TableIndex(w)), Entry(TableIndex(w) + 1));
  }

  /** The quarter wave starts at 0 ... */
  lemma SinAtZero()
    ensures SinFromTable(0) == 0
  {
    assert TableIndex(0) == 0 && Fraction(0) == 0;
    SinAtTablePoint(0);
    assert Entry(0) == SIN_ROW_00[0] == 0;
  }

  /** ... and ends at the table's maximum 65535, just below 1.0. */
  lemma SinAtQuarterEnd()
    ensures SinFromTable(0x3FFF) == 0xFFFF
  {
    assert TableIndex(0x3FFF) == 1023;
    assert Entry(1023) == SIN_ROW_63[15] == 0xFFFF;
    assert Entry(1024) == SIN_GUARD == 0xFFFF;
  }

  /** Over one quarter period `[0, 0x3FFF]` the interpolated sine never decreases. */
  lemma SinMonotone(v: i32, w: i32)
    requires 0 <= v <= w <= 0x3FFF
    ensures SinFromTable(v) <= SinFromTable(w)
  {
    var iv, iw := TableIndex(v), TableIndex(w);
    DivModUnique(v, 16, v / 16, v % 16);
    DivModUnique(w, 16, w / 16, w % 16);
    DivModUnique(v / 16, 1024, 0, v / 16);
    DivModUnique(w / 16, 1024, 0, w / 16);
    DivMonotone(v, w, 16);
    assert iv == v / 16 && iw == w / 16 && iv <= iw;
    TableAdjacent(iv);
    TableIsEntry(iv);
    TableIsEntry(iv + 1);
    if iv == iw {
      assert Fraction(v) <= Fraction(w);
      InterpolateMonotone(Entry(iv), Entry(iv + 1), Fraction(v), Fraction(w));
    } else {
      TableMonotone(iv + 1, iw);
      TableIsEntry(iw);
    }
  }

  /** `SinMonotone` for all phase pairs at once. */
  lemma SinMonotoneAll()
    ensures forall v, w :: 0 <= v <= w <= 0x3FFF ==> SinFromTable(v) <= SinFromTable(w)
  {
    forall v, w | 0 <= v <= w <= 0x3FFF
      ensures SinFromTable(v) <= SinFromTable(w)
    {
      SinMonotone(v, w);
    }
  }
}

// The older i32 waveform generator: eight sine-based shapes built from a
// 2-bit quadrant and a 14-bit sub-phase of a Q0.16 phase, over the
// interpolated quarter-sine table.
//
// The shapes are written over the quarter-sine lookup `sin` as a parameter and
// `Generate` passes `SinFromTable`; the properties below are proved for every
// lookup with the stated contract, so the table entries stay out of them.

module LegacyWave {
  import opened Int32
  import opened SinTable

  datatype WaveForm =
    | FullSine
    | HalfSine
    | DblHalfSine
    | DblQuartSine
    | FastSine
    | FastHalfSine
    | Sawish
    | Square

  const Q16_ONE: i32 := 0x0001_0000
  const Q16_MINUSONE: i32 := -0x0001_0000
  const Q16_QUART: i32 := 0x3FFF
  const Q16_EIGHTH: i32 := 0x1FFF
  const Q_SHIFT: nat := 14
  const Q_MASK: i32 := 3

  /** The constants are related as the source derives them. */
  lemma Constants()
    ensures Q16_MINUSONE == -Q16_ONE
    ensures Q16_EIGHTH == ShiftRight(Q16_QUART, 1)
  {
    Pow2Values();
    ShiftRightFloor(0x3FFF, 1);
  }

  /** A sub-phase: the position inside one quarter period. */
  type SubPhase = w: i32 | 0 <= w <= 0x3FFF

  /** A lookup rising over one quarter period from 0 to 0xFFFF. */
  ghost predicate RisingQuarter(sin: i32 -> u16) {
    && sin(0) == 0
    && sin(0x3FFF) == 0xFFFF
    && forall v, w :: 0 <= v <= w <= 0x3FFF ==> sin(v) <= sin(w)
  }

  /** `sin_from_table` is such a lookup. */
  lemma SinTableIsRisingQuarter()
    ensures RisingQuarter(SinFromTable)
  {
    SinMonotoneAll();
    SinAtZero();
    SinAtQuarterEnd();
  }

  /** The quadrant `(phase >> Q_SHIFT) & Q_MASK`, bits 14-15 of the phase (`QuadrantIsMask`). */
  function Quadrant(phase: i32): (q: u16)
    ensures q <= 3
  {
    (phase / 0x4000) % 4
  }

  /** The sub-phase `phase & Q16_QUART`, bits 0-13 of the phase (`QuadrantIsMask`). */
  function SubPhaseOf(phase: i32): (w: SubPhase)
  {
    phase % 0x4000
  }

  /** The fields are the source's shift-and-mask expressions, for every `i32`, negative ones included. */
  lemma QuadrantIsMask(phase: i32)
    ensures Quadrant(phase) == And(ShiftRight(phase, Q_SHIFT), Q_MASK)
    ensures SubPhaseOf(phase) == And(phase, Q16_QUART)
  {
    Pow2Values();
    ShiftRightFloor(phase, 14);
    AndLowMask(ShiftRight(phase, 14), 3, 2);
    AndLowMask(phase, 0x3FFF, 14);
  }

  /** Quadrant and sub-phase are the two bit fields of the low 16 bits of the phase. */
  lemma Fields(phase: i32)
    ensures Quadrant(phase) == (phase % 0x1_0000) / 0x4000
    ensures SubPhaseOf(phase) == (phase % 0x1_0000) % 0x4000
  {
    var t, w := phase / 0x4000, phase % 0x4000;
    var k, q := t / 4, t % 4;
    assert phase == 0x4000 * t + w;
    assert t == 4 * k + q;
    assert phase == 0x1_0000 * k + (0x4000 * q + w);
    DivModUnique(phase, 0x1_0000, k, 0x4000 * q + w);
    DivModUnique(0x4000 * q + w, 0x4000, q, w);
  }

  /** Two phases with the same low 16 bits have the same quadrant and sub-phase. */
  lemma FieldsOfLow16(p: i32, p2: i32)
    requires p % 0x1_0000 == p2 % 0x1_0000
    ensures Quadrant(p) == Quadrant(p2) && SubPhaseOf(p) == SubPhaseOf(p2)
  {
    Fields(p);
    Fields(p2);
  }

  /** `generate` over the lookup `sin`: dispatch on the shape with the quadrant and sub-phase. */
  function GenerateWith(sin: i32 -> u16, wave: WaveForm, phase: i32): (r: i32)
    ensures -0x1_0000 <= r <= 0x1_0000
  {
    var q := Quadrant(phase);
    var w := SubPhaseOf(phase);
    match wave
    case FullSine => FullSineAt(sin, q, w)
    case HalfSine => HalfSineAt(sin, q, w)
    case DblHalfSine => DblHalfSineAt(sin, q, w)
    case DblQuartSine => DblQuartSineAt(sin, q, w)
    case FastSine => FastSineAt(sin, q, w)
    case FastHalfSine => FastHalfSineAt(sin, q, w)
    case Sawish => SawishAt(sin, q, w)
    case Square => SquareAt(q, w)
  }

  /** `generate`: the sample of shape `wave` at `phase`, always within one unit of full scale. */
  function Generate(wave: WaveForm, phase: i32): (r: i32)
    ensures -0x1_0000 <= r <= 0x1_0000
  {
    GenerateWith(SinFromTable, wave, phase)
  }

  /** One full sine period: the quarter table read forwards, backwards, then both negated. */
  function FullSineAt(sin: i32 -> u16, q: u16, w: SubPhase): (r: i32)
    ensures -0xFFFF <= r <= 0xFFFF
    ensures q <= 1 ==> r >= 0
    ensures q >= 2 ==> r <= 0
  {
    match q
    case 0 => sin(w)
    case 1 => sin(0x3FFF - w)
    case 2 => -(sin(w) as i32)
    case 3 => -(sin(0x3FFF - w) as i32)
    case _ => 0
  }

  /** The positive half of the sine, silent for the second half period. */
  function HalfSineAt(sin: i32 -> u16, q: u16, w: SubPhase): (r: i32)
    ensures 0 <= r <= 0xFFFF
  {
    match q
    case 0 => sin(w)
    case 1 => sin(0x3FFF - w)
    case _ => 0
  }

  /** The positive half of the sine, played twice per period. */
  function DblHalfSineAt(sin: i32 -> u16, q: u16, w: SubPhase): (r: i32)
    ensures 0 <= r <= 0xFFFF
  {
    match q
    case 0 | 2 => sin(w)
    case 1 | 3 => sin(0x3FFF - w)
    case _ => 0
  }

  /** A rising quarter sine in quadrant 0 and its negation in quadrant 2. */
  function DblQuartSineAt(sin: i32 -> u16, q: u16, w: SubPhase): (r: i32)
    ensures -0xFFFF <= r <= 0xFFFF
  {
    match q
    case 0 => sin(w)
    case 2 => -(sin(w) as i32)
    case _ => 0
  }

  /** A half sine at twice the speed: bit `0x2000` (`Q16_EIGHTH + 1`) picks the rising or falling quarter. */
  function FastHalfWave(sin: i32 -> u16, w: SubPhase): (r: i32)
    ensures 0 <= r <= 0xFFFF
  {
    if (w / 0x2000) % 2 == 0 then sin(w * 2)
    else sin(0x3FFF - (w % 0x2000) * 2)
  }

  /** A full sine period squeezed into the first half period. */
  function FastSineAt(sin: i32 -> u16, q: u16, w: SubPhase): (r: i32)
    ensures -0xFFFF <= r <= 0xFFFF
  {
    match q
    case 0 => FastHalfWave(sin, w)
    case 1 => -FastHalfWave(sin, w)
    case _ => 0
  }

  /** Two double-speed half sines in the first half period. */
  function FastHalfSineAt(sin: i32 -> u16, q: u16, w: SubPhase): (r: i32)
    ensures 0 <= r <= 0xFFFF
  {
    match q
    case 0 | 1 => FastHalfWave(sin, w)
    case _ => 0
  }

  /** A rising sine over the first half period that jumps down to a falling negative one. */
  function SawishAt(sin: i32 -> u16, q: u16, w: SubPhase): (r: i32)
    ensures -0xFFFF <= r <= 0xFFFF
    ensures q <= 1 ==> r >= 0
    ensures q >= 2 ==> r <= 0
  {
    match q
    case 0 => sin((w / 2) % 0x4000)
    case 1 => sin((0x1FFF + w / 2) % 0x4000)
    case 2 => -(sin(0x3FFF - (w / 2) % 0x4000) as i32)
    case 3 => -(sin(0x3FFF - (0x1FFF + w / 2) % 0x4000) as i32)
    case _ => 0
  }

  /** Full scale positive for the first half period, full scale negative for the second. */
  function SquareAt(q: u16, w: SubPhase): (r: i32)
    ensures q <= 3 ==> (r == 0x1_0000 <==> q <= 1) && (r == -0x1_0000 <==> q >= 2)
  {
    match q
    case 0 | 1 => 0x1_0000
    case 2 | 3 => -0x1_0000
    case _ => 0
  }

  // ------------------------------------------------------------ properties

  /** Only the low 16 bits of the phase matter. */
  lemma GenerateLow16(sin: i32 -> u16, wave: WaveForm, p: i32)
    ensures GenerateWith(sin, wave, p) == GenerateWith(sin, wave, And(p, 0xFFFF))
  {
    Pow2Values();
    AndLowMask(p, 0xFFFF, 16);
    var p2 := And(p, 0xFFFF);
    DivModUnique(p2, 0x1_0000, 0, p2);
    FieldsOfLow16(p, p2);
  }

  /** Adding half a period (with i32 wrap-around) moves the quadrant on by two. */
  lemma HalfPeriodShift(p: i32)
    ensures Quadrant(Wrap(p + 0x8000)) == (Quadrant(p) + 2) % 4
    ensures SubPhaseOf(Wrap(p + 0x8000)) == SubPhaseOf(p)
  {
    Fields(p);
    Fields(Wrap(p + 0x8000));
    WrapMod(p + 0x8000, 0x1_0000);
    HalfShiftResidue(p);
    HalfShiftFields(p % 0x1_0000);
  }

  /** Square is full scale positive in quadrants 0-1 and full scale negative in 2-3, whatever `w`. */
  lemma SquareLevels(sin: i32 -> u16, p: i32)
    ensures GenerateWith(sin, Square, p) == (if Quadrant(p) <= 1 then Q16_ONE else Q16_MINUSONE)
  {
  }

  /** The second half of FullSine negates the first half at the same sub-phase. */
  lemma FullSineAntisymmetric(sin: i32 -> u16, w: SubPhase)
    ensures FullSineAt(sin, 2, w) == -FullSineAt(sin, 0, w)
    ensures FullSineAt(sin, 3, w) == -FullSineAt(sin, 1, w)
  {
  }

  /** FullSine is odd over half a period: `p + 0x8000` gives the negated sample. */
  lemma FullSineHalfCycle(sin: i32 -> u16, p: i32)
    ensures GenerateWith(sin, FullSine, Wrap(p + 0x8000)) == -GenerateWith(sin, FullSine, p)
  {
    HalfPeriodShift(p);
  }

  /** Over quadrant 0 FullSine rises from 0 to full scale, and quadrant 1 mirrors it back down. */
  lemma FullSineQuarterShape(sin: i32 -> u16, v: SubPhase, w: SubPhase)
    requires RisingQuarter(sin)
    requires v <= w
    ensures FullSineAt(sin, 0, v) <= FullSineAt(sin, 0, w)
    ensures FullSineAt(sin, 1, v) >= FullSineAt(sin, 1, w)
    ensures FullSineAt(sin, 0, 0) == 0 && FullSineAt(sin, 1, 0x3FFF) == 0
    ensures FullSineAt(sin, 0, 0x3FFF) == 0xFFFF && FullSineAt(sin, 1, 0) == 0xFFFF
    ensures FullSineAt(sin, 1, w) == FullSineAt(sin, 0, 0x3FFF - w)
  {
    assert 0 <= 0x3FFF - w <= 0x3FFF - v <= 0x3FFF;
  }

  /** Shapes that are silent in some quadrants. */
  lemma SilentQuadrants(sin: i32 -> u16, w: SubPhase)
    ensures HalfSineAt(sin, 2, w) == 0 && HalfSineAt(sin, 3, w) == 0
    ensures DblQuartSineAt(sin, 1, w) == 0 && DblQuartSineAt(sin, 3, w) == 0
    ensures DblQuartSineAt(sin, 2, w) == -DblQuartSineAt(sin, 0, w)
    ensures FastSineAt(sin, 2, w) == 0 && FastSineAt(sin, 3, w) == 0
    ensures FastHalfSineAt(sin, 2, w) == 0 && FastHalfSineAt(sin, 3, w) == 0
  {
  }

  /** DblHalfSine never goes negative and repeats every half period. */
  lemma DblHalfSineRepeats(sin: i32 -> u16, p: i32)
    ensures GenerateWith(sin, DblHalfSine, p) >= 0
    ensures GenerateWith(sin, DblHalfSine, Wrap(p + 0x8000)) == GenerateWith(sin, DblHalfSine, p)
  {
    HalfPeriodShift(p);
  }

  /** FastSine's quadrant 1 negates quadrant 0; FastHalfSine repeats FastSine's quadrant 0 twice. */
  lemma FastShapes(sin: i32 -> u16, w: SubPhase)
    ensures FastSineAt(sin, 1, w) == -FastSineAt(sin, 0, w)
    ensures FastHalfSineAt(sin, 0, w) == FastSineAt(sin, 0, w)
    ensures FastHalfSineAt(sin, 1, w) == FastSineAt(sin, 0, w)
  {
  }

  /** The bit tests and masks inside the shapes are the arithmetic the shapes use. */
  lemma ShapeMasks(w: SubPhase)
    ensures (And(w, Q16_EIGHTH + 1) == 0) == ((w / 0x2000) % 2 == 0)
    ensures And(w, Q16_EIGHTH) == w % 0x2000
    ensures And(w / 2, Q16_QUART) == (w / 2) % 0x4000
    ensures And(Q16_EIGHTH + w / 2, Q16_QUART) == (0x1FFF + w / 2) % 0x4000
  {
    Pow2Values();
    AndSingleBit(w, 0x2000, 13);
    AndLowMask(w, 0x1FFF, 13);
    AndLowMask(w / 2, 0x3FFF, 14);
    AndLowMask(0x1FFF + w / 2, 0x3FFF, 14);
  }

  /** The bit test in FastSine splits the quadrant at its midpoint `0x2000`, and the mask
      takes the distance past it: a double-speed rise, then a double-speed fall. */
  lemma FastHalfWaveHalves(sin: i32 -> u16, w: SubPhase)
    ensures w < 0x2000 ==> FastHalfWave(sin, w) == sin(2 * w)
    ensures w >= 0x2000 ==> FastHalfWave(sin, w) == sin(0x3FFF - 2 * (w - 0x2000))
  {
    if w >= 0x2000 {
      DivModUnique(w, 0x2000, 1, w - 0x2000);
    } else {
      DivModUnique(w, 0x2000, 0, w);
    }
  }

  /** Sawish reads the table at half speed: its masks never cut anything off. */
  lemma SawishHalfSpeed(sin: i32 -> u16, w: SubPhase)
    ensures SawishAt(sin, 0, w) == sin(w / 2)
    ensures SawishAt(sin, 1, w) == sin(0x1FFF + w / 2)
    ensures SawishAt(sin, 2, w) == -(sin(0x3FFF - w / 2) as int)
    ensures SawishAt(sin, 3, w) == -(sin(0x3FFF - (0x1FFF + w / 2)) as int)
  {
    DivModUnique(w / 2, 0x4000, 0, w / 2);
    DivModUnique(0x1FFF + w / 2, 0x4000, 0, 0x1FFF + w / 2);
  }
}

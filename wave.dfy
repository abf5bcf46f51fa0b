// The FP waveform generator of the synthesiser: eight sine-based shapes built
// from a 2-bit quadrant and a 14-bit sub-phase of the fractional part of a
// Q16.16 phase, over the fixed-point sine `FP::sinw`.
//
// `FP::sinw` is not part of this model; every function and lemma here takes it
// as a parameter `sinw` and holds for whatever it computes.

module Wave {
  import opened Int32
  import opened FixedPoint

  datatype WaveForm =
    | FullSine
    | HalfSine
    | DblHalfSine
    | DblQuartSine
    | FastSine
    | FastHalfSine
    | Sawish
    | Square

  const FP_MINUSONE: FP := FP(-65536)
  const FP_QUART: FP := FP(0x3FFF)
  const FP_EIGHTH: FP := FP(0x1FFF)
  const Q_SHIFT: nat := 14
  const Q_MASK: i32 := 3

  /** A sub-phase: an `FP` inside one quarter period. */
  type SubPhase = w: FP | 0 <= w.repr <= 0x3FFF witness FP(0)

  /** The quadrant `(ph >> Q_SHIFT) & Q_MASK` of the 16-bit phase `ph` (`FieldsAreMasks`). */
  function Quadrant(ph: u16): (q: u16)
    ensures q <= 3
  {
    ph / 0x4000
  }

  /** The sub-phase `FP::raw((ph & FP_QUART.fraq()) as i32)` (`FieldsAreMasks`). */
  function SubPhaseOf(ph: u16): (w: SubPhase)
  {
    Raw(ph % 0x4000)
  }

  /** The fields are the source's shift-and-mask expressions on the `u16` phase. */
  lemma FieldsAreMasks(ph: u16)
    ensures Quadrant(ph) == And(ShiftRight(ph, Q_SHIFT), Q_MASK)
    ensures SubPhaseOf(ph).repr == And(ph, Fraq(FP_QUART))
    ensures ph == 0x4000 * Quadrant(ph) + SubPhaseOf(ph).repr
  {
    Pow2Values();
    ShiftRightFloor(ph, 14);
    AndLowMask(ShiftRight(ph, 14), 3, 2);
    DivModUnique(ph / 0x4000, 4, 0, ph / 0x4000);
    AndLowMask(ph, 0x3FFF, 14);
  }

  datatype WaveGenerator = WaveGenerator(waveform: WaveForm)
  {
    /** `generate(&self, phase)`: only the fractional part `phase.fraq()` is used. */
    function Generate(sinw: FP -> FP, phase: FP): FP
    {
      var ph := Fraq(phase);
      var q := Quadrant(ph);
      var w := SubPhaseOf(ph);
      match waveform
      case FullSine => FullSineAt(sinw, q, w)
      case HalfSine => HalfSineAt(sinw, q, w)
      case DblHalfSine => DblHalfSineAt(sinw, q, w)
      case DblQuartSine => DblQuartSineAt(sinw, q, w)
      case FastSine => FastSineAt(sinw, q, w)
      case FastHalfSine => FastHalfSineAt(sinw, q, w)
      case Sawish => SawishAt(sinw, q, w)
      case Square => SquareAt(q, w)
    }
  }

  /** `WaveGenerator::new()`. */
  function New(): (g: WaveGenerator)
    ensures g.waveform == FullSine
  {
    WaveGenerator(FullSine)
  }

  /** One full period: `sinw` forwards, backwards, then both negated. */
  function FullSineAt(sinw: FP -> FP, q: u16, w: SubPhase): FP
  {
    match q
    case 0 => sinw(w)
    case 1 => sinw(Sub(FP_QUART, w))
    case 2 => Neg(sinw(w))
    case 3 => Neg(sinw(Sub(FP_QUART, w)))
    case _ => FP_ZERO
  }

  /** The positive half of the sine, silent for the second half period. */
  function HalfSineAt(sinw: FP -> FP, q: u16, w: SubPhase): FP
  {
    match q
    case 0 => sinw(w)
    case 1 => sinw(Sub(FP_QUART, w))
    case _ => FP_ZERO
  }

  /** The positive half of the sine, played twice per period. */
  function DblHalfSineAt(sinw: FP -> FP, q: u16, w: SubPhase): FP
  {
    match q
    case 0 | 2 => sinw(w)
    case 1 | 3 => sinw(Sub(FP_QUART, w))
    case _ => FP_ZERO
  }

  /** A rising quarter in quadrant 0 and its negation in quadrant 2. */
  function DblQuartSineAt(sinw: FP -> FP, q: u16, w: SubPhase): FP
  {
    match q
    case 0 => sinw(w)
    case 2 => Neg(sinw(w))
    case _ => FP_ZERO
  }

  /** A half sine at twice the speed, split at `w < FP_EIGHTH`. */
  function FastHalfWave(sinw: FP -> FP, w: SubPhase): FP
  {
    if Lt(w, FP_EIGHTH) then sinw(MulInt(w, 2))
    else sinw(MulInt(Sub(FP_QUART, w), 2))
  }

  /** A full period squeezed into the first half period. */
  function FastSineAt(sinw: FP -> FP, q: u16, w: SubPhase): FP
  {
    match q
    case 0 => FastHalfWave(sinw, w)
    case 1 => Neg(FastHalfWave(sinw, w))
    case _ => FP_ZERO
  }

  /** Two double-speed half sines in the first half period. */
  function FastHalfSineAt(sinw: FP -> FP, q: u16, w: SubPhase): FP
  {
    match q
    case 0 | 1 => FastHalfWave(sinw, w)
    case _ => FP_ZERO
  }

  /** A half-speed sine over `w2 = w >> 1`. */
  function SawishAt(sinw: FP -> FP, q: u16, w: SubPhase): FP
  {
    var w2 := Shr(w, 1);
    match q
    case 0 => sinw(w2)
    case 1 => sinw(Add(w2, FP_EIGHTH))
    case 2 => Neg(sinw(Sub(FP_QUART, w2)))
    case 3 => Neg(sinw(Sub(FP_EIGHTH, w2)))
    case _ => FP_ZERO
  }

  /** `FP_ONE` for the first half period, `FP_MINUSONE` for the second. */
  function SquareAt(q: u16, w: SubPhase): (r: FP)
    ensures q <= 3 ==> (r == FP_ONE <==> q <= 1) && (r == FP_MINUSONE <==> q >= 2)
  {
    match q
    case 0 | 1 => FP_ONE
    case 2 | 3 => FP_MINUSONE
    case _ => FP_ZERO
  }

  // ------------------------------------------------------------ properties

  /** `generate` reads only `phase.fraq()`: phases a whole number of periods apart give the same sample. */
  lemma GeneratePeriodic(g: WaveGenerator, sinw: FP -> FP, phase: FP, k: i32)
    ensures g.Generate(sinw, Add(phase, FromI32(k))) == g.Generate(sinw, phase)
  {
    FracPeriodic(phase, k);
  }

  /** Phases with the same fractional part give the same sample. */
  lemma GenerateFraqOnly(g: WaveGenerator, sinw: FP -> FP, p: FP, p2: FP)
    requires Frac(p) == Frac(p2)
    ensures g.Generate(sinw, p) == g.Generate(sinw, p2)
  {
  }

  /** Square is `FP_ONE` in quadrants 0-1 and `FP_MINUSONE` (raw -65536) in 2-3. */
  lemma SquareLevels(sinw: FP -> FP, phase: FP)
    ensures WaveGenerator(Square).Generate(sinw, phase)
      == (if Quadrant(Fraq(phase)) <= 1 then FP_ONE else FP_MINUSONE)
    ensures FP_MINUSONE.repr == -65536 && FP_MINUSONE == Neg(FP_ONE)
  {
  }

  /** FullSine two quadrants on is the negation of FullSine at the same sub-phase. */
  lemma FullSineOpposite(sinw: FP -> FP, q: u16, w: SubPhase)
    requires q <= 3
    ensures FullSineAt(sinw, (q + 2) % 4, w) == Neg(FullSineAt(sinw, q, w))
  {
    var q2 := (q + 2) % 4;
    if q == 0 {
      assert q2 == 2;
    } else if q == 1 {
      assert q2 == 3;
    } else if q == 2 {
      assert q2 == 0;
      NegInvolutive(sinw(w));
    } else {
      assert q2 == 1;
      NegInvolutive(sinw(Sub(FP_QUART, w)));
    }
  }

  /** Adding half a period to the phase moves the quadrant on by two and keeps the sub-phase. */
  lemma HalfPeriodShift(phase: FP)
    ensures Quadrant(Fraq(Add(phase, Raw(0x8000)))) == (Quadrant(Fraq(phase)) + 2) % 4
    ensures SubPhaseOf(Fraq(Add(phase, Raw(0x8000)))) == SubPhaseOf(Fraq(phase))
  {
    FracOfSum(phase, Raw(0x8000));
    HalfShiftResidue(phase.repr);
    HalfShiftFields(phase.repr % 0x1_0000);
  }

  /** FullSine is odd over half a period. */
  lemma FullSineHalfCycle(sinw: FP -> FP, phase: FP)
    ensures WaveGenerator(FullSine).Generate(sinw, Add(phase, Raw(0x8000)))
      == Neg(WaveGenerator(FullSine).Generate(sinw, phase))
  {
    HalfPeriodShift(phase);
    FullSineOpposite(sinw, Quadrant(Fraq(phase)), SubPhaseOf(Fraq(phase)));
  }

  /** Shapes that are silent in some quadrants. */
  lemma SilentQuadrants(sinw: FP -> FP, w: SubPhase)
    ensures HalfSineAt(sinw, 2, w) == FP_ZERO && HalfSineAt(sinw, 3, w) == FP_ZERO
    ensures DblQuartSineAt(sinw, 1, w) == FP_ZERO && DblQuartSineAt(sinw, 3, w) == FP_ZERO
    ensures DblQuartSineAt(sinw, 2, w) == Neg(DblQuartSineAt(sinw, 0, w))
    ensures FastSineAt(sinw, 2, w) == FP_ZERO && FastSineAt(sinw, 3, w) == FP_ZERO
    ensures FastHalfSineAt(sinw, 2, w) == FP_ZERO && FastHalfSineAt(sinw, 3, w) == FP_ZERO
  {
  }

  /** DblHalfSine repeats every half period. */
  lemma DblHalfSineRepeats(sinw: FP -> FP, phase: FP)
    ensures WaveGenerator(DblHalfSine).Generate(sinw, Add(phase, Raw(0x8000)))
      == WaveGenerator(DblHalfSine).Generate(sinw, phase)
  {
    HalfPeriodShift(phase);
  }

  /** FastSine's quadrant 1 negates quadrant 0; FastHalfSine repeats FastSine's quadrant 0 twice. */
  lemma FastShapes(sinw: FP -> FP, w: SubPhase)
    ensures FastSineAt(sinw, 1, w) == Neg(FastSineAt(sinw, 0, w))
    ensures FastHalfSineAt(sinw, 0, w) == FastSineAt(sinw, 0, w)
    ensures FastHalfSineAt(sinw, 1, w) == FastSineAt(sinw, 0, w)
  {
  }

  /** The doubled arguments never overflow: `2w` below `FP_EIGHTH`, `2(FP_QUART - w)` from it on. */
  lemma FastHalfWaveArguments(sinw: FP -> FP, w: SubPhase)
    ensures w.repr < 0x1FFF ==> FastHalfWave(sinw, w) == sinw(Raw(2 * w.repr))
    ensures w.repr >= 0x1FFF ==> FastHalfWave(sinw, w) == sinw(Raw(2 * (0x3FFF - w.repr)))
    ensures w.repr < 0x1FFF ==> 0 <= 2 * w.repr <= 0x3FFC
    ensures w.repr >= 0x1FFF ==> 0 <= 2 * (0x3FFF - w.repr) <= 0x4000
  {
  }

  /** Sawish's arguments: `w >> 1` is `w / 2`, and no sum or difference overflows. */
  lemma SawishArguments(sinw: FP -> FP, w: SubPhase)
    ensures SawishAt(sinw, 0, w) == sinw(Raw(w.repr / 2))
    ensures SawishAt(sinw, 1, w) == sinw(Raw(w.repr / 2 + 0x1FFF))
    ensures SawishAt(sinw, 2, w) == Neg(sinw(Raw(0x3FFF - w.repr / 2)))
    ensures SawishAt(sinw, 3, w) == Neg(sinw(Raw(0x1FFF - w.repr / 2)))
  {
    Pow2Values();
    ShrIsFloorDivision(w, 1);
  }
}

// An FM operator: a phase generator whose modulation input is the operator's external
// modulation plus its own scaled output from the previous sample, a waveform generator, and
// two 8-bit levels that scale the wave for the output and for the feedback path. The operator
// also owns an envelope generator, which the voice opens and closes but which does not take
// part in the operator's sample.
//
// `FP::exp` and `FP::sinw` are not part of this model; they are the parameters `exp` and `sinw`.

module Operators {
  import opened Int32
  import opened FixedPoint
  import Phase
  import Wave
  import Envelope

  /** `x * FP::from(level) >> 8`: the wave scaled by level / 256. */
  function Scale(x: FP, level: u8): FP
  {
    Shr(Mul(x, FromU8(level)), 8)
  }

  /** The scaled value is the raw product with the level, wrapped to 32 bits, divided by 256
      rounding down. */
  lemma ScaleExact(x: FP, level: u8)
    ensures Scale(x, level).repr == Wrap(x.repr * level) / 256
  {
    var p := x.repr * (level * 0x1_0000);
    assert p == (x.repr * level) * 0x1_0000;
    DivModUnique(p, 0x1_0000, x.repr * level, 0);
    assert Mul(x, FromU8(level)).repr == Wrap(x.repr * level);
    Pow2Values();
    ShrIsFloorDivision(Mul(x, FromU8(level)), 8);
  }

  /** Without wrap-around the scaled value is floor(x * level / 256): the divisor is 256, so
      level 255 is not the identity. */
  lemma ScaleFloor(x: FP, level: u8)
    requires InRange(x.repr * level)
    ensures Scale(x, level).repr == x.repr * level / 256
  {
    ScaleExact(x, level);
  }

  /** Level 0 silences every value. */
  lemma ScaleZero(x: FP)
    ensures Scale(x, 0) == FP_ZERO
  {
    ScaleExact(x, 0);
  }

  /** Level 255 loses 1/256 of full scale. */
  lemma ScaleFullLevel()
    ensures Scale(FP_ONE, 255).repr == 0xFF00
  {
    ScaleFloor(FP_ONE, 255);
  }

  /** Scaling never increases the magnitude and never flips the sign, whenever the product fits. */
  lemma ScaleBounded(x: FP, level: u8)
    requires InRange(x.repr * level)
    ensures 0 <= x.repr ==> 0 <= Scale(x, level).repr <= x.repr
    ensures x.repr < 0 ==> x.repr <= Scale(x, level).repr <= 0
  {
    ScaleFloor(x, level);
    ProductShareBounds(x.repr, level);
  }

  /** floor(w * level / 256) lies between 0 and w for every level up to 256. */
  lemma ProductShareBounds(w: int, level: int)
    requires 0 <= level <= 256
    ensures 0 <= w ==> 0 <= w * level / 256 <= w
    ensures w < 0 ==> w <= w * level / 256 <= 0
  {
    var v := w * level;
    assert (w * 256) / 256 == w;
    if 0 <= w {
      MulSign(w, level);
      assert w * 256 - v == w * (256 - level);
      MulSign(w, 256 - level);
      DivMonotone(0, v, 256);
      DivMonotone(v, w * 256, 256);
    } else {
      assert v - w * 256 == (-w) * (256 - level);
      MulSign(-w, 256 - level);
      assert v == -((-w) * level);
      MulSign(-w, level);
      DivMonotone(w * 256, v, 256);
      DivMonotone(v, 0, 256);
    }
  }

  /** The operator as a value: its phase generator's fields, its waveform, levels, modulation
      input and feedback, and its envelope. */
  datatype OpState = OpState(
    phase: FP, flog2: FP, tune: FP, waveform: Wave.WaveForm,
    totalLevel: u8, feedbackLevel: u8, modInput: FP, feedback: FP, env: Envelope.Env)

  /** The stored phase after one sample. */
  function PhaseAfter(exp: FP -> FP, s: OpState): FP
  {
    Phase.AddFrac(s.phase, Phase.Increment(exp, s.flog2, s.tune))
  }

  /** The unscaled wave of one sample: the phase generator is fed the modulation input plus the
      feedback of the previous sample. */
  function WaveOf(exp: FP -> FP, sinw: FP -> FP, s: OpState): FP
  {
    Wave.WaveGenerator(s.waveform).Generate(sinw, Phase.AddFrac(PhaseAfter(exp, s), Add(s.modInput, s.feedback)))
  }

  /** The sample `get_sample()` returns. */
  function Output(exp: FP -> FP, sinw: FP -> FP, s: OpState): FP
  {
    Scale(WaveOf(exp, sinw, s), s.totalLevel)
  }

  /** The operator after `get_sample()`: a new phase and a new feedback taken from the unscaled
      wave; nothing else changes. */
  function After(exp: FP -> FP, sinw: FP -> FP, s: OpState): (r: OpState)
    ensures r.flog2 == s.flog2 && r.tune == s.tune && r.waveform == s.waveform
    ensures r.totalLevel == s.totalLevel && r.feedbackLevel == s.feedbackLevel
    ensures r.modInput == s.modInput && r.env == s.env
    ensures 0 <= r.phase.repr <= 0xFFFF
  {
    s.(phase := PhaseAfter(exp, s), feedback := Scale(WaveOf(exp, sinw, s), s.feedbackLevel))
  }

  /** A total level of 0 silences the operator, whatever its wave. */
  lemma SilentAtLevelZero(exp: FP -> FP, sinw: FP -> FP, s: OpState)
    requires s.totalLevel == 0
    ensures Output(exp, sinw, s) == FP_ZERO
  {
    ScaleZero(WaveOf(exp, sinw, s));
  }

  /** A feedback level of 0 leaves no feedback for the next sample. */
  lemma NoFeedbackAtLevelZero(exp: FP -> FP, sinw: FP -> FP, s: OpState)
    requires s.feedbackLevel == 0
    ensures After(exp, sinw, s).feedback == FP_ZERO
  {
    ScaleZero(WaveOf(exp, sinw, s));
  }

  /** The output and the new feedback are the same wave scaled by the two levels, each
      floor(wave * level / 256) when the product fits, and neither exceeds the wave in
      magnitude or has the opposite sign. */
  lemma OutputAndFeedback(exp: FP -> FP, sinw: FP -> FP, s: OpState)
    requires InRange(WaveOf(exp, sinw, s).repr * 255)
    ensures var w := WaveOf(exp, sinw, s).repr;
      var out := Output(exp, sinw, s).repr;
      var fb := After(exp, sinw, s).feedback.repr;
      out == w * s.totalLevel / 256 && fb == w * s.feedbackLevel / 256 &&
      (0 <= w ==> 0 <= out <= w && 0 <= fb <= w) &&
      (w < 0 ==> w <= out <= 0 && w <= fb <= 0)
  {
    var x := WaveOf(exp, sinw, s);
    InRangeBelow(x.repr, s.totalLevel);
    InRangeBelow(x.repr, s.feedbackLevel);
    ScaleFloor(x, s.totalLevel);
    ScaleFloor(x, s.feedbackLevel);
    ScaleBounded(x, s.totalLevel);
    ScaleBounded(x, s.feedbackLevel);
  }

  /** A product with 255 that fits bounds the product with every smaller level. */
  lemma InRangeBelow(w: int, level: u8)
    requires InRange(w * 255)
    ensures InRange(w * level)
  {
    if 0 <= w {
      MulSign(w, level);
      assert w * 255 - w * level == w * (255 - level);
      MulSign(w, 255 - level);
    } else {
      assert w * level - w * 255 == (-w) * (255 - level);
      MulSign(-w, 255 - level);
      assert w * level == -((-w) * level);
      MulSign(-w, level);
    }
  }

  class Operator {
    const phaseGen: Phase.PhaseGenerator
    var waveGen: Wave.WaveGenerator
    const envGen: Envelope.EnvGenerator
    var totalLevel: u8
    var feedbackLevel: u8
    var modInput: FP
    var feedback: FP

    function Snapshot(): OpState
      reads this, phaseGen, envGen
    {
      OpState(phaseGen.phase, phaseGen.flog2, phaseGen.tune, waveGen.waveform,
              totalLevel, feedbackLevel, modInput, feedback, envGen.Snapshot())
    }

    /** `Operator::new()`: full total level, no feedback, no modulation, a full sine. */
    constructor ()
      ensures fresh(phaseGen) && fresh(envGen)
      ensures Snapshot() ==
        OpState(FP_ZERO, FP_ZERO, FP_ZERO, Wave.FullSine, 255, 0, FP_ZERO, FP_ZERO, Envelope.NewEnv())
    {
      phaseGen := new Phase.PhaseGenerator();
      waveGen := Wave.New();
      envGen := new Envelope.EnvGenerator();
      totalLevel := 255;
      feedbackLevel := 0;
      modInput := FP_ZERO;
      feedback := FP_ZERO;
    }

    /** `get_sample()`: advance the phase by the modulation input plus the previous feedback,
        generate the wave, keep its feedback share for the next sample and return its output
        share. */
    method GetSample(exp: FP -> FP, sinw: FP -> FP) returns (out: FP)
      modifies this, phaseGen
      ensures Snapshot() == After(exp, sinw, old(Snapshot()))
      ensures out == Output(exp, sinw, old(Snapshot()))
    {
      var phase := phaseGen.Update(exp, Add(modInput, feedback));
      var output := waveGen.Generate(sinw, phase);
      feedback := Shr(Mul(output, FromU8(feedbackLevel)), 8);
      out := Shr(Mul(output, FromU8(totalLevel)), 8);
    }
  }
}

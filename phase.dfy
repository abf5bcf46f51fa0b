// The phase accumulator of the synthesiser: a Q16.16 phase kept to its
// fractional part, advanced once per sample by `FP::exp` of the note's log2
// frequency relative to the sample rate, and offset by a modulation input.
//
// `FP::exp` is not part of this model; `Update` takes it as a parameter `exp`.

module Phase {
  import opened Int32
  import opened FixedPoint

  /** The sample rate, in Hz. */
  const SAMPLE_FREQ: nat := 48000

  /** log2(48000) = 15.55075 as Q16.16. */
  const LOG2_SF: FP := FP(0xF_8CFE)

  /** `(a + b).frac()`: the sum wrapped to one period. */
  function AddFrac(a: FP, b: FP): (r: FP)
    ensures 0 <= r.repr <= 0xFFFF
    ensures r.repr == (a.repr + b.repr) % 0x1_0000
  {
    FracOfSum(a, b);
    Frac(Add(a, b))
  }

  /** Without modulation the output is the stored phase itself. */
  lemma NoModulation(phase: FP)
    requires 0 <= phase.repr <= 0xFFFF
    ensures AddFrac(phase, FP_ZERO) == phase
  {
    DivModUnique(phase.repr, 0x1_0000, 0, phase.repr);
  }

  /** A modulation of one whole period more changes nothing. */
  lemma ModulationPeriodic(phase: FP, m: FP)
    ensures AddFrac(phase, Add(m, FP_ONE)) == AddFrac(phase, m)
  {
    var a := (phase.repr + m.repr) % 0x1_0000;
    var sum: int := Add(m, FP_ONE).repr;
    assert sum % 0x1_0000 == (m.repr + 0x1_0000) % 0x1_0000 by {
      WrapMod(m.repr + 0x1_0000, 0x1_0000);
    }
    ModAdd(phase.repr, sum, 0x1_0000);
    ModAdd(phase.repr, m.repr + 0x1_0000, 0x1_0000);
    ModAddMultiple(phase.repr + m.repr, 0x1_0000, 0x1_0000);
  }

  /** The per-sample increment `FP::exp(flog2 + tune - LOG2_SF)`. */
  function Increment(exp: FP -> FP, flog2: FP, tune: FP): FP
  {
    exp(Sub(Add(flog2, tune), LOG2_SF))
  }

  class PhaseGenerator {
    var phase: FP
    var flog2: FP
    /** The log2 of the frequency multiplier. */
    var tune: FP

    /** `PhaseGenerator::new()`. */
    constructor ()
      ensures phase == FP_ZERO && flog2 == FP_ZERO && tune == FP_ZERO
    {
      phase := FP_ZERO;
      flog2 := FP_ZERO;
      tune := FP_ZERO;
    }

    /** `update(&mut self, m)`: advance the stored phase by one increment, then return it offset by
        the modulation `m`. The stored phase never depends on `m`. */
    method Update(exp: FP -> FP, m: FP) returns (r: FP)
      modifies this
      ensures phase == AddFrac(old(phase), Increment(exp, old(flog2), old(tune)))
      ensures flog2 == old(flog2) && tune == old(tune)
      ensures 0 <= phase.repr <= 0xFFFF
      ensures r == AddFrac(phase, m) && 0 <= r.repr <= 0xFFFF
    {
      var phaseInc := exp(Sub(Add(flog2, tune), LOG2_SF));
      phase := Frac(Add(phase, phaseInc));
      r := Frac(Add(phase, m));
    }
  }
}

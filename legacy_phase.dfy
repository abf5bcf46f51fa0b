// The older i32 phase accumulator: a Q0.16 phase kept in its low 16 bits,
// advanced once per sample by `exp_q16` of the log2 frequency relative to the
// sample rate, and offset by a modulation input.
//
// `exp_q16` is not part of this model; `Update` takes it as a parameter `expQ16`.

module LegacyPhase {
  import opened Int32

  /** log2(48000) = 15.55075 as 16.16 fixed point. */
  const LOG2_SF: i32 := 0xF8CFE

  /** `(a + b) & 0x0_FFFF` on `i32`, the sum wrapping as i32 first. */
  function AddMask16(a: i32, b: i32): (r: i32)
    ensures 0 <= r <= 0xFFFF
    ensures r == (a + b) % 0x1_0000
  {
    Pow2Values();
    AndLowMask(Wrap(a + b), 0xFFFF, 16);
    WrapMod(a + b, 0x1_0000);
    And(Wrap(a + b), 0xFFFF)
  }

  /** The per-sample increment `exp_q16(freq_log2 - LOG2_SF)`. */
  function Increment(expQ16: i32 -> i32, freqLog2: i32): i32
  {
    expQ16(Wrap(freqLog2 - LOG2_SF))
  }

  /** A modulation of one whole period more (wrapping as i32) changes nothing. */
  lemma ModulationPeriodic(phase: i32, m: i32)
    ensures AddMask16(phase, Wrap(m + 0x1_0000)) == AddMask16(phase, m)
  {
    WrapMod(m + 0x1_0000, 0x1_0000);
    ModAdd(phase, Wrap(m + 0x1_0000), 0x1_0000);
    ModAdd(phase, m + 0x1_0000, 0x1_0000);
    assert phase + (m + 0x1_0000) == (phase + m) + 0x1_0000;
    ModAddMultiple(phase + m, 0x1_0000, 0x1_0000);
  }

  /** Without modulation the output is the stored phase itself. */
  lemma NoModulation(phase: i32)
    requires 0 <= phase <= 0xFFFF
    ensures AddMask16(phase, 0) == phase
  {
    DivModUnique(phase, 0x1_0000, 0, phase);
  }

  class PhaseGenerator {
    var phase: i32

    /** `PhaseGenerator::new()`. */
    constructor ()
      ensures phase == 0
    {
      phase := 0;
    }

    /** `update(&mut self, freq_log2, m)`: advance the stored phase by one increment, then return it
        offset by the modulation `m`. The stored phase never depends on `m`. */
    method Update(expQ16: i32 -> i32, freqLog2: i32, m: i32) returns (r: i32)
      modifies this
      ensures phase == AddMask16(old(phase), Increment(expQ16, freqLog2))
      ensures 0 <= phase <= 0xFFFF
      ensures r == AddMask16(phase, m) && 0 <= r <= 0xFFFF
    {
      var phaseInc := expQ16(Wrap(freqLog2 - LOG2_SF));
      phase := And(Wrap(phase + phaseInc), 0xFFFF);
      r := And(Wrap(phase + m), 0xFFFF);
    }
  }
}

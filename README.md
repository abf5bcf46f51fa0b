# beriq_fm in Dafny

A model of the core of beriq_fm, a fixed-point FM synthesiser written in Rust, with proofs of
what the code does. The layers, leaves first:

- `int32.dfy` (`Int32`): the `i32` arithmetic the Rust code relies on. Overflow wraps as in a
  release build (`Wrap`). `>>` is an arithmetic shift, which is floor division. `&` is
  modelled bit by bit on the two's-complement pattern, with lemmas that reduce masks to
  residues.
- `fp.dfy` (`FixedPoint`): the Q16.16 value type `FP` over a raw `i32`. It covers `raw`, `frac`,
  `fraq`, `int`, the `From` conversions, the operator impls and the compound assignments.
- `sin_table.dfy` (`SinTable`): the 1025-entry quarter-sine table and the interpolating lookup
  `sin_from_table`.
- `legacy_wave.dfy` (`LegacyWave`): the older `i32` waveform generator, whose eight shapes are
  built on `sin_from_table`.
- `wave.dfy` (`Wave`): the `FP` waveform generator of the synthesiser, whose eight shapes are
  built on `FP::sinw`.
- `phase.dfy` (`Phase`) and `legacy_phase.dfy` (`LegacyPhase`): the two phase accumulators.
- `envelope.dfy` (`Envelope`): the ADSR envelope state machine with its clock divider.
- `operators.dfy` (`Operators`): an FM operator, made of a phase generator, a waveform, output
  and feedback levels, and an envelope.
- `voices.dfy` (`Voices`): a voice of four operators routed by one of eight fixed algorithms.

Every stateful Rust struct that the code updates in place becomes a Dafny `class`:

- `PhaseGenerator` (both versions);
- `EnvGenerator`;
- `Operator`;
- `Voice`.

Each method's `ensures` ties the new state, as a datatype value, to a pure function of the old
state: `Envelope.Tick`, `Operators.After`, `Voices.RegsAfter`. The properties are then proved
about those functions. The voice holds its operators as values (`seq<Operators.OpState>`),
as the Rust `[Operator; 4]` does; the extra envelope field and the in-place update are under
"## Left out". Each sample steps them with `Operators.After` and
`Operators.Output`, the functions `Operators.Operator.GetSample` is proved to implement.

The following are not part of this model, so they are function-typed parameters:

- `FP::exp` (src/fp/exp.rs);
- `FP::sinw` (src/fp/sin.rs);
- `exp_q16` (src/math/exp.rs).

Nothing is claimed about their accuracy or monotonicity. The properties that mention them hold
for every function in their place.

Overflow policy: every `i32` addition, subtraction and multiplication wraps modulo 2^32. Debug
builds of Rust panic instead. The `as i32` truncation in `Mul<FP>` wraps in every build. Shift
amounts are taken modulo 32.

Some behaviour one might expect of an FM synthesiser is not in the code, and so not in the model:

- `get_sample` of the operator does not apply the envelope;
- `close()` only sets Release;
- there is no sustain-disabled path;
- the levels scale by `>> 8`, a divisor of 256.

## Model

| member | source | states |
|---|---|---|
| Int32.Wrap | src/fp/mod.rs:69-74 | i32 arithmetic wraps to the i32 range; a result already in range is unchanged |
| Int32.WrapCanonical | src/fp/mod.rs:69-74 | the wrapped value is the two's-complement reading of the residue modulo 2^32 |
| Int32.WrapSpec | src/fp/mod.rs:69-74 | a wrapped value differs from the exact one by a multiple of 2^32 |
| Int32.WrapCongruent | src/fp/mod.rs:69-74 | integers congruent modulo 2^32 wrap to the same i32 |
| Int32.WrapAdd | src/fp/mod.rs:69-74 | wrapping an intermediate sum does not change the wrapped total |
| Int32.WrapMod | src/fp/mod.rs:69-74 | wrapping keeps the residue modulo every divisor of 2^32 (so 2^16) |
| Int32.ShiftRightFloor | src/fp/mod.rs:104-109 | `x >> n` is floor division by 2^n, also for negative x |
| Int32.And | src/fp/mod.rs:111-116 | `x & m` with a non-negative mask lies between 0 and m |
| Int32.AndLowMask | src/fp/mod.rs:22-24 | `x & (2^k - 1)` is x mod 2^k, for negative x too |
| Int32.AndSingleBit | src/wave_generator.rs:84 | `x & 2^k` is 2^k when bit k of x is set and 0 otherwise |
| FixedPoint.Frac | src/fp/mod.rs:22-24 | the fraction's raw value lies in [0, 0xFFFF] |
| FixedPoint.Fraq | src/fp/mod.rs:26-28 | the u16 fraction is the raw value of `frac` |
| FixedPoint.Int | src/fp/mod.rs:30-32 | the integer part is the largest integer not above x: int*2^16 <= repr < (int+1)*2^16 |
| FixedPoint.FromU8 | src/fp/mod.rs:39-43 | the integer part is the u8 and the fraction is zero |
| FixedPoint.FromU16 | src/fp/mod.rs:44-48 | the integer part is the u16 below 0x8000, and the fraction is always zero |
| FixedPoint.FromI32 | src/fp/mod.rs:50-54 | the integer part is n for n in [-0x8000, 0x8000), and the fraction is always zero |
| FixedPoint.Neg | src/fp/mod.rs:62-67 | the negation is the additive inverse under wrap-around, exact except at i32::MIN |
| FixedPoint.Add | src/fp/mod.rs:69-74 | the raw sum, exact when it fits |
| FixedPoint.Sub | src/fp/mod.rs:76-81 | subtraction undoes addition even when it wraps, and is exact when it fits |
| FixedPoint.MulInt | src/fp/mod.rs:83-88 | the raw product with the integer, exact when it fits |
| FixedPoint.Shl | src/fp/mod.rs:97-102 | `<< n` on the raw value, losing the bits shifted out; ShlIsMultiplication relates it to `Mul<i32>` |
| FixedPoint.Mul | src/fp/mod.rs:89-95 | when it fits, the result times 2^16 brackets the exact raw product (floor) |
| FixedPoint.Shr | src/fp/mod.rs:104-109 | `>> n` on the raw value; ShrIsFloorDivision states it is floor division by 2^n |
| FixedPoint.BitAnd | src/fp/mod.rs:111-116 | masking with a non-negative mask gives a value between 0 and the mask |
| FixedPoint.AddAssign | src/fp/mod.rs:118-122 | `+=` yields the same value as `+` |
| FixedPoint.SubAssign | src/fp/mod.rs:124-128 | `-=` yields the same value as `-` |
| FixedPoint.MulAssign | src/fp/mod.rs:130-135 | `*=` yields the same value as `*` |
| FixedPoint.FromIntegers | src/fp/mod.rs:50-54 | `from(n).repr == n * 65536` for every n fitting 16 bits; from(1) and from(2) as the unit test asserts |
| FixedPoint.FracIsMask | src/fp/mod.rs:22-28 | `frac` and `fraq` are the bitwise mask with 0xFFFF |
| FixedPoint.Decomposition | src/fp/mod.rs:22-32 | repr == int() * 65536 + frac().repr |
| FixedPoint.FracIdempotent | src/fp/mod.rs:22-24 | frac(frac(x)) == frac(x) |
| FixedPoint.FracAdd | src/fp/mod.rs:22-24 | the fraction of a sum depends only on the fractions of the summands |
| FixedPoint.FracOfSum | src/fp/mod.rs:22-24 | the fraction of a wrapped sum is the exact sum modulo 2^16 |
| FixedPoint.FracPeriodic | src/fp/mod.rs:22-24 | frac(x + from(k)) == frac(x) for every i32 k |
| FixedPoint.MulOneIdentity | src/fp/mod.rs:89-95 | FP_ONE is a two-sided identity of the FP product |
| FixedPoint.MulExamples | src/fp/mod.rs:152 | from(1)*from(2) == from(2); raw(-1)*raw(1) == raw(-1), rounding towards minus infinity; raw(1)*raw(1) == 0 |
| FixedPoint.MulCommutative | src/fp/mod.rs:89-95 | the FP product is commutative |
| FixedPoint.ShrIsFloorDivision | src/fp/mod.rs:104-109 | `>> n` divides the raw value by 2^n, rounding down |
| FixedPoint.ShlIsMultiplication | src/fp/mod.rs:97-102 | `<< n` equals `Mul<i32>` by 2^n |
| FixedPoint.NegInvolutive | src/fp/mod.rs:62-67 | negating twice gives the value back, i32::MIN included |
| FixedPoint.AddCommutative | src/fp/mod.rs:69-74 | wrapping addition is commutative |
| FixedPoint.AddThree | src/fp/mod.rs:69-74 | two wrapping additions equal one wrap of the exact three-term sum |
| FixedPoint.AddAssociative | src/fp/mod.rs:69-74 | wrapping addition is associative |
| FixedPoint.OrderBySubtraction | src/fp/mod.rs:12-15 | without wrap-around, `a < b` iff `b - a > 0`, and `a == b` iff `b - a == 0` |
| FixedPoint.OrderWrapExample | src/fp/mod.rs:76-81 | once `b - a` wraps the sign of the difference no longer gives the order: i32::MIN < 1 but 1 - i32::MIN < 0 |
| SinTable.LayoutConstants | src/math/sin.rs:7-14 | the length and mask constants are 2^bits and 2^bits - 1 |
| SinTable.TableEnds | src/math/sin.rs:35-100 | the table has 1025 entries, starting 0, 100 and ending 65535, 65535 |
| SinTable.RowsChained | src/math/sin.rs:35-100 | the last entry of each row of 16 is at most the first entry of the next row |
| SinTable.TableAdjacent | src/math/sin.rs:35-100 | neighbouring table entries are in non-decreasing order |
| SinTable.TableMonotone | src/math/sin.rs:35-100 | the whole table is non-decreasing |
| SinTable.TableIndex | src/math/sin.rs:24 | the index is in [0, 1023] for every i32, so idx + 1 <= 1024 stays in bounds |
| SinTable.Fraction | src/math/sin.rs:25 | the interpolation fraction is in [0, 15] |
| SinTable.IndexIsMask | src/math/sin.rs:24-25 | index and fraction are the shift-and-mask expressions of the source |
| SinTable.Interpolate | src/math/sin.rs:32 | the interpolated value lies between the two table entries |
| SinTable.SinFromTable | src/math/sin.rs:23-33 | the result lies between SIN_TABLE[idx] and SIN_TABLE[idx + 1], within [0, 65535] |
| SinTable.InterpolateExact | src/math/sin.rs:32 | a zero fraction gives the lower entry exactly |
| SinTable.InterpolateMonotone | src/math/sin.rs:32 | a larger fraction never gives a smaller value |
| SinTable.SinLowBitsOnly | src/math/sin.rs:19-25 | only the low 14 bits matter: sin_from_table(w) == sin_from_table(w mod 0x4000), negative w included |
| SinTable.SinAtTablePoint | src/math/sin.rs:25-32 | when w & 15 == 0 the result is the table entry itself |
| SinTable.SinAtZero | src/math/sin.rs:23-36 | sin_from_table(0) == 0 |
| SinTable.SinAtQuarterEnd | src/math/sin.rs:23-100 | sin_from_table(0x3FFF) == 65535 |
| SinTable.SinMonotone | src/math/sin.rs:23-100 | sin_from_table is monotone on [0, 0x3FFF] |
| SinTable.SinMonotoneAll | src/math/sin.rs:23-100 | the same, as one quantified statement |
| LegacyWave.Constants | src/wave_generator.rs:20-27 | Q16_MINUSONE == -Q16_ONE and Q16_EIGHTH == Q16_QUART >> 1 |
| LegacyWave.SinTableIsRisingQuarter | src/math/sin.rs:23-100 | sin_from_table rises monotonically from 0 at 0 to 65535 at 0x3FFF |
| LegacyWave.Quadrant | src/wave_generator.rs:30 | the quadrant is in 0..3 |
| LegacyWave.QuadrantIsMask | src/wave_generator.rs:30-31 | quadrant and sub-phase are `(p >> 14) & 3` and `p & 0x3FFF` |
| LegacyWave.Fields | src/wave_generator.rs:30-31 | they are bits 14-15 and bits 0-13 of the low 16 bits of the phase |
| LegacyWave.FieldsOfLow16 | src/wave_generator.rs:30-31 | phases with the same low 16 bits have the same quadrant and sub-phase |
| LegacyWave.GenerateWith | src/wave_generator.rs:29-43 | for any quarter-sine lookup, every shape lies in [-65536, 65536] |
| LegacyWave.Generate | src/wave_generator.rs:29-43 | `generate` over sin_from_table lies in [-65536, 65536] |
| LegacyWave.FullSineAt | src/wave_generator.rs:47-55 | FullSine is non-negative in quadrants 0-1 and non-positive in 2-3 |
| LegacyWave.HalfSineAt | src/wave_generator.rs:57-63 | HalfSine is in [0, 65535] |
| LegacyWave.DblHalfSineAt | src/wave_generator.rs:65-71 | DblHalfSine is in [0, 65535] |
| LegacyWave.DblQuartSineAt | src/wave_generator.rs:73-79 | DblQuartSine is in [-65535, 65535] |
| LegacyWave.FastHalfWave | src/wave_generator.rs:84-88 | the doubled-speed half wave is in [0, 65535] |
| LegacyWave.FastSineAt | src/wave_generator.rs:81-99 | FastSine is in [-65535, 65535] |
| LegacyWave.FastHalfSineAt | src/wave_generator.rs:101-112 | FastHalfSine is in [0, 65535] |
| LegacyWave.SawishAt | src/wave_generator.rs:114-122 | Sawish is non-negative in quadrants 0-1 and non-positive in 2-3 |
| LegacyWave.SquareAt | src/wave_generator.rs:124-130 | Square is Q16_ONE exactly in quadrants 0-1 and Q16_MINUSONE exactly in 2-3 |
| LegacyWave.GenerateLow16 | src/wave_generator.rs:29-31 | generate(s, p) == generate(s, p & 0xFFFF) |
| LegacyWave.HalfPeriodShift | src/wave_generator.rs:30-31 | adding 0x8000 moves the quadrant on by two and keeps the sub-phase |
| LegacyWave.SquareLevels | src/wave_generator.rs:124-130 | `generate(Square, p)` is +1 for quadrants 0-1 and -1 for 2-3, whatever w |
| LegacyWave.FullSineAntisymmetric | src/wave_generator.rs:47-55 | quadrant 2 negates quadrant 0 and quadrant 3 negates quadrant 1 |
| LegacyWave.FullSineHalfCycle | src/wave_generator.rs:29-55 | FullSine at p + 0x8000 is the negation of FullSine at p |
| LegacyWave.FullSineQuarterShape | src/wave_generator.rs:47-55 | over a rising lookup FullSine rises 0 to 65535 in quadrant 0, falls back in quadrant 1, mirrored |
| LegacyWave.SilentQuadrants | src/wave_generator.rs:57-112 | HalfSine is 0 in q 2-3; DblQuartSine is 0 in q 1, 3 and negates q 0 in q 2; FastSine and FastHalfSine are 0 in q 2-3 |
| LegacyWave.DblHalfSineRepeats | src/wave_generator.rs:65-71 | DblHalfSine is non-negative and equal at p and p + 0x8000 |
| LegacyWave.FastShapes | src/wave_generator.rs:81-112 | FastSine q 1 negates q 0; FastHalfSine in q 0 and q 1 equals FastSine q 0 |
| LegacyWave.ShapeMasks | src/wave_generator.rs:84-119 | the masks in the fast and sawish shapes are bit tests and residues |
| LegacyWave.FastHalfWaveHalves | src/wave_generator.rs:84-88 | below 0x2000 the lookup is at 2w; from 0x2000 at 0x3FFF - 2(w - 0x2000) |
| LegacyWave.SawishHalfSpeed | src/wave_generator.rs:114-122 | the four Sawish quadrants read the lookup at the arguments w/2 and 0x1FFF + w/2 as written |
| Wave.Quadrant | src/synth/wave_generator.rs:38-39 | the quadrant is in 0..3 |
| Wave.FieldsAreMasks | src/synth/wave_generator.rs:38-40 | q and w are `(ph >> 14) & 3` and `ph & 0x3FFF`, and ph == 0x4000 q + w |
| Wave.New | src/synth/wave_generator.rs:31-35 | a new generator produces FullSine |
| Wave.WaveGenerator.Generate | src/synth/wave_generator.rs:37-52 | splits `phase.fraq()` into quadrant and sub-phase and dispatches on the waveform; GeneratePeriodic and GenerateFraqOnly state that only the fraction matters |
| Wave.FullSineAt | src/synth/wave_generator.rs:56-64 | the four FullSine quadrants as written; FullSineOpposite states their antisymmetry |
| Wave.HalfSineAt | src/synth/wave_generator.rs:66-72 | HalfSine as written; SilentQuadrants states it is zero in q 2-3 |
| Wave.DblHalfSineAt | src/synth/wave_generator.rs:74-80 | DblHalfSine as written; DblHalfSineRepeats states its half-period repetition |
| Wave.DblQuartSineAt | src/synth/wave_generator.rs:82-88 | DblQuartSine as written; SilentQuadrants states its zero quadrants and its negated q 2 |
| Wave.FastHalfWave | src/synth/wave_generator.rs:93-97 | the `w < FP_EIGHTH` split shared by FastSine and FastHalfSine; FastHalfWaveArguments states its arguments |
| Wave.FastSineAt | src/synth/wave_generator.rs:90-108 | FastSine as written; FastShapes and SilentQuadrants state q 1 = -q 0 and zero q 2-3 |
| Wave.FastHalfSineAt | src/synth/wave_generator.rs:110-121 | FastHalfSine as written; FastShapes states q 0 = q 1 = FastSine q 0 |
| Wave.SawishAt | src/synth/wave_generator.rs:123-132 | Sawish as written; SawishArguments states the four sinw arguments |
| Wave.SquareAt | src/synth/wave_generator.rs:134-140 | Square is FP_ONE exactly in q 0-1 and FP_MINUSONE exactly in q 2-3 |
| Wave.GeneratePeriodic | src/synth/wave_generator.rs:37-40 | phases differing by a whole number give equal samples, for every shape and every sinw |
| Wave.GenerateFraqOnly | src/synth/wave_generator.rs:37-40 | `generate` depends only on the phase's fraction |
| Wave.SquareLevels | src/synth/wave_generator.rs:134-140 | Square is FP_ONE for q 0-1 and FP_MINUSONE (repr -65536, the negation of FP_ONE) otherwise |
| Wave.FullSineOpposite | src/synth/wave_generator.rs:56-64 | FullSine at quadrant q + 2 (mod 4) is the negation of quadrant q, for any sinw |
| Wave.HalfPeriodShift | src/synth/wave_generator.rs:38-40 | adding half a period moves the quadrant on by two and keeps w |
| Wave.FullSineHalfCycle | src/synth/wave_generator.rs:37-64 | FullSine at phase + 0x8000 is the negation of FullSine at phase |
| Wave.SilentQuadrants | src/synth/wave_generator.rs:66-121 | HalfSine is zero in q 2-3; DblQuartSine is zero in q 1, 3 and negates q 0 in q 2; FastSine and FastHalfSine are zero in q 2-3 |
| Wave.DblHalfSineRepeats | src/synth/wave_generator.rs:74-80 | DblHalfSine is equal at phase and phase + 0x8000 |
| Wave.FastShapes | src/synth/wave_generator.rs:90-121 | FastSine q 1 negates q 0; FastHalfSine in q 0 and q 1 equals FastSine q 0 |
| Wave.FastHalfWaveArguments | src/synth/wave_generator.rs:93-97 | sinw is read at 2w below FP_EIGHTH and at 2(QUART - w) from it, both within [0, 0x4000] |
| Wave.SawishArguments | src/synth/wave_generator.rs:123-132 | the four Sawish quadrants read sinw at w>>1, (w>>1) + EIGHTH, QUART - (w>>1) and EIGHTH - (w>>1) |
| Phase.AddFrac | src/synth/phase_generator.rs:29-32 | `(a + b).frac()` is the sum modulo 2^16, in [0, 0xFFFF] |
| Phase.Increment | src/synth/phase_generator.rs:28 | the increment `exp(flog2 + tune - LOG2_SF)`, with LOG2_SF = 0xF_8CFE as in src/synth/mod.rs:5; PhaseGenerator.Update states its use |
| Phase.NoModulation | src/synth/phase_generator.rs:32 | with m == FP_ZERO the returned value is the stored phase |
| Phase.ModulationPeriodic | src/synth/phase_generator.rs:32 | adding FP_ONE to m does not change the returned value |
| Phase.PhaseGenerator.constructor | src/synth/phase_generator.rs:12-18 | phase, flog2 and tune start at zero |
| Phase.PhaseGenerator.Update | src/synth/phase_generator.rs:20-33 | new phase is frac(old + exp(flog2 + tune - LOG2_SF)), independent of m, in [0, 0xFFFF]; flog2 and tune unchanged; returns frac(phase + m) |
| LegacyPhase.AddMask16 | src/phase_generator.rs:26 | `(a + b) & 0xFFFF` on i32 is the sum modulo 2^16, in [0, 0xFFFF] |
| LegacyPhase.Increment | src/phase_generator.rs:25 | the increment `exp_q16(freq_log2 - LOG2_SF)`, wrapping as i32; PhaseGenerator.Update states its use |
| LegacyPhase.ModulationPeriodic | src/phase_generator.rs:31 | a modulation one period larger returns the same value |
| LegacyPhase.NoModulation | src/phase_generator.rs:31 | with m == 0 the returned value is the stored phase |
| LegacyPhase.PhaseGenerator.constructor | src/phase_generator.rs:11-15 | the phase starts at 0 |
| LegacyPhase.PhaseGenerator.Update | src/phase_generator.rs:17-32 | new phase is (old + exp_q16(freq_log2 - 0xF8CFE)) & 0xFFFF, independent of m; returns (phase + m) & 0xFFFF |
| Envelope.FloorValue | src/synth/env_generator.rs:74 | the floor FP::from(-3) is raw -196608, integer part -3 |
| Envelope.NewEnv | src/synth/env_generator.rs:32-44 | the state `new()` builds; EnvGenerator.constructor states it field by field |
| Envelope.OpenEnv | src/synth/env_generator.rs:46-49 | `open()` as a function of the state; EnvGenerator.Open is proved against it and AttackEnds starts from it |
| Envelope.CloseEnv | src/synth/env_generator.rs:51-53 | `close()` as a function of the state; EnvGenerator.Close is proved against it and ReleaseEnds starts from it |
| Envelope.AttackNext | src/synth/env_generator.rs:69-79 | one attack step; AttackOutcome states what it does |
| Envelope.DecayNext | src/synth/env_generator.rs:81-90 | one decay step; DecayOutcome states what it does |
| Envelope.ReleaseNext | src/synth/env_generator.rs:92-102 | one release step; ReleaseOutcome states what it does |
| Envelope.Run | src/synth/env_generator.rs:55-67 | n consecutive `get_sample()` calls; RunRankMonotone and the *Ends lemmas are stated over it |
| Envelope.Tick | src/synth/env_generator.rs:55-67 | a call never changes the four settings and never moves the state back towards Attack |
| Envelope.ClockStaysOne | src/synth/env_generator.rs:55-58 | with CLOCK_DIVIDER 1 the clock is 1 before and after every call |
| Envelope.EveryCallSteps | src/synth/env_generator.rs:55-65 | with the clock at 1 every call takes one step of the current state |
| Envelope.QuiescentStates | src/synth/env_generator.rs:59-64 | in Idle and Sustain a call changes nothing |
| Envelope.AttackOutcome | src/synth/env_generator.rs:69-79 | the index drops by attack_rate; Decay with level FP_ONE and reset index iff the level reaches FP_ONE or the index -3.0; otherwise level below FP_ONE |
| Envelope.DecayOutcome | src/synth/env_generator.rs:81-90 | the index drops by decay_rate; Sustain iff the level is at most sustain_level or the index at most -3.0, keeping the new level and index |
| Envelope.ReleaseOutcome | src/synth/env_generator.rs:92-102 | the index drops by release_rate; Idle with level exactly FP_ZERO and reset index iff the level reaches 0 or the index -3.0; otherwise level positive |
| Envelope.CountdownStep | src/synth/env_generator.rs:69-102 | while a counting state persists its index drops by its rate and stays above the floor; a change of state moves forward |
| Envelope.RunRankMonotone | src/synth/env_generator.rs:55-102 | no sequence of calls moves the state backwards |
| Envelope.CountdownEnds | src/synth/env_generator.rs:69-102 | a counting state with a positive rate is left within n calls once n steps cover the distance to the floor |
| Envelope.AttackEnds | src/synth/env_generator.rs:71-78 | after open(), Attack ends within ceil((12625 + 196608) / attack_rate) calls |
| Envelope.DecayEnds | src/synth/env_generator.rs:81-90 | Decay from the reset index ends within ceil((12625 + 196608) / decay_rate) calls |
| Envelope.ReleaseEnds | src/synth/env_generator.rs:92-102 | after close(), Idle is reached within ceil((index + 196608) / release_rate) calls |
| Envelope.EnvGenerator.constructor | src/synth/env_generator.rs:32-44 | Idle, level 0, index 12625, sustain_level FP_ONE, zero rates |
| Envelope.EnvGenerator.Open | src/synth/env_generator.rs:46-49 | Attack with the index reset; level, clock and settings unchanged |
| Envelope.EnvGenerator.Close | src/synth/env_generator.rs:51-53 | Release from any state; nothing else changes |
| Envelope.EnvGenerator.GetSample | src/synth/env_generator.rs:55-67 | the new state is Tick of the old one, and the result is the level after the step |
| Envelope.EnvGenerator.StepAttack | src/synth/env_generator.rs:69-79 | the attack step exactly as AttackNext |
| Envelope.EnvGenerator.StepDecay | src/synth/env_generator.rs:81-90 | the decay step exactly as DecayNext |
| Envelope.EnvGenerator.StepRelease | src/synth/env_generator.rs:92-102 | the release step exactly as ReleaseNext |
| Operators.ScaleExact | src/synth/operator.rs:40-41 | `x * FP::from(level) >> 8` is the wrapped raw product with level, divided by 256 rounding down |
| Operators.Scale | src/synth/operator.rs:40-41 | `x * FP::from(level) >> 8`; ScaleExact, ScaleFloor and ScaleBounded state its value |
| Operators.ScaleFloor | src/synth/operator.rs:41 | when it fits, the scaled value is floor(x * level / 256), a divisor of 256 |
| Operators.ScaleZero | src/synth/operator.rs:41 | level 0 gives exactly FP_ZERO |
| Operators.ScaleFullLevel | src/synth/operator.rs:41 | level 255 scales FP_ONE to 0xFF00, not to FP_ONE |
| Operators.ScaleBounded | src/synth/operator.rs:41 | scaling never increases the magnitude or flips the sign |
| Operators.PhaseAfter | src/synth/operator.rs:38 | the stored phase after `phase_gen.update`, which never depends on the modulation |
| Operators.WaveOf | src/synth/operator.rs:38-39 | the unscaled wave at the phase fed `mod_input + feedback`; OutputAndFeedback states how both shares derive from it |
| Operators.Output | src/synth/operator.rs:39-41 | the returned share of the wave; SilentAtLevelZero and OutputAndFeedback state its value |
| Operators.After | src/synth/operator.rs:37-44 | get_sample changes only phase and feedback; mod_input, levels, waveform and tune are kept; phase in [0, 0xFFFF] |
| Operators.SilentAtLevelZero | src/synth/operator.rs:41 | total_level 0 gives an output of exactly FP_ZERO |
| Operators.NoFeedbackAtLevelZero | src/synth/operator.rs:40 | feedback_level 0 leaves zero feedback for the next sample |
| Operators.OutputAndFeedback | src/synth/operator.rs:39-41 | output and feedback are floor(wave * level / 256) of the same unscaled wave, never larger in magnitude nor of opposite sign |
| Operators.Operator.constructor | src/synth/operator.rs:24-35 | total_level 255, feedback_level 0, zero mod_input and feedback, new phase, wave and envelope generators |
| Operators.Operator.GetSample | src/synth/operator.rs:37-44 | the phase is fed mod_input + feedback of the previous call; new state is After and the result is Output |
| Voices.Algorithm0 | src/synth/voice.rs:126-131 | serial chain: op 0 gets 0, op i gets op i-1's sample, the result is op 3's sample |
| Voices.Algorithm1 | src/synth/voice.rs:136-141 | op 2 is modulated by op 0 + op 1, op 3 by op 2; the result is op 3 |
| Voices.Algorithm2 | src/synth/voice.rs:146-151 | op 1 modulates op 2; op 3 is modulated by op 0 + op 2; the result is op 3 |
| Voices.Algorithm3 | src/synth/voice.rs:156-161 | the chain 1-2-3 mixed with unmodulated op 0 |
| Voices.Algorithm4 | src/synth/voice.rs:166-171 | two chains 0-1 and 2-3, mixed |
| Voices.Algorithm5 | src/synth/voice.rs:178-183 | op 0 modulates each of ops 1, 2, 3, which are mixed |
| Voices.Algorithm6 | src/synth/voice.rs:190-195 | op 1 modulates op 2; ops 0, 2 and 3 are mixed |
| Voices.Algorithm7 | src/synth/voice.rs:204-209 | all modulations are 0 and the result is the sum of the four samples |
| Voices.AlgorithmCount | src/synth/voice.rs:121-123 | the table holds eight programs of four routes each |
| Voices.Read | src/synth/voice.rs:41-46 | the modulation taken from a register, Null giving FP_ZERO |
| Voices.Write | src/synth/voice.rs:48-52 | Output overwrites, Adder accumulates by addition, Null leaves both registers |
| Voices.RegsAfter | src/synth/voice.rs:37-53 | the registers after the first k operators, from zero; LoopMeaning and Algorithm0-7 are stated over it |
| Voices.ModInput | src/synth/voice.rs:41-46 | the modulation operator k reads; Algorithm0-7 give it in closed form |
| Voices.Result | src/synth/voice.rs:56-61 | the register named by the last route, Null giving zero; Algorithm0-7 give it in closed form |
| Voices.SamplerOf | src/synth/voice.rs:41-47 | operator i's sample when given modulation m, as the voice loop produces it |
| Voices.Loop | src/synth/voice.rs:40-53 | the operator loop keeps four operators |
| Voices.LoopMeaning | src/synth/voice.rs:37-53 | after k operators the registers hold RegsAfter(k); operators below k were stepped once with modulation ModInput, the rest untouched |
| Voices.Voice.constructor | src/synth/voice.rs:18-30 | four new operators, algorithm 0, cleared registers |
| Voices.Voice.GetSample | src/synth/voice.rs:36-62 | registers start at zero; op i gets ModInput(i) and is stepped once; the result is the register the last route names (Null gives 0) |
| Voices.Voice.SetFreq | src/synth/voice.rs:64-68 | every operator's flog2 is set, nothing else changes |
| Voices.Voice.NoteOn | src/synth/voice.rs:70-75 | every operator's flog2 is set and its envelope opened, nothing else changes |
| Voices.Voice.NoteOff | src/synth/voice.rs:77-81 | every operator's envelope is closed, nothing else changes |

## Left out

- src/main.rs: the audio output stream, the thread sleep and the hard-coded patch setup. This is
  I/O.
- The rodio plumbing in src/synth/operator.rs:47-71 and src/synth/voice.rs:84-108: the
  `Iterator` and `Source` impls.
- `to_f32`, `From<f32>` and the f32 conversion of the voice's result (src/synth/voice.rs:58-60).
  `Voices.Voice.GetSample` returns the FP register value instead.
- The floating-point assertions of the FP unit test (src/fp/mod.rs:145-154, except line 152).
  They depend on f32 rounding.
- `FP::exp`, `FP::sinw` and `exp_q16` are not part of this model. They are parameters, and
  nothing is assumed about them.
- The LegacyWave shape functions take the quarter-sine lookup as a parameter. `LegacyWave.Generate`
  passes `sin_from_table`, and `LegacyWave.SinTableIsRisingQuarter` proves that it meets the
  shapes' one assumption. This keeps each proof small. It changes no behaviour.
- `SIN_TABLE` is stored as 64 rows of 16 entries plus the final entry. The values are those of
  the source's flat array, and `SinTable.TableIsEntry` links the two views.
- `state_to_str` and the printing test of src/synth/env_generator.rs:104-138 are diagnostic
  string formatting.
- src/operator.rs is a stub with no behaviour.
- `Voice::op` (src/synth/voice.rs:32-34) is left out. It only hands out a mutable reference, and
  the model's callers update `operators` directly.
- The `Operator` struct of src/synth/operator.rs:12-21 has no `env_gen` field, yet
  src/synth/voice.rs:73 and :79 use one. The model gives the operator an envelope, which
  `get_sample` does not read.
- `Voices.Voice` holds its operators as values. Each sample steps them with
  `Operators.After` / `Operators.Output`, the functions `Operators.Operator.GetSample` is proved
  against. The in-place update through `&mut self.operators` and any aliasing of operator
  objects are therefore not modelled. The Rust array holds its operators by value as well.
- Voices.Voice.GetSample: requires `algorithm < 8`. The source indexes `ALGORITHMS[self.algorithm]`
  (src/synth/voice.rs:39), which panics in every build for an algorithm of 8 or more; the
  model excludes that input instead of modelling the panic. `Voice::new()` sets 0 and
  src/main.rs:30 sets 1, so every visible caller meets the requirement.
- Debug-build overflow panics are not modelled, including `self.clock -= 1` on a u8 clock at 0.
  Every overflow wraps.
- Envelope.CountdownEnds: stated only while the first step does not wrap (index - rate fits
  i32) and the index starts at or below INDEX_OFFSET, because a wrapping index could jump over
  the floor.
- Envelope.ReleaseEnds: requires an index at or below INDEX_OFFSET whose first step does not
  wrap. This holds after a completed attack or decay, but a release from any index is not
  covered.
- Operators.OutputAndFeedback: requires the wave times 255 to fit in i32. Without it the
  product in `Mul<FP>` wraps and the floor formula fails; sinw is not part of this model and
  is not bounded.
- Operators.ScaleBounded: requires the product to fit in i32, for the same reason.

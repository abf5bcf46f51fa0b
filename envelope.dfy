// The ADSR envelope state machine: an index counts down from INDEX_OFFSET towards a floor of
// -3.0 at a per-state rate, and the level follows `FP::exp` of the index (rising as
// 8/7 - exp(index) in Attack, falling as exp(index) - 1/7 in Decay and Release). A clock
// divider decides on which calls a step is taken.
//
// `FP::exp` is not part of this model; the step functions take it as a parameter `exp`.

module Envelope {
  import opened Int32
  import opened FixedPoint

  /** Steps are taken on every CLOCK_DIVIDER-th call. */
  const CLOCK_DIVIDER: u8 := 1
  /** log2(8/7) plus a small margin. */
  const INDEX_OFFSET: FP := FP(12625)
  /** 8/7 */
  const OFFSET_UP: FP := FP(74898)
  /** 1/7 */
  const OFFSET_DN: FP := FP(9362)

  datatype EnvState = Idle | Attack | Decay | Sustain | Release

  /** The whole generator as a value: the four public settings and the private running state. */
  datatype Env = Env(
    attackRate: FP, decayRate: FP, sustainLevel: FP, releaseRate: FP,
    clock: u8, index: FP, level: FP, state: EnvState)

  /** The floor of the index, -3.0. */
  const INDEX_FLOOR: FP := FP(-196608)

  /** The floor is `FP::from(-3)`. */
  lemma FloorValue()
    ensures FromI32(-3) == INDEX_FLOOR && Int(INDEX_FLOOR) == -3
  {
    FromIntegers(-3);
  }

  /** `EnvGenerator::new()`. */
  function NewEnv(): Env
  {
    Env(FP_ZERO, FP_ZERO, FP_ONE, FP_ZERO, CLOCK_DIVIDER, INDEX_OFFSET, FP_ZERO, Idle)
  }

  /** `open()`: (re)start the attack from the top of the index range. */
  function OpenEnv(e: Env): Env
  {
    e.(state := Attack, index := INDEX_OFFSET)
  }

  /** `close()`: release from whatever state the envelope is in. */
  function CloseEnv(e: Env): Env
  {
    e.(state := Release)
  }

  /** One attack step: count down by the attack rate; at full level or at the floor go to Decay. */
  function AttackNext(exp: FP -> FP, e: Env): Env
  {
    var index := Sub(e.index, e.attackRate);
    var level := Sub(OFFSET_UP, exp(index));
    if Ge(level, FP_ONE) || Le(index, INDEX_FLOOR) then
      e.(index := INDEX_OFFSET, level := FP_ONE, state := Decay)
    else
      e.(index := index, level := level)
  }

  /** One decay step: count down by the decay rate; at the sustain level or the floor go to
      Sustain, keeping the level and index just computed. */
  function DecayNext(exp: FP -> FP, e: Env): Env
  {
    var index := Sub(e.index, e.decayRate);
    var level := Sub(exp(index), OFFSET_DN);
    if Le(level, e.sustainLevel) || Le(index, INDEX_FLOOR) then
      e.(index := index, level := level, state := Sustain)
    else
      e.(index := index, level := level)
  }

  /** One release step: count down by the release rate; at silence or the floor go to Idle. */
  function ReleaseNext(exp: FP -> FP, e: Env): Env
  {
    var index := Sub(e.index, e.releaseRate);
    var level := Sub(exp(index), OFFSET_DN);
    if Le(level, FP_ZERO) || Le(index, INDEX_FLOOR) then
      e.(index := INDEX_OFFSET, level := FP_ZERO, state := Idle)
    else
      e.(index := index, level := level)
  }

  /** The order in which a note passes through the states. */
  function Rank(s: EnvState): nat
  {
    match s
    case Attack => 0
    case Decay => 1
    case Sustain => 2
    case Release => 3
    case Idle => 4
  }

  /** The rate at which the index counts down in a state (zero where it does not move). */
  function RateOf(e: Env): FP
  {
    match e.state
    case Attack => e.attackRate
    case Decay => e.decayRate
    case Release => e.releaseRate
    case _ => FP_ZERO
  }

  /** The effect of one `get_sample()` call: the u8 clock counts down (wrapping), and when it
      reaches zero it is reloaded and the current state takes one step. The settings never
      change and the state never moves back towards Attack. */
  function Tick(exp: FP -> FP, e: Env): (r: Env)
    ensures r.attackRate == e.attackRate && r.decayRate == e.decayRate
    ensures r.sustainLevel == e.sustainLevel && r.releaseRate == e.releaseRate
    ensures Rank(r.state) >= Rank(e.state)
  {
    var clock: u8 := if e.clock == 0 then 255 else e.clock - 1;
    if clock == 0 then
      var e1 := e.(clock := CLOCK_DIVIDER);
      match e1.state
      case Attack => AttackNext(exp, e1)
      case Decay => DecayNext(exp, e1)
      case Release => ReleaseNext(exp, e1)
      case _ => e1
    else
      e.(clock := clock)
  }

  /** n consecutive `get_sample()` calls. */
  function Run(exp: FP -> FP, e: Env, n: nat): Env
    decreases n
  {
    if n == 0 then e else Run(exp, Tick(exp, e), n - 1)
  }

  // ------------------------------------------------------------ properties of one call

  /** With a divider of 1 the clock is 1 before and after every call. */
  lemma ClockStaysOne(exp: FP -> FP, e: Env)
    requires e.clock == CLOCK_DIVIDER
    ensures Tick(exp, e).clock == CLOCK_DIVIDER
  {
  }

  /** With a divider of 1 a clock of 1 lets every call take a step. */
  lemma EveryCallSteps(exp: FP -> FP, e: Env)
    requires e.clock == 1
    ensures e.state == Attack ==> Tick(exp, e) == AttackNext(exp, e)
    ensures e.state == Decay ==> Tick(exp, e) == DecayNext(exp, e)
    ensures e.state == Release ==> Tick(exp, e) == ReleaseNext(exp, e)
  {
  }

  /** Idle and Sustain are left only by `open()` or `close()`. */
  lemma QuiescentStates(exp: FP -> FP, e: Env)
    requires e.clock == 1
    requires e.state == Idle || e.state == Sustain
    ensures Tick(exp, e) == e
  {
  }

  /** An attack step lowers the index by exactly the attack rate. It ends the attack, at level
      FP_ONE with the index reset, precisely when the new level reaches FP_ONE or the new index
      reaches the floor; otherwise the level stays below FP_ONE. */
  lemma AttackOutcome(exp: FP -> FP, e: Env)
    requires e.clock == 1 && e.state == Attack
    ensures var r := Tick(exp, e);
      var index := Sub(e.index, e.attackRate);
      var level := Sub(OFFSET_UP, exp(index));
      (r.state == Attack || r.state == Decay) &&
      (r.state == Decay <==> (level.repr >= 0x1_0000 || index.repr <= -196608)) &&
      (r.state == Decay ==> r.level == FP_ONE && r.index == INDEX_OFFSET) &&
      (r.state == Attack ==> r.index == index && r.level == level) &&
      r.level.repr <= 0x1_0000
  {
    FloorValue();
  }

  /** A decay step lowers the index by exactly the decay rate and sets the level from it; it
      enters Sustain, keeping both, precisely when the level is at or below the sustain level or
      the index has reached the floor. */
  lemma DecayOutcome(exp: FP -> FP, e: Env)
    requires e.clock == 1 && e.state == Decay
    ensures var r := Tick(exp, e);
      var index := Sub(e.index, e.decayRate);
      (r.state == Decay || r.state == Sustain) &&
      r.index == index && r.level == Sub(exp(index), OFFSET_DN) &&
      (r.state == Sustain <==> (r.level.repr <= e.sustainLevel.repr || index.repr <= -196608))
  {
    FloorValue();
  }

  /** A release step lowers the index by exactly the release rate. It ends in Idle, at level
      FP_ZERO exactly with the index reset, precisely when the level reaches zero or the index
      reaches the floor; otherwise the level stays positive. */
  lemma ReleaseOutcome(exp: FP -> FP, e: Env)
    requires e.clock == 1 && e.state == Release
    ensures var r := Tick(exp, e);
      var index := Sub(e.index, e.releaseRate);
      var level := Sub(exp(index), OFFSET_DN);
      (r.state == Release || r.state == Idle) &&
      (r.state == Idle <==> (level.repr <= 0 || index.repr <= -196608)) &&
      (r.state == Idle ==> r.level == FP_ZERO && r.index == INDEX_OFFSET) &&
      (r.state == Release ==> r.index == index && r.level == level) &&
      r.level.repr >= 0
  {
    FloorValue();
  }

  // ------------------------------------------------------------ progress

  /** While a counting state persists, its index moves down by its rate and stays above the
      floor; when the state changes it moves on in the order of Rank. */
  lemma CountdownStep(exp: FP -> FP, e: Env)
    requires e.clock == 1
    requires e.state == Attack || e.state == Decay || e.state == Release
    ensures var r := Tick(exp, e);
      (r.state == e.state ==>
        r.index == Sub(e.index, RateOf(e)) && r.index.repr > -196608 && RateOf(r) == RateOf(e)) &&
      (r.state != e.state ==> Rank(r.state) > Rank(e.state))
  {
    FloorValue();
  }

  /** No sequence of calls moves the state back. */
  lemma {:induction false} RunRankMonotone(exp: FP -> FP, e: Env, n: nat)
    ensures Rank(Run(exp, e, n).state) >= Rank(e.state)
    decreases n
  {
    if n > 0 {
      RunRankMonotone(exp, Tick(exp, e), n - 1);
    }
  }

  /** A counting state with a positive rate is left within n calls once n steps of that rate
      cover the distance from the index to the floor, whatever `exp` returns. */
  lemma {:induction false} CountdownEnds(exp: FP -> FP, e: Env, n: nat)
    requires e.clock == 1
    requires e.state == Attack || e.state == Decay || e.state == Release
    requires RateOf(e).repr > 0
    requires e.index.repr <= 12625 && e.index.repr - RateOf(e).repr >= -0x8000_0000
    requires n >= 1 && n * RateOf(e).repr >= e.index.repr + 196608
    ensures Rank(Run(exp, e, n).state) > Rank(e.state)
    decreases n
  {
    var e1 := Tick(exp, e);
    CountdownStep(exp, e);
    ClockStaysOne(exp, e);
    if e1.state == e.state {
      CountdownArithmetic(e.index.repr, RateOf(e).repr, n);
      CountdownEnds(exp, e1, n - 1);
    } else {
      RunRankMonotone(exp, e1, n - 1);
    }
  }

  /** The arithmetic of one countdown step that does not reach the floor: the next index is
      still in range for another step, and one step fewer still covers the distance. */
  lemma CountdownArithmetic(i: int, r: int, n: int)
    requires 0 < r && i <= 12625 && i - r >= -0x8000_0000 && i - r > -196608
    requires n >= 1 && n * r >= i + 196608
    ensures i - r <= 12625 && (i - r) - r >= -0x8000_0000
    ensures n - 1 >= 1 && (n - 1) * r >= (i - r) + 196608
  {
    assert (n - 1) * r == n * r - r;
    if n - 1 <= 0 { MulSign(r, n - 1); }
  }

  /** The number of steps of the given rate that cover the distance from an index to the floor. */
  function StepsToFloor(index: int, rate: int): (n: nat)
    requires rate > 0
    ensures n >= 1 && n * rate >= index + 196608
  {
    if index + 196608 <= rate then
      1
    else
      var q := (index + 196608 + rate - 1) / rate;
      DivBounds(index + 196608 + rate - 1, rate);
      MulAtLeast(rate, q);
      q
  }

  /** After `open()` with a positive attack rate, Attack is over within
      ceil((12625 + 196608) / attack_rate) calls. */
  lemma AttackEnds(exp: FP -> FP, e: Env)
    requires e.clock == 1 && e.attackRate.repr > 0
    ensures Rank(Run(exp, OpenEnv(e), StepsToFloor(12625, e.attackRate.repr)).state) > Rank(Attack)
  {
    CountdownEnds(exp, OpenEnv(e), StepsToFloor(12625, e.attackRate.repr));
  }

  /** A decay with a positive rate, started from the reset index, is over within
      ceil((12625 + 196608) / decay_rate) calls. */
  lemma DecayEnds(exp: FP -> FP, e: Env)
    requires e.clock == 1 && e.state == Decay && e.index == INDEX_OFFSET
    requires e.decayRate.repr > 0
    ensures Rank(Run(exp, e, StepsToFloor(12625, e.decayRate.repr)).state) > Rank(Decay)
  {
    CountdownEnds(exp, e, StepsToFloor(12625, e.decayRate.repr));
  }

  /** After `close()` with a positive release rate, an index at or below INDEX_OFFSET reaches
      Idle within ceil((index + 196608) / release_rate) calls (for an index at INDEX_OFFSET the
      bound is ceil((12625 + 196608) / release_rate)). */
  lemma ReleaseEnds(exp: FP -> FP, e: Env)
    requires e.clock == 1 && e.releaseRate.repr > 0
    requires e.index.repr <= 12625 && e.index.repr - e.releaseRate.repr >= -0x8000_0000
    ensures Run(exp, CloseEnv(e), StepsToFloor(e.index.repr, e.releaseRate.repr)).state == Idle
  {
    var n := StepsToFloor(e.index.repr, e.releaseRate.repr);
    CountdownEnds(exp, CloseEnv(e), n);
  }

  // ------------------------------------------------------------ the generator object

  class EnvGenerator {
    var attackRate: FP
    var decayRate: FP
    var sustainLevel: FP
    var releaseRate: FP
    var clock: u8
    var index: FP
    var level: FP
    var state: EnvState

    function Snapshot(): Env
      reads this
    {
      Env(attackRate, decayRate, sustainLevel, releaseRate, clock, index, level, state)
    }

    /** `EnvGenerator::new()`: Idle and silent, full sustain level, zero rates. */
    constructor ()
      ensures Snapshot() == NewEnv()
      ensures state == Idle && level == FP_ZERO && index.repr == 12625
      ensures sustainLevel == FP_ONE && attackRate == decayRate == releaseRate == FP_ZERO
    {
      attackRate := FP_ZERO;
      decayRate := FP_ZERO;
      sustainLevel := FP_ONE;
      releaseRate := FP_ZERO;
      clock := CLOCK_DIVIDER;
      index := INDEX_OFFSET;
      level := FP_ZERO;
      state := Idle;
    }

    /** `open()`: Attack from the reset index; level, clock and settings are kept. */
    method Open()
      modifies this
      ensures Snapshot() == OpenEnv(old(Snapshot()))
    {
      state := Attack;
      index := INDEX_OFFSET;
    }

    /** `close()`: Release from any state; nothing else changes. */
    method Close()
      modifies this
      ensures Snapshot() == CloseEnv(old(Snapshot()))
    {
      state := Release;
    }

    /** `get_sample()`: one call of the clock divider and state machine; the result is the level
        after the step. */
    method GetSample(exp: FP -> FP) returns (r: FP)
      modifies this
      ensures Snapshot() == Tick(exp, old(Snapshot()))
      ensures r == level
    {
      clock := if clock == 0 then 255 else clock - 1;
      if clock == 0 {
        clock := CLOCK_DIVIDER;
        match state
        case Attack => StepAttack(exp);
        case Decay => StepDecay(exp);
        case Release => StepRelease(exp);
        case _ =>
      }
      r := level;
    }

    /** `attack()` */
    method StepAttack(exp: FP -> FP)
      modifies this
      ensures Snapshot() == AttackNext(exp, old(Snapshot()))
    {
      index := Sub(index, attackRate);
      level := Sub(OFFSET_UP, exp(index));
      if Ge(level, FP_ONE) || Le(index, INDEX_FLOOR) {
        level := FP_ONE;
        state := Decay;
        index := INDEX_OFFSET;
      }
    }

    /** `decay()` */
    method StepDecay(exp: FP -> FP)
      modifies this
      ensures Snapshot() == DecayNext(exp, old(Snapshot()))
    {
      index := Sub(index, decayRate);
      level := Sub(exp(index), OFFSET_DN);
      if Le(level, sustainLevel) || Le(index, INDEX_FLOOR) {
        state := Sustain;
      }
    }

    /** `release()` */
    method StepRelease(exp: FP -> FP)
      modifies this
      ensures Snapshot() == ReleaseNext(exp, old(Snapshot()))
    {
      index := Sub(index, releaseRate);
      level := Sub(exp(index), OFFSET_DN);
      if Le(level, FP_ZERO) || Le(index, INDEX_FLOOR) {
        level := FP_ZERO;
        state := Idle;
        index := INDEX_OFFSET;
      }
    }
  }
}

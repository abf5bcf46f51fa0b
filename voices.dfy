// A voice of four operators. Each sample the two scratch registers `output` and `adder` are
// cleared and the operators run in index order; the routing program of the selected algorithm
// says for each operator which register (or none) is its modulation input and which register
// (or none) receives its sample: `output` is overwritten, `adder` accumulates. The voice's
// sample is the register receiving the last operator's sample.
//
// `FP::exp` and `FP::sinw` are not part of this model; they are the parameters `exp` and `sinw`.

module Voices {
  import opened Int32
  import opened FixedPoint
  import Operators
  import Envelope

  datatype Register = Null | Output | Adder

  datatype Route = Route(modSource: Register, outSink: Register)

  /** One routing program: a route per operator. */
  type Algorithm = a: seq<Route> | |a| == 4
    witness [Route(Null, Null), Route(Null, Null), Route(Null, Null), Route(Null, Null)]

  /** The eight routing programs. */
  const ALGORITHMS: seq<Algorithm> := [
    // 1 - 2 - 3 - 4 ->
    [Route(Null, Output), Route(Output, Output), Route(Output, Output), Route(Output, Output)],
    // (1 + 2) - 3 - 4 ->
    [Route(Null, Adder), Route(Null, Adder), Route(Adder, Output), Route(Output, Output)],
    // (1 + (2 - 3)) - 4 ->
    [Route(Null, Adder), Route(Null, Output), Route(Output, Adder), Route(Adder, Output)],
    // 1 + (2 - 3 - 4) ->
    [Route(Null, Adder), Route(Null, Output), Route(Output, Output), Route(Output, Adder)],
    // (1 - 2) + (3 - 4) ->
    [Route(Null, Output), Route(Output, Adder), Route(Null, Output), Route(Output, Adder)],
    // 1 - (2 + 3 + 4) ->
    [Route(Null, Output), Route(Output, Adder), Route(Output, Adder), Route(Output, Adder)],
    // 1 + (2 - 3) + 4 ->
    [Route(Null, Adder), Route(Null, Output), Route(Output, Adder), Route(Null, Adder)],
    // 1 + 2 + 3 + 4 ->
    [Route(Null, Adder), Route(Null, Adder), Route(Null, Adder), Route(Null, Adder)]
  ]

  /** There are eight routing programs, one per algorithm number that `get_sample` accepts. */
  lemma AlgorithmCount()
    ensures |ALGORITHMS| == 8
    ensures forall a :: 0 <= a < |ALGORITHMS| ==> |ALGORITHMS[a]| == 4
  {
  }

  /** The two scratch registers. */
  datatype Regs = Regs(output: FP, adder: FP)

  /** The modulation read from a register; Null reads zero. */
  function Read(src: Register, regs: Regs): FP
  {
    match src
    case Null => FP_ZERO
    case Output => regs.output
    case Adder => regs.adder
  }

  /** The registers after a sample is sent to a sink. */
  function Write(dst: Register, regs: Regs, sample: FP): Regs
  {
    match dst
    case Output => regs.(output := sample)
    case Adder => regs.(adder := Add(regs.adder, sample))
    case Null => regs
  }

  /** The registers after the first k operators have run, starting from zero; `sample(i, m)`
      is the sample of operator i given modulation input m. */
  function RegsAfter(alg: Algorithm, sample: (nat, FP) -> FP, k: nat): Regs
    requires k <= 4
    decreases k
  {
    if k == 0 then
      Regs(FP_ZERO, FP_ZERO)
    else
      var regs := RegsAfter(alg, sample, k - 1);
      Write(alg[k - 1].outSink, regs, sample(k - 1, Read(alg[k - 1].modSource, regs)))
  }

  /** The modulation input operator k receives. */
  function ModInput(alg: Algorithm, sample: (nat, FP) -> FP, k: nat): FP
    requires k < 4
  {
    Read(alg[k].modSource, RegsAfter(alg, sample, k))
  }

  /** The voice's sample: the register the last operator's route names; Null gives zero. */
  function Result(alg: Algorithm, sample: (nat, FP) -> FP): FP
  {
    Read(alg[3].outSink, RegsAfter(alg, sample, 4))
  }

  // ------------------------------------------------------------ the eight algorithms

  /** Algorithm 0 is a serial chain: each operator modulates the next, the last one sounds. */
  lemma Algorithm0(sample: (nat, FP) -> FP)
    ensures var s0 := sample(0, FP_ZERO); var s1 := sample(1, s0); var s2 := sample(2, s1);
      ModInput(ALGORITHMS[0], sample, 0) == FP_ZERO &&
      ModInput(ALGORITHMS[0], sample, 1) == s0 &&
      ModInput(ALGORITHMS[0], sample, 2) == s1 &&
      ModInput(ALGORITHMS[0], sample, 3) == s2 &&
      Result(ALGORITHMS[0], sample) == sample(3, s2)
  {
  }

  /** Algorithm 1: operators 0 and 1 together modulate operator 2, which modulates operator 3. */
  lemma Algorithm1(sample: (nat, FP) -> FP)
    ensures var s0 := sample(0, FP_ZERO); var s1 := sample(1, FP_ZERO);
      var s2 := sample(2, Add(s0, s1));
      ModInput(ALGORITHMS[1], sample, 0) == FP_ZERO &&
      ModInput(ALGORITHMS[1], sample, 1) == FP_ZERO &&
      ModInput(ALGORITHMS[1], sample, 2) == Add(s0, s1) &&
      ModInput(ALGORITHMS[1], sample, 3) == s2 &&
      Result(ALGORITHMS[1], sample) == sample(3, s2)
  {
  }

  /** Algorithm 2: operator 1 modulates operator 2; operators 0 and 2 together modulate 3. */
  lemma Algorithm2(sample: (nat, FP) -> FP)
    ensures var s0 := sample(0, FP_ZERO); var s1 := sample(1, FP_ZERO); var s2 := sample(2, s1);
      ModInput(ALGORITHMS[2], sample, 0) == FP_ZERO &&
      ModInput(ALGORITHMS[2], sample, 1) == FP_ZERO &&
      ModInput(ALGORITHMS[2], sample, 2) == s1 &&
      ModInput(ALGORITHMS[2], sample, 3) == Add(s0, s2) &&
      Result(ALGORITHMS[2], sample) == sample(3, Add(s0, s2))
  {
  }

  /** Algorithm 3: the chain 1 - 2 - 3 mixed with the unmodulated operator 0. */
  lemma Algorithm3(sample: (nat, FP) -> FP)
    ensures var s0 := sample(0, FP_ZERO); var s1 := sample(1, FP_ZERO); var s2 := sample(2, s1);
      ModInput(ALGORITHMS[3], sample, 0) == FP_ZERO &&
      ModInput(ALGORITHMS[3], sample, 1) == FP_ZERO &&
      ModInput(ALGORITHMS[3], sample, 2) == s1 &&
      ModInput(ALGORITHMS[3], sample, 3) == s2 &&
      Result(ALGORITHMS[3], sample) == Add(s0, sample(3, s2))
  {
  }

  /** Algorithm 4: two chains of two, 0 - 1 and 2 - 3, mixed. */
  lemma Algorithm4(sample: (nat, FP) -> FP)
    ensures var s0 := sample(0, FP_ZERO); var s2 := sample(2, FP_ZERO);
      ModInput(ALGORITHMS[4], sample, 0) == FP_ZERO &&
      ModInput(ALGORITHMS[4], sample, 1) == s0 &&
      ModInput(ALGORITHMS[4], sample, 2) == FP_ZERO &&
      ModInput(ALGORITHMS[4], sample, 3) == s2 &&
      Result(ALGORITHMS[4], sample) == Add(sample(1, s0), sample(3, s2))
  {
  }

  /** Algorithm 5: operator 0 modulates each of operators 1, 2 and 3, which are mixed. */
  lemma Algorithm5(sample: (nat, FP) -> FP)
    ensures var s0 := sample(0, FP_ZERO);
      ModInput(ALGORITHMS[5], sample, 0) == FP_ZERO &&
      ModInput(ALGORITHMS[5], sample, 1) == s0 &&
      ModInput(ALGORITHMS[5], sample, 2) == s0 &&
      ModInput(ALGORITHMS[5], sample, 3) == s0 &&
      Result(ALGORITHMS[5], sample) == Add(Add(sample(1, s0), sample(2, s0)), sample(3, s0))
  {
  }

  /** Algorithm 6: operator 1 modulates operator 2; operators 0, 2 and 3 are mixed. */
  lemma Algorithm6(sample: (nat, FP) -> FP)
    ensures var s0 := sample(0, FP_ZERO); var s1 := sample(1, FP_ZERO);
      ModInput(ALGORITHMS[6], sample, 0) == FP_ZERO &&
      ModInput(ALGORITHMS[6], sample, 1) == FP_ZERO &&
      ModInput(ALGORITHMS[6], sample, 2) == s1 &&
      ModInput(ALGORITHMS[6], sample, 3) == FP_ZERO &&
      Result(ALGORITHMS[6], sample) == Add(Add(s0, sample(2, s1)), sample(3, FP_ZERO))
  {
  }

  /** Algorithm 7: four unmodulated operators, mixed. */
  lemma Algorithm7(sample: (nat, FP) -> FP)
    ensures forall k :: 0 <= k < 4 ==> ModInput(ALGORITHMS[7], sample, k) == FP_ZERO
    ensures Result(ALGORITHMS[7], sample) ==
      Add(Add(Add(sample(0, FP_ZERO), sample(1, FP_ZERO)), sample(2, FP_ZERO)), sample(3, FP_ZERO))
  {
  }

  // ------------------------------------------------------------ the operator loop

  /** Operator i's sample, given its modulation input m, for operators that produce the sample
      `out(s)` from their state s. */
  function SamplerOf(out: Operators.OpState -> FP, ops: seq<Operators.OpState>): (nat, FP) -> FP
  {
    (i: nat, m: FP) => if i < |ops| then out(ops[i].(modInput := m)) else FP_ZERO
  }

  /** The operators and registers after the loop of `get_sample()` has run the first k
      operators, for operators whose sample is `out` and whose new state is `after`. */
  function Loop(alg: Algorithm, out: Operators.OpState -> FP, after: Operators.OpState -> Operators.OpState,
                ops: seq<Operators.OpState>, k: nat): (r: (seq<Operators.OpState>, Regs))
    requires k <= 4 <= |ops|
    ensures |r.0| == |ops|
    decreases k
  {
    if k == 0 then
      (ops, Regs(FP_ZERO, FP_ZERO))
    else
      var (o, regs) := Loop(alg, out, after, ops, k - 1);
      var op := o[k - 1].(modInput := Read(alg[k - 1].modSource, regs));
      (o[k - 1 := after(op)], Write(alg[k - 1].outSink, regs, out(op)))
  }

  /** After k steps of the loop the registers hold RegsAfter(k), operators below k have been
      given ModInput as modulation and stepped once, and the others are untouched. */
  lemma {:induction false} LoopMeaning(alg: Algorithm, out: Operators.OpState -> FP,
                                       after: Operators.OpState -> Operators.OpState,
                                       ops: seq<Operators.OpState>, k: nat)
    requires k <= 4 == |ops|
    ensures var (o, regs) := Loop(alg, out, after, ops, k);
      var sample := SamplerOf(out, ops);
      |o| == 4 && regs == RegsAfter(alg, sample, k) &&
      (forall j :: k <= j < 4 ==> o[j] == ops[j]) &&
      (forall j :: 0 <= j < k ==> o[j] == after(ops[j].(modInput := ModInput(alg, sample, j))))
    decreases k
  {
    if k > 0 {
      LoopMeaning(alg, out, after, ops, k - 1);
    }
  }

  // ------------------------------------------------------------ the voice object

  class Voice {
    /** The four operators, held by value. */
    var operators: seq<Operators.OpState>
    var algorithm: nat
    var output: FP
    var adder: FP

    /** `Voice::new()`: four new operators, algorithm 0, cleared registers. */
    constructor ()
      ensures |operators| == 4 && algorithm == 0 && output == FP_ZERO && adder == FP_ZERO
      ensures forall i :: 0 <= i < 4 ==>
        (operators[i] == Operators.OpState(FP_ZERO, FP_ZERO, FP_ZERO, Operators.Wave.FullSine,
                                            255, 0, FP_ZERO, FP_ZERO, Envelope.NewEnv()))
    {
      var op := Operators.OpState(FP_ZERO, FP_ZERO, FP_ZERO, Operators.Wave.FullSine,
                                  255, 0, FP_ZERO, FP_ZERO, Envelope.NewEnv());
      operators := [op, op, op, op];
      algorithm := 0;
      output := FP_ZERO;
      adder := FP_ZERO;
    }

    /** `get_sample()`: run the four operators through the routing program of the algorithm.
        Operator i's modulation is ModInput(i) of the samples before it, its new state is one
        operator step with that modulation, and the result is the register the last route
        names. */
    method GetSample(exp: FP -> FP, sinw: FP -> FP) returns (r: FP)
      requires |operators| == 4 && algorithm < |ALGORITHMS|
      modifies this
      ensures algorithm == old(algorithm) && |operators| == 4
      ensures var alg := ALGORITHMS[algorithm];
        var sample := SamplerOf(s => Operators.Output(exp, sinw, s), old(operators));
        Regs(output, adder) == RegsAfter(alg, sample, 4) && r == Result(alg, sample) &&
        forall i :: 0 <= i < 4 ==>
          (operators[i] ==
           Operators.After(exp, sinw, old(operators)[i].(modInput := ModInput(alg, sample, i))))
    {
      output := FP_ZERO;
      adder := FP_ZERO;
      var alg := ALGORITHMS[algorithm];
      ghost var ops := operators;
      ghost var out := s => Operators.Output(exp, sinw, s);
      ghost var after := s => Operators.After(exp, sinw, s);
      for i := 0 to 4
        invariant algorithm == old(algorithm) && |operators| == 4
        invariant (operators, Regs(output, adder)) == Loop(alg, out, after, ops, i)
      {
        var m := match alg[i].modSource
          case Null => FP_ZERO
          case Output => output
          case Adder => adder;
        var op := operators[i].(modInput := m);
        var s := Operators.Output(exp, sinw, op);
        operators := operators[i := Operators.After(exp, sinw, op)];
        match alg[i].outSink
        case Output => output := s;
        case Adder => adder := Add(adder, s);
        case Null =>
      }
      LoopMeaning(alg, out, after, ops, 4);
      r := match alg[3].outSink
        case Null => FP_ZERO
        case Output => output
        case Adder => adder;
    }

    /** `set_freq(flog2)`: every phase generator gets the new frequency; nothing else changes. */
    method SetFreq(flog2: FP)
      requires |operators| == 4
      modifies this
      ensures algorithm == old(algorithm) && output == old(output) && adder == old(adder)
      ensures |operators| == 4
      ensures forall i :: 0 <= i < 4 ==> (operators[i] == old(operators)[i].(flog2 := flog2))
    {
      for i := 0 to 4
        invariant algorithm == old(algorithm) && output == old(output) && adder == old(adder)
        invariant |operators| == 4
        invariant forall j :: 0 <= j < i ==> (operators[j] == old(operators)[j].(flog2 := flog2))
        invariant forall j :: i <= j < 4 ==> (operators[j] == old(operators)[j])
      {
        operators := operators[i := operators[i].(flog2 := flog2)];
      }
    }

    /** `note_on(flog2)`: set the frequency and open every envelope. */
    method NoteOn(flog2: FP)
      requires |operators| == 4
      modifies this
      ensures algorithm == old(algorithm) && output == old(output) && adder == old(adder)
      ensures |operators| == 4
      ensures forall i :: 0 <= i < 4 ==>
        (operators[i] ==
         old(operators)[i].(flog2 := flog2, env := Envelope.OpenEnv(old(operators)[i].env)))
    {
      for i := 0 to 4
        invariant algorithm == old(algorithm) && output == old(output) && adder == old(adder)
        invariant |operators| == 4
        invariant forall j :: 0 <= j < i ==>
          (operators[j] ==
           old(operators)[j].(flog2 := flog2, env := Envelope.OpenEnv(old(operators)[j].env)))
        invariant forall j :: i <= j < 4 ==> (operators[j] == old(operators)[j])
      {
        var op := operators[i];
        operators := operators[i := op.(flog2 := flog2, env := Envelope.OpenEnv(op.env))];
      }
    }

    /** `note_off()`: close every envelope. */
    method NoteOff()
      requires |operators| == 4
      modifies this
      ensures algorithm == old(algorithm) && output == old(output) && adder == old(adder)
      ensures |operators| == 4
      ensures forall i :: 0 <= i < 4 ==>
        (operators[i] == old(operators)[i].(env := Envelope.CloseEnv(old(operators)[i].env)))
    {
      for i := 0 to 4
        invariant algorithm == old(algorithm) && output == old(output) && adder == old(adder)
        invariant |operators| == 4
        invariant forall j :: 0 <= j < i ==>
          (operators[j] == old(operators)[j].(env := Envelope.CloseEnv(old(operators)[j].env)))
        invariant forall j :: i <= j < 4 ==> (operators[j] == old(operators)[j])
      {
        var op := operators[i];
        operators := operators[i := op.(env := Envelope.CloseEnv(op.env))];
      }
    }
  }
}

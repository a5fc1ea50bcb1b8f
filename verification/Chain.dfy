/**
 A link's channel chain and a node's superposition, as src/cpu_backend.cpp runs them:
 each slot goes through the chain step by step, then the edges are summed and the
 node's receiver chain is applied.  Noise and fading steps are not modelled.
 */
module Chain {
  import opened Iq
  import opened Phase
  import Tdl
  import TdlResponse
  import TdlStream

  /** `Turn` is a phase or cfo step: both rotate by the link's frequency offset. */
  datatype Step =
    | PathLoss(factor: real)
    | Turn(fixed: real, increment: real)
    | Taps(taps: seq<Tdl.Tap>, poly: seq<seq<real>>)
  {
    predicate Shaped() {
      Taps? ==> Tdl.Shaped(taps, poly)
    }

    /** The step's output depends on no later input. */
    predicate Causal() {
      Shaped() && (Taps? ==> TdlResponse.NoLookahead(taps, poly))
    }
  }

  /** A step's state carried from slot to slot. */
  datatype StepState = StepState(line: seq<Sample>, phase: real)

  predicate ShapedChain(chain: seq<Step>) {
    forall k :: 0 <= k < |chain| ==> chain[k].Shaped()
  }

  /** No step looks at other samples. */
  predicate PerSample(chain: seq<Step>) {
    forall k :: 0 <= k < |chain| ==> !chain[k].Taps?
  }

  // ---- One slot ---------------------------------------------------------------------------

  function StepOut(tr: Trig, step: Step, st: StepState, input: seq<Sample>): (y: seq<Sample>)
    requires step.Shaped() && tr.turn > 0.0
    ensures |y| == |input|
  {
    match step
    case PathLoss(f) => seq(|input|, n requires 0 <= n < |input| => Scale(input[n], f))
    case Turn(fixed, inc) =>
      seq(|input|, n requires 0 <= n < |input| => Rotate(input[n], tr.rot(fixed + PhaseAt(tr, st.phase, inc, n))))
    case Taps(taps, poly) => Tdl.SlotOut(taps, poly, st.line, input)
  }

  function StepNext(tr: Trig, step: Step, st: StepState, input: seq<Sample>): StepState
    requires tr.turn > 0.0
  {
    match step
    case PathLoss(_) => st
    case Turn(_, inc) => st.(phase := PhaseAt(tr, st.phase, inc, |input|))
    case Taps(_, _) => st.(line := Tdl.Roll(st.line, input))
  }

  function ChainOut(tr: Trig, chain: seq<Step>, sts: seq<StepState>, input: seq<Sample>): (y: seq<Sample>)
    requires ShapedChain(chain) && |chain| == |sts| && tr.turn > 0.0
    ensures |y| == |input|
  {
    if chain == [] then input else ChainOut(tr, chain[1..], sts[1..], StepOut(tr, chain[0], sts[0], input))
  }

  function ChainNext(tr: Trig, chain: seq<Step>, sts: seq<StepState>, input: seq<Sample>): (sts': seq<StepState>)
    requires ShapedChain(chain) && |chain| == |sts| && tr.turn > 0.0
    ensures |sts'| == |sts|
  {
    if chain == [] then []
    else [StepNext(tr, chain[0], sts[0], input)] +
         ChainNext(tr, chain[1..], sts[1..], StepOut(tr, chain[0], sts[0], input))
  }

  // ---- The whole stream -------------------------------------------------------------------

  function WholeStep(tr: Trig, step: Step, x: seq<Sample>): (y: seq<Sample>)
    requires step.Shaped()
    ensures |y| == |x|
  {
    match step
    case PathLoss(f) => seq(|x|, n requires 0 <= n < |x| => Scale(x[n], f))
    case Turn(fixed, inc) => seq(|x|, n requires 0 <= n < |x| => Rotate(x[n], tr.rot(fixed + Angle(n, inc))))
    case Taps(taps, poly) => Tdl.Whole(taps, poly, x)
  }

  /** The chain applied to a whole stream at once. */
  function WholeChain(tr: Trig, chain: seq<Step>, x: seq<Sample>): (y: seq<Sample>)
    requires ShapedChain(chain)
    ensures |y| == |x|
  {
    if chain == [] then x else WholeChain(tr, chain[1..], WholeStep(tr, chain[0], x))
  }

  /** The state of a step that has processed exactly `x`. */
  ghost predicate Caught(tr: Trig, step: Step, st: StepState, x: seq<Sample>)
    requires step.Shaped()
  {
    match step
    case PathLoss(_) => true
    case Turn(_, inc) => tr.Congruent(st.phase, Angle(|x|, inc))
    case Taps(taps, _) => Tdl.Covers(taps, |st.line|) && st.line == TdlStream.Tail(x, |st.line|)
  }

  ghost predicate CaughtUp(tr: Trig, chain: seq<Step>, sts: seq<StepState>, x: seq<Sample>)
    requires ShapedChain(chain) && |chain| == |sts|
  {
    chain == [] ||
    (Caught(tr, chain[0], sts[0], x) && CaughtUp(tr, chain[1..], sts[1..], WholeStep(tr, chain[0], x)))
  }

  predicate CausalChain(chain: seq<Step>) {
    forall k :: 0 <= k < |chain| ==> chain[k].Causal()
  }

  // ---- A slot continues the whole-stream computation ----------------------------------------

  lemma TurnContinues(tr: Trig, fixed: real, inc: real, st: StepState, x: seq<Sample>, input: seq<Sample>, n: nat)
    requires tr.Periodic() && n <= |input| && tr.Congruent(st.phase, Angle(|x|, inc))
    ensures tr.Congruent(PhaseAt(tr, st.phase, inc, n), Angle(|x| + n, inc))
    ensures tr.rot(fixed + PhaseAt(tr, st.phase, inc, n)) == tr.rot(fixed + Angle(|x| + n, inc))
  {
    var start, here, closed := Angle(|x|, inc), Angle(|x| + n, inc), st.phase + Angle(n, inc);
    AccumulatedIsClosedForm(tr, st.phase, inc, n);
    Shifted(tr, st.phase, start, Angle(n, inc));
    AngleSum(|x|, n, inc);
    assert start + Angle(n, inc) == here;
    Transitive(tr, PhaseAt(tr, st.phase, inc, n), closed, here);
    Shifted(tr, PhaseAt(tr, st.phase, inc, n), here, fixed);
  }

  lemma TurnStepContinues(tr: Trig, step: Step, st: StepState, x: seq<Sample>, input: seq<Sample>)
    requires tr.Periodic() && step.Turn? && Caught(tr, step, st, x)
    ensures WholeStep(tr, step, x + input) == WholeStep(tr, step, x) + StepOut(tr, step, st, input)
    ensures Caught(tr, step, StepNext(tr, step, st, input), x + input)
  {
    var inc := step.increment;
    assert tr.Congruent(st.phase, Angle(|x|, inc)) && tr.turn > 0.0;
    TurnContinues(tr, step.fixed, inc, st, x, input, |input|);
    TurnSamples(tr, step, st, x, input);
  }

  lemma TurnSamples(tr: Trig, step: Step, st: StepState, x: seq<Sample>, input: seq<Sample>)
    requires tr.Periodic() && step.Turn? && tr.Congruent(st.phase, Angle(|x|, step.increment))
    ensures WholeStep(tr, step, x + input) == WholeStep(tr, step, x) + StepOut(tr, step, st, input)
  {
    var inc := step.increment;
    var whole, before, now := WholeStep(tr, step, x + input), WholeStep(tr, step, x), StepOut(tr, step, st, input);
    hide Trig.Periodic, Trig.Congruent, Rotate, PhaseAt, Angle;
    forall n, at: nat | 0 <= n < |input| && at == |x| + n ensures now[n] == whole[at] {
      TurnContinues(tr, step.fixed, inc, st, x, input, n);
    }
    Glue(before, now, whole);
  }

  lemma Glue(a: seq<Sample>, b: seq<Sample>, c: seq<Sample>)
    requires |c| == |a| + |b| && (forall n :: 0 <= n < |a| ==> a[n] == c[n]) && forall n, at: nat :: 0 <= n < |b| && at == |a| + n ==> b[n] == c[at]
    ensures c == a + b
  {
  }

  lemma TapsStepContinues(tr: Trig, step: Step, st: StepState, x: seq<Sample>, input: seq<Sample>)
    requires step.Taps? && tr.turn > 0.0 && step.Causal() && Caught(tr, step, st, x)
    ensures WholeStep(tr, step, x + input) == WholeStep(tr, step, x) + StepOut(tr, step, st, input)
    ensures Caught(tr, step, StepNext(tr, step, st, input), x + input)
  {
    var taps, poly := step.taps, step.poly;
    TdlStream.SlotIsConvolution(taps, poly, x, input, |st.line|);
    TdlResponse.WholePrefix(taps, poly, x, input);
    TdlStream.RollIsTail(x, input, |st.line|);
    var whole := Tdl.Whole(taps, poly, x + input);
    assert whole == whole[..|x|] + whole[|x|..];
  }

  lemma StepContinues(tr: Trig, step: Step, st: StepState, x: seq<Sample>, input: seq<Sample>)
    requires tr.Periodic() && step.Causal() && Caught(tr, step, st, x)
    ensures WholeStep(tr, step, x + input) == WholeStep(tr, step, x) + StepOut(tr, step, st, input)
    ensures Caught(tr, step, StepNext(tr, step, st, input), x + input)
  {
    if step.Turn? {
      TurnStepContinues(tr, step, st, x, input);
    } else if step.Taps? {
      TapsStepContinues(tr, step, st, x, input);
    }
  }

  lemma {:induction false} ChainContinues(tr: Trig, chain: seq<Step>, sts: seq<StepState>, x: seq<Sample>, input: seq<Sample>)
    requires tr.Periodic() && ShapedChain(chain) && CausalChain(chain) && |chain| == |sts| && CaughtUp(tr, chain, sts, x)
    ensures WholeChain(tr, chain, x + input) == WholeChain(tr, chain, x) + ChainOut(tr, chain, sts, input)
    ensures CaughtUp(tr, chain, ChainNext(tr, chain, sts, input), x + input)
  {
    if chain != [] {
      StepContinues(tr, chain[0], sts[0], x, input);
      ChainContinues(tr, chain[1..], sts[1..], WholeStep(tr, chain[0], x), StepOut(tr, chain[0], sts[0], input));
      assert ChainNext(tr, chain, sts, input)[1..] ==
             ChainNext(tr, chain[1..], sts[1..], StepOut(tr, chain[0], sts[0], input));
    }
  }

  // ---- Superposition ------------------------------------------------------------------------

  /** Sample-wise sum of equally long signals, accumulated in edge order from silence. */
  function Mix(ys: seq<seq<Sample>>, count: nat): (y: seq<Sample>)
    requires forall k :: 0 <= k < |ys| ==> |ys[k]| == count
    ensures |y| == count
  {
    if ys == [] then Zeros(count)
    else
      var rest, last := Mix(ys[..|ys| - 1], count), ys[|ys| - 1];
      seq(count, n requires 0 <= n < count => Add(rest[n], last[n]))
  }

  lemma {:induction false} MixConcat(xs: seq<seq<Sample>>, ys: seq<seq<Sample>>, zs: seq<seq<Sample>>, m: nat, n: nat)
    requires |xs| == |ys| == |zs|
    requires forall k :: 0 <= k < |xs| ==> |xs[k]| == m
    requires forall k :: 0 <= k < |ys| ==> |ys[k]| == n
    requires forall k :: 0 <= k < |zs| ==> zs[k] == xs[k] + ys[k]
    ensures Mix(zs, m + n) == Mix(xs, m) + Mix(ys, n)
  {
    if xs != [] {
      var e := |xs| - 1;
      MixConcat(xs[..e], ys[..e], zs[..e], m, n);
    }
  }

  /** One incoming edge: its chain and the states of its steps. */
  datatype Edge = Edge(chain: seq<Step>, sts: seq<StepState>)
  {
    predicate Shaped() {
      ShapedChain(chain) && |chain| == |sts|
    }
  }

  /** A node: its incoming edges in configuration order and its receiver chain. */
  datatype Node = Node(edges: seq<Edge>, rx: Edge)
  {
    predicate Shaped() {
      rx.Shaped() && forall k :: 0 <= k < |edges| ==> edges[k].Shaped()
    }
  }

  /** A step's state as prepared before the first slot: phase zero, an empty ring. */
  function FreshState(step: Step): StepState {
    StepState(if step.Taps? then Zeros(Tdl.RingSize(step.taps)) else [], 0.0)
  }

  function FreshOf(chain: seq<Step>): (e: Edge)
    ensures e.chain == chain && |e.sts| == |chain|
    ensures forall k :: 0 <= k < |chain| ==> e.sts[k] == FreshState(chain[k])
  {
    Edge(chain, seq(|chain|, k requires 0 <= k < |chain| => FreshState(chain[k])))
  }

  function FreshNodeOf(chains: seq<seq<Step>>, rx: seq<Step>): (node: Node)
    ensures |node.edges| == |chains| && node.rx == FreshOf(rx)
    ensures forall k :: 0 <= k < |chains| ==> node.edges[k] == FreshOf(chains[k])
  {
    Node(seq(|chains|, k requires 0 <= k < |chains| => FreshOf(chains[k])), FreshOf(rx))
  }

  predicate Aligned(node: Node, inputs: seq<seq<Sample>>, count: nat) {
    |inputs| == |node.edges| && forall k :: 0 <= k < |inputs| ==> |inputs[k]| == count
  }

  /** The first input whose size is not the output's; their number if there is none. */
  function FirstBad(inputs: seq<seq<Sample>>, count: nat): (k: nat)
    ensures k <= |inputs| && (k < |inputs| ==> |inputs[k]| != count) && forall j :: 0 <= j < k ==> |inputs[j]| == count
  {
    if inputs == [] || |inputs[0]| != count then 0 else 1 + FirstBad(inputs[1..], count)
  }

  function EdgeOuts(tr: Trig, node: Node, inputs: seq<seq<Sample>>, count: nat): (ys: seq<seq<Sample>>)
    requires node.Shaped() && Aligned(node, inputs, count) && tr.turn > 0.0
    ensures |ys| == |inputs| && forall k :: 0 <= k < |ys| ==> |ys[k]| == count
  {
    seq(|inputs|, k requires 0 <= k < |inputs| => ChainOut(tr, node.edges[k].chain, node.edges[k].sts, inputs[k]))
  }

  /** A node's reply to one serve. */
  function NodeOut(tr: Trig, node: Node, inputs: seq<seq<Sample>>, count: nat): (y: seq<Sample>)
    requires node.Shaped() && Aligned(node, inputs, count) && tr.turn > 0.0
    ensures |y| == count
  {
    ChainOut(tr, node.rx.chain, node.rx.sts, Mix(EdgeOuts(tr, node, inputs, count), count))
  }

  function NodeNext(tr: Trig, node: Node, inputs: seq<seq<Sample>>, count: nat): (node': Node)
    requires node.Shaped() && Aligned(node, inputs, count) && tr.turn > 0.0
    ensures node'.Shaped() && |node'.edges| == |node.edges| && node'.rx.chain == node.rx.chain
    ensures forall k :: 0 <= k < |node.edges| ==> node'.edges[k].chain == node.edges[k].chain
  {
    Node(
      seq(|inputs|, k requires 0 <= k < |inputs| =>
        Edge(node.edges[k].chain, ChainNext(tr, node.edges[k].chain, node.edges[k].sts, inputs[k]))),
      Edge(node.rx.chain, ChainNext(tr, node.rx.chain, node.rx.sts, Mix(EdgeOuts(tr, node, inputs, count), count))))
  }

  // ---- The node on whole streams -------------------------------------------------------------

  function WholeEdges(tr: Trig, node: Node, xs: seq<seq<Sample>>, count: nat): (ys: seq<seq<Sample>>)
    requires node.Shaped() && Aligned(node, xs, count)
    ensures |ys| == |xs| && forall k :: 0 <= k < |ys| ==> |ys[k]| == count
  {
    seq(|xs|, k requires 0 <= k < |xs| => WholeChain(tr, node.edges[k].chain, xs[k]))
  }

  /** The sum of the edges' channels on whole streams, through the receiver chain. */
  function WholeNode(tr: Trig, node: Node, xs: seq<seq<Sample>>, count: nat): (y: seq<Sample>)
    requires node.Shaped() && Aligned(node, xs, count)
    ensures |y| == count
  {
    WholeChain(tr, node.rx.chain, Mix(WholeEdges(tr, node, xs, count), count))
  }

  ghost predicate NodeCaughtUp(tr: Trig, node: Node, xs: seq<seq<Sample>>, count: nat)
    requires node.Shaped() && Aligned(node, xs, count)
  {
    && (forall k :: 0 <= k < |xs| ==> CaughtUp(tr, node.edges[k].chain, node.edges[k].sts, xs[k]))
    && CaughtUp(tr, node.rx.chain, node.rx.sts, Mix(WholeEdges(tr, node, xs, count), count))
  }

  predicate CausalNode(node: Node) {
    CausalChain(node.rx.chain) && forall k :: 0 <= k < |node.edges| ==> CausalChain(node.edges[k].chain)
  }

  /** A serve continues the whole-stream computation, whatever the window sizes were. */
  lemma NodeContinues(tr: Trig, node: Node, xs: seq<seq<Sample>>, m: nat, us: seq<seq<Sample>>, n: nat)
      returns (zs: seq<seq<Sample>>)
    requires tr.Periodic() && node.Shaped() && CausalNode(node) && Aligned(node, xs, m) && Aligned(node, us, n)
    requires NodeCaughtUp(tr, node, xs, m)
    ensures |zs| == |xs| && forall k :: 0 <= k < |xs| ==> zs[k] == xs[k] + us[k]
    ensures WholeNode(tr, node, zs, m + n) == WholeNode(tr, node, xs, m) + NodeOut(tr, node, us, n)
    ensures NodeCaughtUp(tr, NodeNext(tr, node, us, n), zs, m + n)
  {
    zs := seq(|xs|, k requires 0 <= k < |xs| => xs[k] + us[k]);
    forall k | 0 <= k < |xs|
      ensures WholeEdges(tr, node, zs, m + n)[k] == WholeEdges(tr, node, xs, m)[k] + EdgeOuts(tr, node, us, n)[k]
      ensures CaughtUp(tr, node.edges[k].chain, ChainNext(tr, node.edges[k].chain, node.edges[k].sts, us[k]), zs[k])
    {
      ChainContinues(tr, node.edges[k].chain, node.edges[k].sts, xs[k], us[k]);
    }
    MixConcat(WholeEdges(tr, node, xs, m), EdgeOuts(tr, node, us, n), WholeEdges(tr, node, zs, m + n), m, n);
    var before, now := Mix(WholeEdges(tr, node, xs, m), m), Mix(EdgeOuts(tr, node, us, n), n);
    ChainContinues(tr, node.rx.chain, node.rx.sts, before, now);
    var node' := NodeNext(tr, node, us, n);
    assert WholeEdges(tr, node', zs, m + n) == WholeEdges(tr, node, zs, m + n);
  }
}

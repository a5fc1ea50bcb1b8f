/**
 The fused form of src/cuda_backend.cu and src/device_channel.cu: sources packed once,
 every edge's delay line run by one kernel, the rest of all chains flattened into one
 step table with closed-form phase, and one pass that sums.
 */
module Fused {
  import opened Iq
  import opened Phase
  import opened Chain
  import Tdl
  import TdlStream
  import TdlResponse
  import RuntimeControl

  const MAX_LINE: nat := 128

  // ---- Per-sample steps ------------------------------------------------------------------

  datatype GpuStep = GpuScale(a: real) | GpuRotate(a: real, b: real)

  function ApplyStep(tr: Trig, g: GpuStep, idx: nat, v: Sample): Sample {
    match g
    case GpuScale(a) => Scale(v, a)
    case GpuRotate(a, b) => Rotate(v, tr.rot(a + Angle(idx, b)))
  }

  function ApplySteps(tr: Trig, steps: seq<GpuStep>, idx: nat, v: Sample): Sample {
    if steps == [] then v else ApplySteps(tr, steps[1..], idx, ApplyStep(tr, steps[0], idx, v))
  }

  /** A table on a slot. */
  function TableOut(tr: Trig, table: seq<GpuStep>, x: seq<Sample>): (y: seq<Sample>)
    ensures |y| == |x| && forall i :: 0 <= i < |x| ==> y[i] == ApplySteps(tr, table, i, x[i])
  {
    seq(|x|, i requires 0 <= i < |x| => ApplySteps(tr, table, i, x[i]))
  }

  /** The device step for a chain step; a tdl has already run, so it is a unit scale. */
  function BuildStep(step: Step, phase: real): GpuStep {
    match step
    case PathLoss(f) => GpuScale(f)
    case Turn(fixed, inc) => GpuRotate(fixed + phase, inc)
    case Taps(_, _) => GpuScale(1.0)
  }

  function BuildTable(chain: seq<Step>, phases: seq<real>): (g: seq<GpuStep>)
    requires |chain| == |phases|
    ensures |g| == |chain|
  {
    seq(|chain|, k requires 0 <= k < |chain| => BuildStep(chain[k], phases[k]))
  }

  function NextPhase(tr: Trig, step: Step, phase: real, count: nat): real
    requires tr.turn > 0.0
  {
    if step.Turn? then Fmod(phase + Angle(count, step.increment), tr.turn) else phase
  }

  function NextPhases(tr: Trig, chain: seq<Step>, phases: seq<real>, count: nat): (p: seq<real>)
    requires |chain| == |phases| && tr.turn > 0.0
    ensures |p| == |phases|
  {
    seq(|chain|, k requires 0 <= k < |chain| => NextPhase(tr, chain[k], phases[k], count))
  }

  // ---- Device links --------------------------------------------------------------------------

  /** What the channel kernel knows of an edge.  `src` is its slot among the packed sources. */
  datatype DevLink = DevLink(hasTdl: bool, taps: seq<Tdl.Tap>, poly: seq<seq<real>>, line: seq<Sample>, src: nat)
  {
    predicate Shaped() {
      hasTdl ==> Tdl.Shaped(taps, poly)
    }
  }

  /** The fixed-size device struct can hold the edge's taps and ring. */
  predicate Fits(taps: seq<Tdl.Tap>, line: seq<Sample>) {
    1 <= |taps| <= RuntimeControl.MAX_TAPS && |line| <= MAX_LINE
  }

  /** Built once per edge.  When the struct is too small the builder gives up with the
      struct zeroed, and its caller does not look at the outcome. */
  function BuildDevLink(step: Step, line: seq<Sample>, src: nat): DevLink {
    if step.Taps? && Fits(step.taps, line) then DevLink(true, step.taps, step.poly, line, src)
    else DevLink(false, [], [], [], src)
  }

  function Staged(d: DevLink, source: seq<Sample>): (y: seq<Sample>)
    requires d.Shaped()
    ensures |y| == |source|
  {
    if d.hasTdl then Tdl.SlotOut(d.taps, d.poly, d.line, source) else source
  }

  function NextDevLink(d: DevLink, source: seq<Sample>): DevLink {
    if d.hasTdl then d.(line := Tdl.Roll(d.line, source)) else d
  }

  // ---- A node's fused state ------------------------------------------------------------------

  datatype GpuEdge = GpuEdge(chain: seq<Step>, phases: seq<real>, dev: DevLink, line: seq<Sample>)
  {
    predicate Shaped() {
      ShapedChain(chain) && |phases| == |chain| && dev.Shaped()
    }
  }

  /** `firstEdge[s]` is the first edge that reads source slot `s`. */
  datatype GpuNode = GpuNode(edges: seq<GpuEdge>, firstEdge: seq<nat>, useDevice: bool, rx: seq<Step>, rxPhases: seq<real>)
  {
    predicate Shaped() {
      && ShapedChain(rx) && |rxPhases| == |rx|
      && (forall k :: 0 <= k < |edges| ==> edges[k].Shaped() && edges[k].dev.src < |firstEdge|)
      && forall s :: 0 <= s < |firstEdge| ==> firstEdge[s] < |edges|
    }
  }

  predicate Fitting(g: GpuNode, inputs: seq<seq<Sample>>, count: nat) {
    |inputs| == |g.edges| && forall k :: 0 <= k < |inputs| ==> |inputs[k]| == count
  }

  /** The source samples an edge's kernel reads: the slot packed from the first edge
      that shares the source. */
  function SourceOf(g: GpuNode, inputs: seq<seq<Sample>>, k: nat): seq<Sample>
    requires g.Shaped() && |inputs| == |g.edges| && k < |inputs|
  {
    inputs[g.firstEdge[g.edges[k].dev.src]]
  }

  /** Samples of edge `k` as they enter the summing pass. */
  function EdgeStaged(g: GpuNode, inputs: seq<seq<Sample>>, count: nat, k: nat): (y: seq<Sample>)
    requires g.Shaped() && Fitting(g, inputs, count) && k < |inputs|
    ensures |y| == count
  {
    var e := g.edges[k];
    if g.useDevice then Staged(e.dev, SourceOf(g, inputs, k))
    else if e.chain != [] && e.chain[0].Taps? then Tdl.SlotOut(e.chain[0].taps, e.chain[0].poly, e.line, inputs[k])
    else inputs[k]
  }

  /** The summing pass over one output sample. */
  function FusedSum(tr: Trig, g: GpuNode, inputs: seq<seq<Sample>>, count: nat, idx: nat, k: nat): Sample
    requires g.Shaped() && Fitting(g, inputs, count) && idx < count && k <= |inputs|
  {
    if k == 0 then ZERO
    else
      var e := g.edges[k - 1];
      Add(FusedSum(tr, g, inputs, count, idx, k - 1),
          ApplySteps(tr, BuildTable(e.chain, e.phases), idx, EdgeStaged(g, inputs, count, k - 1)[idx]))
  }

  function FusedOut(tr: Trig, g: GpuNode, inputs: seq<seq<Sample>>, count: nat): (y: seq<Sample>)
    requires g.Shaped() && Fitting(g, inputs, count)
    ensures |y| == count
  {
    seq(count, idx requires 0 <= idx < count =>
      ApplySteps(tr, BuildTable(g.rx, g.rxPhases), idx, FusedSum(tr, g, inputs, count, idx, |inputs|)))
  }

  function NextEdge(tr: Trig, g: GpuNode, inputs: seq<seq<Sample>>, count: nat, k: nat): GpuEdge
    requires g.Shaped() && Fitting(g, inputs, count) && k < |inputs| && tr.turn > 0.0
  {
    var e := g.edges[k];
    var e' := e.(phases := NextPhases(tr, e.chain, e.phases, count));
    if g.useDevice then e'.(dev := NextDevLink(e.dev, SourceOf(g, inputs, k)))
    else if e.chain != [] && e.chain[0].Taps? then e'.(line := Tdl.Roll(e.line, inputs[k]))
    else e'
  }

  function FusedNext(tr: Trig, g: GpuNode, inputs: seq<seq<Sample>>, count: nat): (g': GpuNode)
    requires g.Shaped() && Fitting(g, inputs, count) && tr.turn > 0.0
    ensures g'.Shaped() && |g'.edges| == |g.edges|
  {
    g.(edges := seq(|inputs|, k requires 0 <= k < |inputs| => NextEdge(tr, g, inputs, count, k)),
       rxPhases := NextPhases(tr, g.rx, g.rxPhases, count))
  }

  // ---- Matching a fused node with the plain one ------------------------------------------------

  /** Only the first step of a chain may be a tdl. */
  predicate LeadingOnly(chain: seq<Step>) {
    forall k :: 0 < k < |chain| ==> !chain[k].Taps?
  }

  ghost predicate PhaseMatches(tr: Trig, step: Step, st: StepState, phase: real) {
    step.Turn? ==> tr.Congruent(st.phase, phase)
  }

  ghost predicate PhasesMatch(tr: Trig, chain: seq<Step>, sts: seq<StepState>, phases: seq<real>)
    requires |chain| == |sts| == |phases|
  {
    forall k :: 0 <= k < |chain| ==> PhaseMatches(tr, chain[k], sts[k], phases[k])
  }

  predicate LeadsWithTaps(chain: seq<Step>) {
    chain != [] && chain[0].Taps?
  }

  ghost predicate EdgeMatches(tr: Trig, c: Edge, e: GpuEdge, useDevice: bool) {
    && c.Shaped() && e.Shaped() && c.chain == e.chain && LeadingOnly(c.chain)
    && PhasesMatch(tr, c.chain, c.sts, e.phases)
    && (LeadsWithTaps(c.chain) && !useDevice ==> e.line == c.sts[0].line)
    && (useDevice ==> LeadsWithTaps(c.chain) && DeviceMatches(c, e.dev))
  }

  /** The device link carries the edge's taps and ring, or carries nothing because there
      is nothing to do. */
  ghost predicate DeviceMatches(c: Edge, d: DevLink)
    requires c.Shaped() && LeadsWithTaps(c.chain)
  {
    var Taps(taps, poly) := c.chain[0];
    if d.hasTdl then d.taps == taps && d.poly == poly && d.line == c.sts[0].line
    else TdlResponse.Transparent(taps, poly)
  }

  ghost predicate Matches(tr: Trig, node: Node, g: GpuNode) {
    && node.Shaped() && g.Shaped() && |node.edges| == |g.edges|
    && (forall k :: 0 <= k < |g.edges| ==> EdgeMatches(tr, node.edges[k], g.edges[k], g.useDevice))
    && node.rx.chain == g.rx && PhasesMatch(tr, g.rx, node.rx.sts, g.rxPhases)
    && forall k :: 0 <= k < |g.rx| ==> !g.rx[k].Taps?
  }

  /** Edges that share a packed source were handed the same window. */
  predicate SharedInputs(g: GpuNode, inputs: seq<seq<Sample>>)
    requires g.Shaped() && |inputs| == |g.edges|
  {
    forall k :: 0 <= k < |inputs| ==> SourceOf(g, inputs, k) == inputs[k]
  }

  // ---- Preparing -------------------------------------------------------------------------------

  /** Channel state set up from a node before its first slot: `src[k]` is edge `k`'s slot among
      the packed sources. */
  function Prepared(node: Node, src: seq<nat>, firstEdge: seq<nat>): (g: GpuNode)
    requires node.Shaped() && |src| == |node.edges|
    ensures |g.edges| == |node.edges| && g.firstEdge == firstEdge
    ensures forall k :: 0 <= k < |src| ==> g.edges[k].dev.src == src[k]
    ensures g.useDevice <==> node.edges != [] && forall k :: 0 <= k < |node.edges| ==> LeadsWithTaps(node.edges[k].chain)
  {
    GpuNode(
      seq(|src|, k requires 0 <= k < |src| => PreparedEdge(node.edges[k], src[k])),
      firstEdge,
      node.edges != [] && forall k :: 0 <= k < |node.edges| ==> LeadsWithTaps(node.edges[k].chain),
      node.rx.chain,
      AtRest(|node.rx.chain|))
  }

  /** Every oscillator at phase zero. */
  function AtRest(n: nat): (p: seq<real>)
    ensures |p| == n && forall k :: 0 <= k < n ==> p[k] == 0.0
  {
    seq(n, _ => 0.0)
  }

  function PreparedEdge(c: Edge, src: nat): (e: GpuEdge)
    requires c.Shaped()
    ensures e.dev.src == src
  {
    var leads := LeadsWithTaps(c.chain);
    GpuEdge(
      c.chain,
      AtRest(|c.chain|),
      if leads then BuildDevLink(c.chain[0], c.sts[0].line, src) else DevLink(false, [], [], [], src),
      if leads then c.sts[0].line else [])
  }
}

/** The fused form computes what the plain loop computes, slot after slot. */
module FusedProof {
  import opened Iq
  import opened Phase
  import opened Chain
  import opened Fused
  import Tdl
  import TdlResponse
  import TdlStream

  // ---- One per-sample step -----------------------------------------------------------------

  /** The table's closed-form angle and the loop's accumulated one rotate alike. */
  lemma TurnAgrees(tr: Trig, fixed: real, inc: real, at: real, phase: real, n: nat)
    requires tr.Periodic() && tr.Congruent(at, phase)
    ensures tr.Congruent(PhaseAt(tr, at, inc, n), phase + Angle(n, inc))
    ensures tr.rot(fixed + PhaseAt(tr, at, inc, n)) == tr.rot(fixed + phase + Angle(n, inc))
  {
    AccumulatedIsClosedForm(tr, at, inc, n);
    Shifted(tr, at, phase, Angle(n, inc));
    Transitive(tr, PhaseAt(tr, at, inc, n), at + Angle(n, inc), phase + Angle(n, inc));
    Shifted(tr, PhaseAt(tr, at, inc, n), phase + Angle(n, inc), fixed);
    assert fixed + (phase + Angle(n, inc)) == fixed + phase + Angle(n, inc);
  }

  lemma StepAgrees(tr: Trig, step: Step, st: StepState, phase: real, input: seq<Sample>, idx: nat)
    requires tr.Periodic() && !step.Taps? && PhaseMatches(tr, step, st, phase) && idx < |input|
    ensures StepOut(tr, step, st, input)[idx] == ApplyStep(tr, BuildStep(step, phase), idx, input[idx])
  {
    if step.Turn? {
      TurnAgrees(tr, step.fixed, step.increment, st.phase, phase, idx);
    }
  }

  /** The phases still agree up to whole turns after a slot of any length, although one side
      reduced them sample by sample and the other once. */
  lemma PhaseStays(tr: Trig, step: Step, st: StepState, phase: real, input: seq<Sample>)
    requires tr.Periodic() && PhaseMatches(tr, step, st, phase)
    ensures PhaseMatches(tr, step, StepNext(tr, step, st, input), NextPhase(tr, step, phase, |input|))
  {
    if step.Turn? {
      var inc, n := step.increment, |input|;
      TurnAgrees(tr, 0.0, inc, st.phase, phase, n);
      FmodCongruent(tr, phase + Angle(n, inc));
      Symmetric(tr, NextPhase(tr, step, phase, n), phase + Angle(n, inc));
      Transitive(tr, PhaseAt(tr, st.phase, inc, n), phase + Angle(n, inc), NextPhase(tr, step, phase, n));
    }
  }

  // ---- A chain of per-sample steps ------------------------------------------------------------

  lemma TableTail(chain: seq<Step>, phases: seq<real>)
    requires |chain| == |phases| && chain != []
    ensures BuildTable(chain, phases)[0] == BuildStep(chain[0], phases[0])
    ensures BuildTable(chain, phases)[1..] == BuildTable(chain[1..], phases[1..])
  {
  }

  lemma PhasesTail(tr: Trig, chain: seq<Step>, sts: seq<StepState>, phases: seq<real>)
    requires |chain| == |sts| == |phases| && chain != [] && PhasesMatch(tr, chain, sts, phases)
    ensures PhaseMatches(tr, chain[0], sts[0], phases[0]) && PhasesMatch(tr, chain[1..], sts[1..], phases[1..])
  {
    forall k | 0 <= k < |chain| - 1 ensures PhaseMatches(tr, chain[1..][k], sts[1..][k], phases[1..][k]) {
      assert PhaseMatches(tr, chain[k + 1], sts[k + 1], phases[k + 1]);
    }
  }

  lemma {:induction false} ChainAgrees(tr: Trig, chain: seq<Step>, sts: seq<StepState>, phases: seq<real>,
                                       input: seq<Sample>, idx: nat)
    requires tr.Periodic() && PerSample(chain) && ShapedChain(chain) && |chain| == |sts| == |phases|
    requires PhasesMatch(tr, chain, sts, phases) && idx < |input|
    ensures ChainOut(tr, chain, sts, input)[idx] == ApplySteps(tr, BuildTable(chain, phases), idx, input[idx])
  {
    if chain != [] {
      TableTail(chain, phases);
      PhasesTail(tr, chain, sts, phases);
      StepAgrees(tr, chain[0], sts[0], phases[0], input, idx);
      var mid := StepOut(tr, chain[0], sts[0], input);
      assert PerSample(chain[1..]) && ShapedChain(chain[1..]);
      hide PerSample, ShapedChain, BuildTable, StepOut, ApplyStep, BuildStep, PhasesMatch, PhaseMatches, Trig.Periodic;
      ChainAgrees(tr, chain[1..], sts[1..], phases[1..], mid, idx);
    }
  }

  lemma {:induction false} PhasesStay(tr: Trig, chain: seq<Step>, sts: seq<StepState>, phases: seq<real>,
                                      input: seq<Sample>, k: nat)
    requires tr.Periodic() && ShapedChain(chain) && |chain| == |sts| == |phases|
    requires PhasesMatch(tr, chain, sts, phases) && k < |chain|
    ensures PhaseMatches(tr, chain[k], ChainNext(tr, chain, sts, input)[k], NextPhase(tr, chain[k], phases[k], |input|))
  {
    PhasesTail(tr, chain, sts, phases);
    var next := ChainNext(tr, chain, sts, input);
    assert ShapedChain(chain[1..]);
    var mid := StepOut(tr, chain[0], sts[0], input);
    if k == 0 {
      PhaseStays(tr, chain[0], sts[0], phases[0], input);
    } else {
      PhasesStay(tr, chain[1..], sts[1..], phases[1..], mid, k - 1);
      assert next[k] == ChainNext(tr, chain[1..], sts[1..], mid)[k - 1];
    }
  }

  /** Whatever the chain holds, its phases stay matched. */
  lemma AllPhasesStay(tr: Trig, chain: seq<Step>, sts: seq<StepState>, phases: seq<real>, input: seq<Sample>)
    requires tr.Periodic() && ShapedChain(chain) && |chain| == |sts| == |phases| && PhasesMatch(tr, chain, sts, phases)
    ensures PhasesMatch(tr, chain, ChainNext(tr, chain, sts, input), NextPhases(tr, chain, phases, |input|))
  {
    forall k | 0 <= k < |chain|
      ensures PhaseMatches(tr, chain[k], ChainNext(tr, chain, sts, input)[k], NextPhases(tr, chain, phases, |input|)[k])
    {
      PhasesStay(tr, chain, sts, phases, input, k);
    }
  }

  // ---- One edge --------------------------------------------------------------------------------

  /** The edge's samples ahead of the table: its leading tdl done, or untouched. */
  function Head(c: Edge, input: seq<Sample>): (y: seq<Sample>)
    requires c.Shaped()
    ensures |y| == |input|
  {
    if LeadsWithTaps(c.chain) then Tdl.SlotOut(c.chain[0].taps, c.chain[0].poly, c.sts[0].line, input) else input
  }

  lemma UnitScale(tr: Trig, chain: seq<Step>, phases: seq<real>, idx: nat, v: Sample)
    requires |chain| == |phases| && LeadsWithTaps(chain)
    ensures ApplySteps(tr, BuildTable(chain, phases), idx, v) ==
            ApplySteps(tr, BuildTable(chain[1..], phases[1..]), idx, v)
  {
    TableTail(chain, phases);
    assert Scale(v, 1.0) == v;
  }

  lemma EdgeOutAgrees(tr: Trig, c: Edge, phases: seq<real>, input: seq<Sample>, idx: nat)
    requires tr.Periodic() && c.Shaped() && LeadingOnly(c.chain) && |phases| == |c.chain|
    requires PhasesMatch(tr, c.chain, c.sts, phases) && idx < |input|
    ensures ChainOut(tr, c.chain, c.sts, input)[idx] ==
            ApplySteps(tr, BuildTable(c.chain, phases), idx, Head(c, input)[idx])
  {
    if LeadsWithTaps(c.chain) {
      UnitScale(tr, c.chain, phases, idx, Head(c, input)[idx]);
      PhasesTail(tr, c.chain, c.sts, phases);
      ChainAgrees(tr, c.chain[1..], c.sts[1..], phases[1..], Head(c, input), idx);
    } else {
      ChainAgrees(tr, c.chain, c.sts, phases, input, idx);
    }
  }

  /** The samples the fused form feeds the table are the chain's own. */
  lemma StagedIsHead(tr: Trig, c: Edge, g: GpuNode, inputs: seq<seq<Sample>>, count: nat, k: nat)
    requires g.Shaped() && Fitting(g, inputs, count) && SharedInputs(g, inputs) && k < |inputs|
    requires EdgeMatches(tr, c, g.edges[k], g.useDevice)
    ensures EdgeStaged(g, inputs, count, k) == Head(c, inputs[k])
  {
    var e := g.edges[k];
    assert SourceOf(g, inputs, k) == inputs[k];
    if g.useDevice && !e.dev.hasTdl {
      TdlResponse.TransparentSlot(c.chain[0].taps, c.chain[0].poly, c.sts[0].line, inputs[k]);
    }
  }

  lemma HeadNext(tr: Trig, c: Edge, input: seq<Sample>)
    requires c.Shaped() && LeadsWithTaps(c.chain) && tr.turn > 0.0
    ensures ChainNext(tr, c.chain, c.sts, input)[0].line == Tdl.Roll(c.sts[0].line, input)
  {
  }

  lemma EdgeStays(tr: Trig, c: Edge, g: GpuNode, inputs: seq<seq<Sample>>, count: nat, k: nat)
    requires tr.Periodic() && g.Shaped() && Fitting(g, inputs, count) && SharedInputs(g, inputs) && k < |inputs|
    requires EdgeMatches(tr, c, g.edges[k], g.useDevice)
    ensures EdgeMatches(tr, Edge(c.chain, ChainNext(tr, c.chain, c.sts, inputs[k])),
                        NextEdge(tr, g, inputs, count, k), g.useDevice)
  {
    assert SourceOf(g, inputs, k) == inputs[k];
    AllPhasesStay(tr, c.chain, c.sts, g.edges[k].phases, inputs[k]);
    if LeadsWithTaps(c.chain) {
      HeadNext(tr, c, inputs[k]);
    }
  }

  // ---- One node ---------------------------------------------------------------------------------

  lemma {:induction false} MixSample(ys: seq<seq<Sample>>, count: nat, k: nat, idx: nat)
    requires forall j :: 0 <= j < |ys| ==> |ys[j]| == count
    requires k < |ys| && idx < count
    ensures Mix(ys[..k + 1], count)[idx] == Add(Mix(ys[..k], count)[idx], ys[k][idx])
  {
    assert ys[..k + 1][..k] == ys[..k];
  }

  lemma {:induction false} SumAgrees(tr: Trig, node: Node, g: GpuNode, inputs: seq<seq<Sample>>, count: nat, idx: nat, k: nat)
    requires tr.Periodic() && Matches(tr, node, g) && Aligned(node, inputs, count) && SharedInputs(g, inputs)
    requires idx < count && k <= |inputs|
    ensures FusedSum(tr, g, inputs, count, idx, k) == Mix(EdgeOuts(tr, node, inputs, count)[..k], count)[idx]
  {
    if k > 0 {
      var ys := EdgeOuts(tr, node, inputs, count);
      SumAgrees(tr, node, g, inputs, count, idx, k - 1);
      MixSample(ys, count, k - 1, idx);
      var c := node.edges[k - 1];
      assert EdgeMatches(tr, c, g.edges[k - 1], g.useDevice);
      StagedIsHead(tr, c, g, inputs, count, k - 1);
      EdgeOutAgrees(tr, c, g.edges[k - 1].phases, inputs[k - 1], idx);
    }
  }

  /** One serve: the fused pass produces exactly the plain loop's reply. */
  lemma FusedIsPlain(tr: Trig, node: Node, g: GpuNode, inputs: seq<seq<Sample>>, count: nat)
    requires tr.Periodic() && Matches(tr, node, g) && Aligned(node, inputs, count) && SharedInputs(g, inputs)
    ensures FusedOut(tr, g, inputs, count) == NodeOut(tr, node, inputs, count)
  {
    var ys := EdgeOuts(tr, node, inputs, count);
    var sum := Mix(ys, count);
    assert ys[..|inputs|] == ys;
    forall idx | 0 <= idx < count
      ensures FusedOut(tr, g, inputs, count)[idx] == NodeOut(tr, node, inputs, count)[idx]
    {
      SumAgrees(tr, node, g, inputs, count, idx, |inputs|);
      ChainAgrees(tr, g.rx, node.rx.sts, g.rxPhases, sum, idx);
    }
  }

  /** ... and leaves the two in matching states. */
  lemma MatchStays(tr: Trig, node: Node, g: GpuNode, inputs: seq<seq<Sample>>, count: nat)
    requires tr.Periodic() && Matches(tr, node, g) && Aligned(node, inputs, count) && SharedInputs(g, inputs)
    ensures Matches(tr, NodeNext(tr, node, inputs, count), FusedNext(tr, g, inputs, count))
  {
    var node', g' := NodeNext(tr, node, inputs, count), FusedNext(tr, g, inputs, count);
    forall k | 0 <= k < |inputs| ensures EdgeMatches(tr, node'.edges[k], g'.edges[k], g'.useDevice) {
      EdgeStays(tr, node.edges[k], g, inputs, count, k);
    }
    AllPhasesStay(tr, g.rx, node.rx.sts, g.rxPhases, Mix(EdgeOuts(tr, node, inputs, count), count));
  }

  /** Which edges share a source slot never changes. */
  lemma SharingStays(tr: Trig, g: GpuNode, inputs: seq<seq<Sample>>, count: nat, next: seq<seq<Sample>>)
    requires g.Shaped() && Fitting(g, inputs, count) && tr.turn > 0.0 && |next| == |inputs|
    ensures SharedInputs(FusedNext(tr, g, inputs, count), next) <==> SharedInputs(g, next)
  {
    var g' := FusedNext(tr, g, inputs, count);
    assert forall k :: 0 <= k < |inputs| ==> g'.edges[k].dev.src == g.edges[k].dev.src;
    assert forall k :: 0 <= k < |inputs| ==> SourceOf(g', next, k) == SourceOf(g, next, k);
  }

  // ---- What fits on the device ----------------------------------------------------------------

  /** The device can run the edge's tdl, or may leave it out. */
  ghost predicate DeviceCan(c: Edge)
    requires c.Shaped() && LeadsWithTaps(c.chain)
  {
    Fits(c.chain[0].taps, c.sts[0].line) || TdlResponse.Transparent(c.chain[0].taps, c.chain[0].poly)
  }

  ghost predicate RunsOnDevice(node: Node)
    requires node.Shaped()
  {
    && PerSample(node.rx.chain)
    && (forall k :: 0 <= k < |node.edges| ==> LeadingOnly(node.edges[k].chain))
    && ((forall k :: 0 <= k < |node.edges| ==> LeadsWithTaps(node.edges[k].chain)) ==>
        forall k :: 0 <= k < |node.edges| ==> DeviceCan(node.edges[k]))
  }

  ghost predicate ZeroPhases(e: Edge) {
    forall k :: 0 <= k < |e.sts| ==> e.sts[k].phase == 0.0
  }

  lemma ZeroPhasesMatch(tr: Trig, e: Edge)
    requires e.Shaped() && ZeroPhases(e)
    ensures PhasesMatch(tr, e.chain, e.sts, AtRest(|e.chain|))
  {
    Reflexive(tr, 0.0);
  }

  lemma PreparedMatches(tr: Trig, node: Node, src: seq<nat>, firstEdge: seq<nat>)
    requires node.Shaped() && RunsOnDevice(node) && ZeroPhases(node.rx)
    requires forall k :: 0 <= k < |node.edges| ==> ZeroPhases(node.edges[k])
    requires |src| == |node.edges| && (forall k :: 0 <= k < |src| ==> src[k] < |firstEdge|)
    requires forall n :: 0 <= n < |firstEdge| ==> firstEdge[n] < |src|
    ensures Matches(tr, node, Prepared(node, src, firstEdge))
  {
    var g := Prepared(node, src, firstEdge);
    forall k | 0 <= k < |src| ensures EdgeMatches(tr, node.edges[k], g.edges[k], g.useDevice) {
      ZeroPhasesMatch(tr, node.edges[k]);
    }
    ZeroPhasesMatch(tr, node.rx);
  }

  // ---- An edge's stream through the device -------------------------------------------------------

  function DevAfter(d: DevLink, slots: seq<seq<Sample>>): (d': DevLink)
    requires d.Shaped()
    ensures d'.Shaped() && d'.hasTdl == d.hasTdl
  {
    if slots == [] then d else NextDevLink(DevAfter(d, slots[..|slots| - 1]), slots[|slots| - 1])
  }

  function DevStream(d: DevLink, slots: seq<seq<Sample>>): (y: seq<Sample>)
    requires d.Shaped()
  {
    if slots == [] then []
    else DevStream(d, slots[..|slots| - 1]) + Staged(DevAfter(d, slots[..|slots| - 1]), slots[|slots| - 1])
  }

  lemma {:induction false} DevRuns(d: DevLink, slots: seq<seq<Sample>>)
    requires d.Shaped() && d.hasTdl
    ensures DevAfter(d, slots) == d.(line := TdlStream.StreamLine(d.line, slots))
    ensures DevStream(d, slots) == TdlStream.StreamOut(d.taps, d.poly, d.line, slots)
  {
    if slots != [] {
      DevRuns(d, slots[..|slots| - 1]);
    }
  }

  lemma {:induction false} DevPasses(d: DevLink, taps: seq<Tdl.Tap>, poly: seq<seq<real>>, line: seq<Sample>, slots: seq<seq<Sample>>)
    requires d.Shaped() && !d.hasTdl && Tdl.Shaped(taps, poly) && TdlResponse.Transparent(taps, poly)
    ensures DevAfter(d, slots) == d
    ensures DevStream(d, slots) == TdlStream.StreamOut(taps, poly, line, slots)
  {
    if slots != [] {
      var rest := slots[..|slots| - 1];
      DevPasses(d, taps, poly, line, rest);
      TdlResponse.TransparentSlot(taps, poly, TdlStream.StreamLine(line, rest), slots[|slots| - 1]);
    }
  }

  ghost predicate DeviceExact(taps: seq<Tdl.Tap>, poly: seq<seq<real>>, r: nat)
    requires Tdl.Shaped(taps, poly)
  {
    forall slots ::
      DevStream(BuildDevLink(Taps(taps, poly), Zeros(r), 0), slots) == TdlStream.StreamOut(taps, poly, Zeros(r), slots)
  }

  lemma OneSlot(taps: seq<Tdl.Tap>, poly: seq<seq<real>>, line: seq<Sample>, d: DevLink, input: seq<Sample>)
    requires Tdl.Shaped(taps, poly) && d.Shaped()
    ensures DevStream(d, [input]) == Staged(d, input)
    ensures TdlStream.StreamOut(taps, poly, line, [input]) == Tdl.SlotOut(taps, poly, line, input)
  {
    assert [input][..0] == [];
    assert DevStream(d, []) == [] && TdlStream.StreamOut(taps, poly, line, []) == [];
  }

  lemma FitsIsExact(taps: seq<Tdl.Tap>, poly: seq<seq<real>>, r: nat)
    requires Tdl.Shaped(taps, poly) && Fits(taps, Zeros(r))
    ensures DeviceExact(taps, poly, r)
  {
    var d := BuildDevLink(Taps(taps, poly), Zeros(r), 0);
    hide Tdl.Shaped, Zeros;
    forall slots ensures DevStream(d, slots) == TdlStream.StreamOut(taps, poly, Zeros(r), slots) {
      DevRuns(d, slots);
    }
  }

  lemma IdleIsExact(taps: seq<Tdl.Tap>, poly: seq<seq<real>>, r: nat)
    requires Tdl.Shaped(taps, poly) && !Fits(taps, Zeros(r)) && TdlResponse.Transparent(taps, poly)
    ensures DeviceExact(taps, poly, r)
  {
    var d := BuildDevLink(Taps(taps, poly), Zeros(r), 0);
    assert d.Shaped() && !d.hasTdl;
    hide Tdl.Shaped, Zeros, TdlResponse.Transparent;
    forall slots ensures DevStream(d, slots) == TdlStream.StreamOut(taps, poly, Zeros(r), slots) {
      DevPasses(d, taps, poly, Zeros(r), slots);
    }
  }

  lemma WireAt(taps: seq<Tdl.Tap>, poly: seq<seq<real>>, r: nat, input: seq<Sample>)
    requires Tdl.Shaped(taps, poly) && !Fits(taps, Zeros(r)) && Tdl.SlotOut(taps, poly, Zeros(r), input) != input
    ensures !DeviceExact(taps, poly, r)
  {
    var d := BuildDevLink(Taps(taps, poly), Zeros(r), 0);
    assert d.Shaped() && !d.hasTdl && Staged(d, input) == input;
    hide Tdl.Shaped, Tdl.SlotOut, TdlStream.StreamOut, DevStream, Staged, Fits, BuildDevLink;
    OneSlot(taps, poly, Zeros(r), d, input);
    assert DevStream(d, [input]) != TdlStream.StreamOut(taps, poly, Zeros(r), [input]);
  }

  lemma WireIsInexact(taps: seq<Tdl.Tap>, poly: seq<seq<real>>, r: nat)
    requires Tdl.Shaped(taps, poly) && Tdl.Covers(taps, r) && !Fits(taps, Zeros(r))
    requires !TdlResponse.Transparent(taps, poly)
    ensures !DeviceExact(taps, poly, r)
  {
    hide *;
    TdlResponse.OpaqueChanges(taps, poly, r);
    var input :| Tdl.SlotOut(taps, poly, Zeros(r), input) != input;
    WireAt(taps, poly, r, input);
  }

  /** The device runs a tdl right for every stream and every cut of it precisely when the
      struct is large enough, or the tdl does nothing at all: a builder that gives up
      leaves a plain wire behind. */
  lemma DeviceExactly(taps: seq<Tdl.Tap>, poly: seq<seq<real>>, r: nat)
    requires Tdl.Shaped(taps, poly) && Tdl.Covers(taps, r)
    ensures DeviceExact(taps, poly, r) <==> Fits(taps, Zeros(r)) || TdlResponse.Transparent(taps, poly)
  {
    hide DeviceExact, TdlResponse.Transparent;
    if Fits(taps, Zeros(r)) {
      FitsIsExact(taps, poly, r);
    } else if TdlResponse.Transparent(taps, poly) {
      IdleIsExact(taps, poly, r);
    } else {
      WireIsInexact(taps, poly, r);
    }
  }

  /** A single unit tap 121 samples late already needs a ring of 129: the device then
      passes the signal through undelayed. */
  lemma TooFarForDevice(sinc: real -> seq<real>)
    requires sinc(0.0) == [0.0, 0.0, 0.0, 1.0, 0.0, 0.0, 0.0, 0.0]
    ensures var taps := [Tdl.Tap(121.0, 1.0, TdlResponse.ONE)];
            var poly := Tdl.Polyphase(taps, sinc);
            Tdl.Shaped(taps, poly) && Tdl.RingSize(taps) == 129 && !DeviceExact(taps, poly, Tdl.RingSize(taps))
  {
    var taps := [Tdl.Tap(121.0, 1.0, TdlResponse.ONE)];
    var poly := Tdl.Polyphase(taps, sinc);
    UnitTap(taps, poly);
    assert taps[..0] == [] && Tdl.MaxDelay([]) == 0.0 && Tdl.MaxDelay(taps) == 121.0;
    DeviceExactly(taps, poly, Tdl.RingSize(taps));
  }

  /** The tap says nothing at the instant its input arrives. */
  lemma LateTapSilent(taps: seq<Tdl.Tap>, poly: seq<seq<real>>)
    requires Tdl.Shaped(taps, poly) && |taps| == 1 && taps[0].Whole() == 121
    ensures TdlResponse.Response(taps, poly, 0) == ZERO
  {
    hide Tdl.Conv, Add, Scale, Rotate;
    TdlStream.ConvAgrees(TdlResponse.Pulse(0, TdlResponse.ONE), TdlResponse.Pulse(0, ZERO), taps, poly, 0, 0, 1);
    TdlResponse.PulseOut(taps, poly, 0, ZERO, 0);
    TdlResponse.AddSilence(TdlResponse.Response(taps, poly, 0));
  }

  lemma UnitTap(taps: seq<Tdl.Tap>, poly: seq<seq<real>>)
    requires taps == [Tdl.Tap(121.0, 1.0, TdlResponse.ONE)]
    requires poly == [[0.0, 0.0, 0.0, 1.0, 0.0, 0.0, 0.0, 0.0]]
    ensures Tdl.Shaped(taps, poly) && !TdlResponse.Transparent(taps, poly)
  {
    LateTapSilent(taps, poly);
    hide TdlResponse.Response;
    assert TdlResponse.Pulse(0, TdlResponse.ONE)(0) != ZERO;
  }
}

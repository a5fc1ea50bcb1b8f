/**
 A freshly prepared node under control writes: exactly when the CUDA backend sends what the CPU backend
 sends, over every run in which any link's parameters and profile may be rewritten between serves.  The
 receiver is not written to: the CUDA backend gives it no control (src/cuda_backend.cu:394-405, 477-483).
 */
module ControlledNode {
  import opened Iq
  import opened Phase
  import opened Chain
  import opened RuntimeControl
  import opened CpuLinks
  import opened Fused
  import opened FusedProof
  import opened DeviceSwap
  import opened EndToEnd
  import opened Receiver
  import opened Configured
  import opened LeadChains
  import opened ControlledRun
  import NodesAgree
  import Tdl
  import TdlResponse

  // ---- Preparing -------------------------------------------------------------------------------------

  /** The links run on the device: each starts with its only tdl. */
  predicate Leading(configs: seq<seq<ModelStep>>) {
    forall k :: 0 <= k < |configs| ==> SaneChain(configs[k]) && Leads(configs[k]) && OnlyLeads(configs[k])
  }

  /** The device struct has room for the link's configured tdl. */
  predicate Held(ph: Physics, chain: seq<ModelStep>)
    requires Leads(chain)
  {
    1 <= |chain[0].taps| <= MAX_TAPS && Tdl.RingSize(ph.TapsOf(chain[0].taps)) <= MAX_LINE
  }

  predicate AllHeld(ph: Physics, configs: seq<seq<ModelStep>>)
    requires Leading(configs)
  {
    forall k :: 0 <= k < |configs| ==> Held(ph, configs[k])
  }

  function FreshCuda(ph: Physics, rate: nat, chain: seq<ModelStep>, src: nat): CudaLink
    requires Leads(chain)
  {
    var c := FreshOf(LinkChain(ph, rate, chain));
    CudaLink(Untouched(YamlParams(chain)), AtRest(|chain|), BuildDevLink(c.chain[0], c.sts[0].line, src))
  }

  function OnCpu(ph: Physics, configs: seq<seq<ModelStep>>): (ls: seq<LinkValue>)
    ensures |ls| == |configs| && forall k :: 0 <= k < |configs| ==> ls[k] == FreshLink(ph, configs[k])
  {
    seq(|configs|, k requires 0 <= k < |configs| => FreshLink(ph, configs[k]))
  }

  function OnCuda(ph: Physics, rate: nat, configs: seq<seq<ModelStep>>): (es: seq<CudaLink>)
    requires Leading(configs)
    ensures |es| == |configs| && forall k :: 0 <= k < |configs| ==> es[k] == FreshCuda(ph, rate, configs[k], k)
  {
    seq(|configs|, k requires 0 <= k < |configs| => FreshCuda(ph, rate, configs[k], k))
  }

  /** The leading tdl is prepared with its own taps over a ring of their size. */
  lemma LeadIs(ph: Physics, rate: nat, chain: seq<ModelStep>)
    requires Leads(chain)
    ensures LinkChain(ph, rate, chain)[0] == ph.TdlOf(chain[0].taps)
    ensures FreshLink(ph, chain).sts[0].line == Zeros(Tdl.RingSize(ph.TapsOf(chain[0].taps)))
    ensures FreshOf(LinkChain(ph, rate, chain)).sts[0].line == FreshLink(ph, chain).sts[0].line
  {
    FreshUsesOwnTaps(ph, rate, chain, Untouched(YamlParams(chain)));
  }

  lemma FreshUsable(ph: Physics, rate: nat, chain: seq<ModelStep>, src: nat)
    requires ph.Valid() && SaneChain(chain) && Leads(chain)
    ensures Usable(ph, chain, FreshCuda(ph, rate, chain, src)) && SaneVars(FreshLink(ph, chain).vars)
    ensures FreshCuda(ph, rate, chain, src).dev.hasTdl <==> Held(ph, chain)
  {
    YamlSane(chain);
    LeadIs(ph, rate, chain);
    FreshResolvedShaped(ph, rate, chain);
    assert LinkChain(ph, rate, chain)[0].Shaped();
  }

  lemma FreshTwofold(ph: Physics, rate: nat, chain: seq<ModelStep>, src: nat)
    requires ph.Valid() && SaneChain(chain) && Leads(chain) && OnlyLeads(chain) && Held(ph, chain)
    ensures Twofold(ph, chain, FreshLink(ph, chain), FreshCuda(ph, rate, chain, src))
  {
    hide Tdl.RingSize, Tdl.Polyphase;
    LeadIs(ph, rate, chain);
    Reflexive(ph.tr, 0.0);
  }

  lemma AllFresh(ph: Physics, rate: nat, configs: seq<seq<ModelStep>>)
    requires ph.Valid() && Leading(configs)
    ensures AllSane(ph, configs, OnCpu(ph, configs)) && AllUsable(ph, configs, OnCuda(ph, rate, configs))
    ensures AllHeld(ph, configs) ==> AllTwofold(ph, configs, OnCpu(ph, configs), OnCuda(ph, rate, configs))
  {
    hide Usable, Twofold, Held, SaneVars, SaneChain, OnlyLeads, Leads, FreshCuda, FreshLink;
    forall k | 0 <= k < |configs|
      ensures Usable(ph, configs[k], OnCuda(ph, rate, configs)[k]) && SaneVars(OnCpu(ph, configs)[k].vars)
      ensures AllHeld(ph, configs) ==> Twofold(ph, configs[k], OnCpu(ph, configs)[k], OnCuda(ph, rate, configs)[k])
    {
      FreshUsable(ph, rate, configs[k], k);
      if AllHeld(ph, configs) {
        FreshTwofold(ph, rate, configs[k], k);
      }
    }
    FreshSizes(ph, configs);
  }

  lemma FreshSizes(ph: Physics, configs: seq<seq<ModelStep>>)
    ensures forall k :: 0 <= k < |configs| ==> |OnCpu(ph, configs)[k].sts| == |configs[k]|
  {
  }

  // ---- The receiver, serve by serve --------------------------------------------------------------------

  /** A chain's state after slots `xs`, and all it sends. */
  function RxAfter(tr: Trig, rx: Edge, xs: seq<seq<Sample>>): (rx': Edge)
    requires tr.turn > 0.0 && rx.Shaped()
    ensures rx'.Shaped() && rx'.chain == rx.chain
  {
    if xs == [] then rx
    else
      var before := RxAfter(tr, rx, xs[..|xs| - 1]);
      Edge(rx.chain, ChainNext(tr, rx.chain, before.sts, xs[|xs| - 1]))
  }

  function RxSent(tr: Trig, rx: Edge, xs: seq<seq<Sample>>): seq<Sample>
    requires tr.turn > 0.0 && rx.Shaped()
  {
    if xs == [] then []
    else
      var rest := xs[..|xs| - 1];
      RxSent(tr, rx, rest) + ChainOut(tr, rx.chain, RxAfter(tr, rx, rest).sts, xs[|xs| - 1])
  }

  /** The same through a step table. */
  function PhasesAfter(tr: Trig, chain: seq<Step>, phases: seq<real>, xs: seq<seq<Sample>>): (p: seq<real>)
    requires tr.turn > 0.0 && |phases| == |chain|
    ensures |p| == |chain|
  {
    if xs == [] then phases
    else NextPhases(tr, chain, PhasesAfter(tr, chain, phases, xs[..|xs| - 1]), |xs[|xs| - 1]|)
  }

  function TableSent(tr: Trig, chain: seq<Step>, phases: seq<real>, xs: seq<seq<Sample>>): seq<Sample>
    requires tr.turn > 0.0 && |phases| == |chain|
  {
    if xs == [] then []
    else
      var rest := xs[..|xs| - 1];
      TableSent(tr, chain, phases, rest) +
      TableOut(tr, BuildTable(chain, PhasesAfter(tr, chain, phases, rest)), xs[|xs| - 1])
  }

  lemma {:induction false} RxIsWhole(tr: Trig, rx: Edge, xs: seq<seq<Sample>>)
    requires tr.Periodic() && tr.turn > 0.0 && FreshEdge(rx) && PerSample(rx.chain)
    ensures RxSent(tr, rx, xs) == WholeChain(tr, rx.chain, Flatten(xs))
    ensures CaughtUp(tr, rx.chain, RxAfter(tr, rx, xs).sts, Flatten(xs))
  {
    hide Trig.Periodic, WholeChain, CaughtUp, ChainOut, ChainNext, FreshStep, PerSample, ShapedChain;
    if xs == [] {
      FreshIsCaughtUp(tr, rx.chain, rx.sts);
      NothingOut(tr, rx.chain);
    } else {
      var rest := xs[..|xs| - 1];
      RxIsWhole(tr, rx, rest);
      PerSampleCausal(rx.chain);
      ChainContinues(tr, rx.chain, RxAfter(tr, rx, rest).sts, Flatten(rest), xs[|xs| - 1]);
    }
  }

  lemma {:induction false} TableIsRx(tr: Trig, rx: Edge, phases: seq<real>, xs: seq<seq<Sample>>)
    requires tr.Periodic() && tr.turn > 0.0 && rx.Shaped() && PerSample(rx.chain) && |phases| == |rx.chain|
    requires PhasesMatch(tr, rx.chain, rx.sts, phases)
    ensures TableSent(tr, rx.chain, phases, xs) == RxSent(tr, rx, xs)
    ensures PhasesMatch(tr, rx.chain, RxAfter(tr, rx, xs).sts, PhasesAfter(tr, rx.chain, phases, xs))
  {
    hide Trig.Periodic, ChainOut, ChainNext, PerSample, ShapedChain, PhasesMatch, BuildTable, NextPhases, ApplySteps;
    if xs != [] {
      var rest, last := xs[..|xs| - 1], xs[|xs| - 1];
      TableIsRx(tr, rx, phases, rest);
      var now, p := RxAfter(tr, rx, rest), PhasesAfter(tr, rx.chain, phases, rest);
      AllPhasesStay(tr, rx.chain, now.sts, p, last);
      forall i | 0 <= i < |last|
        ensures TableOut(tr, BuildTable(rx.chain, p), last)[i] == ChainOut(tr, rx.chain, now.sts, last)[i]
      {
        ChainAgrees(tr, rx.chain, now.sts, p, last, i);
      }
    }
  }

  lemma FreshRx(tr: Trig, chain: seq<Step>)
    requires PerSample(chain)
    ensures FreshEdge(FreshOf(chain)) && PhasesMatch(tr, chain, FreshOf(chain).sts, AtRest(|chain|))
  {
    PerSampleCausal(chain);
    FreshOfIsFresh(chain);
    NodesAgree.RestMatches(tr, chain);
  }

  // ---- What both backends send ----------------------------------------------------------------------------

  ghost function CpuSent(ph: Physics, rate: nat, configs: seq<seq<ModelStep>>, receiver: seq<ModelStep>, run: seq<Slot>): seq<Sample>
    requires ph.Valid() && Leading(configs) && NoTdl(receiver) && AllWritten(configs, run)
  {
    AllFresh(ph, rate, configs);
    ReceiversPerSample(ph, rate, receiver);
    FreshRx(ph.tr, LinkChain(ph, rate, receiver));
    RxSent(ph.tr, FreshOf(LinkChain(ph, rate, receiver)), CpuSums(ph, rate, configs, OnCpu(ph, configs), run))
  }

  ghost function CudaSent(ph: Physics, rate: nat, configs: seq<seq<ModelStep>>, receiver: seq<ModelStep>, run: seq<Slot>): seq<Sample>
    requires ph.Valid() && Leading(configs) && AllWritten(configs, run)
  {
    AllFresh(ph, rate, configs);
    TableSent(ph.tr, BareChain(ph, rate, receiver), AtRest(|receiver|), CudaSums(ph, rate, configs, OnCuda(ph, rate, configs), run))
  }

  /** Each sends its receiver's chain on its own whole stream of sums. */
  lemma SentIs(ph: Physics, rate: nat, configs: seq<seq<ModelStep>>, receiver: seq<ModelStep>, run: seq<Slot>)
    requires ph.Valid() && ph.tr.Periodic() && Leading(configs) && NoTdl(receiver) && AllWritten(configs, run)
    ensures AllSane(ph, configs, OnCpu(ph, configs)) && AllUsable(ph, configs, OnCuda(ph, rate, configs))
    ensures ShapedChain(LinkChain(ph, rate, receiver)) && ShapedChain(BareChain(ph, rate, receiver))
    ensures CpuSent(ph, rate, configs, receiver, run) ==
            WholeChain(ph.tr, LinkChain(ph, rate, receiver), Flatten(CpuSums(ph, rate, configs, OnCpu(ph, configs), run)))
    ensures CudaSent(ph, rate, configs, receiver, run) ==
            WholeChain(ph.tr, BareChain(ph, rate, receiver), Flatten(CudaSums(ph, rate, configs, OnCuda(ph, rate, configs), run)))
  {
    hide AllSane, AllUsable, Leading, AllWritten, CpuSums, CudaSums, PerSample, Trig.Periodic, FreshEdge, PhasesMatch, WholeChain,
         RxSent, TableSent, LinkChain, BareChain, NoTdl;
    AllFresh(ph, rate, configs);
    ReceiversPerSample(ph, rate, receiver);
    FreshRx(ph.tr, LinkChain(ph, rate, receiver));
    FreshRx(ph.tr, BareChain(ph, rate, receiver));
    ShapedFresh(LinkChain(ph, rate, receiver));
    ShapedFresh(BareChain(ph, rate, receiver));
    RxIsWhole(ph.tr, FreshOf(LinkChain(ph, rate, receiver)), CpuSums(ph, rate, configs, OnCpu(ph, configs), run));
    var sums := CudaSums(ph, rate, configs, OnCuda(ph, rate, configs), run);
    RxIsWhole(ph.tr, FreshOf(BareChain(ph, rate, receiver)), sums);
    TableIsRx(ph.tr, FreshOf(BareChain(ph, rate, receiver)), AtRest(|receiver|), sums);
  }

  lemma ShapedFresh(chain: seq<Step>)
    requires PerSample(chain)
    ensures ShapedChain(chain) && FreshOf(chain).Shaped() && FreshOf(chain).chain == chain
  {
  }

  // ---- When they send the same ------------------------------------------------------------------------------

  /** Whatever is served and whatever is written to the links meanwhile, both send the same. */
  ghost predicate AlikeUnderControl(ph: Physics, rate: nat, configs: seq<seq<ModelStep>>, receiver: seq<ModelStep>)
    requires ph.Valid() && Leading(configs) && NoTdl(receiver)
  {
    forall run :: AllWritten(configs, run) ==> CudaSent(ph, rate, configs, receiver, run) == CpuSent(ph, rate, configs, receiver, run)
  }

  lemma HeldAlike(ph: Physics, rate: nat, configs: seq<seq<ModelStep>>, receiver: seq<ModelStep>, run: seq<Slot>)
    requires ph.Valid() && Physical(ph) && Leading(configs) && NoTdl(receiver) && AsksNothing(rate, receiver)
    requires AllHeld(ph, configs) && AllWritten(configs, run)
    ensures CudaSent(ph, rate, configs, receiver, run) == CpuSent(ph, rate, configs, receiver, run)
  {
    hide AllSane, AllUsable, AllTwofold, Leading, AllHeld, AllWritten, CpuSums, CudaSums, Trig.Periodic, WholeChain, LinkChain,
         BareChain, NoTdl, CpuSent, CudaSent, AsksNothing, Physical, Circular;
    Parts(ph);
    RotatesPeriodically(ph.tr);
    AllFresh(ph, rate, configs);
    SentIs(ph, rate, configs, receiver, run);
    ControlledSums(ph, rate, configs, OnCpu(ph, configs), OnCuda(ph, rate, configs), run);
    ReceiversAgreeExactly(ph, rate, receiver);
    var x := Flatten(CpuSums(ph, rate, configs, OnCpu(ph, configs), run));
    assert WholeChain(ph.tr, LinkChain(ph, rate, receiver), x) == WholeChain(ph.tr, BareChain(ph, rate, receiver), x);
  }

  // ---- A struct without room --------------------------------------------------------------------------------

  /** The first sample after preparation, whatever has been written by then: both tables weigh it alike. */
  lemma FirstSample(ph: Physics, rate: nat, chain: seq<ModelStep>, src: nat, c: View, v: Sample) returns (w: Sample)
    requires ph.Valid() && Physical(ph) && SaneChain(chain) && Leads(chain) && OnlyLeads(chain) && SaneView(c)
    ensures var l, e := FreshLink(ph, chain), FreshCuda(ph, rate, chain, src);
      && SaneLink(ph, chain, l, c) && Usable(ph, chain, e) && DeviceBegun(ph, e.dev, e.vars, c).Shaped() && w != ZERO
      && var now := EdgeNow(ph, rate, chain, l, c, 1);
      && ChainOut(ph.tr, now.chain, now.sts, [v])[0] == Rotate(Head(now, [v])[0], w)
      && CudaOut(ph, rate, chain, e, c, [v])[0] == Rotate(Staged(DeviceBegun(ph, e.dev, e.vars, c), [v])[0], w)
  {
    hide Physical, Circular, Trig.Periodic, Coefficient, Rotate, ApplySteps, ChainOut, ChainNext, Back, Head, Tdl.SlotOut, FreshLink,
         BuildTable, ResolveAll, PhasesMatch, SaneChain, SaneView, Factor, ShapedChain, Staged, LeadingOnly, FreshCuda, BuildDevLink;
    var l, e := FreshLink(ph, chain), FreshCuda(ph, rate, chain, src);
    Parts(ph);
    RotatesPeriodically(ph.tr);
    FreshUsable(ph, rate, chain, src);
    BegunUsable(ph, chain, e, c, 1);
    var b, now := CudaBegun(ph, chain, e, c, 1), EdgeNow(ph, rate, chain, l, c, 1);
    FreshRest(ph, rate, chain, src, c);
    OneTable(ph, rate, chain, src, c);
    BegunSane(ph, chain, l, c, 1);
    w := Coefficient(ph.tr, Back(now.chain), 0);
    EdgeOutAgrees(ph.tr, now, AtRest(|chain|), [v], 0);
    TableFactor(ph, rate, chain, Begun(chain, l, c, 1).vars, Head(now, [v])[0]);
    TableFactor(ph, rate, chain, Begun(chain, l, c, 1).vars, Staged(b.dev, [v])[0]);
    LossesCount(ph, rate, chain, Begun(chain, l, c, 1).vars);
  }

  lemma TableFactor(ph: Physics, rate: nat, chain: seq<ModelStep>, v: LinkVars, x: Sample)
    requires ph.Valid() && Physical(ph) && SaneChain(chain) && OnlyLeads(chain) && SaneVars(v)
    ensures var r := ResolveAll(ph, rate, chain, v);
      && ShapedChain(r) && LeadingOnly(r)
      && ApplySteps(ph.tr, BuildTable(r, AtRest(|r|)), 0, x) == Rotate(x, Coefficient(ph.tr, Back(r), 0))
  {
    hide Circular, Trig.Periodic, Coefficient, Rotate, ApplySteps, BuildTable, Back;
    Parts(ph);
    RotatesPeriodically(ph.tr);
    ResolvedShaped(ph, rate, chain, v);
    NodesAgree.TableFactor(ph.tr, ResolveAll(ph, rate, chain, v), 0, x);
  }

  lemma LossesCount(ph: Physics, rate: nat, chain: seq<ModelStep>, v: LinkVars)
    requires Physical(ph)
    ensures Coefficient(ph.tr, Back(ResolveAll(ph, rate, chain, v)), 0) != ZERO
  {
    hide Circular, Coefficient, Factor, Back;
    NodesAgree.LossesPositive(ph);
    NodesAgree.ResolvedNonzero(ph, rate, chain, v);
    NodesAgree.BackFactor(ResolveAll(ph, rate, chain, v));
    CoefficientNonzero(ph.tr, Back(ResolveAll(ph, rate, chain, v)), 0);
  }

  /** Oscillators are at rest when the first slot starts. */
  lemma FreshRest(ph: Physics, rate: nat, chain: seq<ModelStep>, src: nat, c: View)
    requires Leads(chain) && SaneLink(ph, chain, FreshLink(ph, chain), c)
    ensures var now := EdgeNow(ph, rate, chain, FreshLink(ph, chain), c, 1); PhasesMatch(ph.tr, now.chain, now.sts, AtRest(|chain|))
    ensures FreshCuda(ph, rate, chain, src).phases == AtRest(|chain|)
  {
    hide FreshStepState, ResolveAll, SlotBegin;
    Reflexive(ph.tr, 0.0);
    BegunPhases(chain, FreshLink(ph, chain), c, 1);
    assert forall k :: 0 <= k < |chain| ==> FreshLink(ph, chain).sts[k].phase == 0.0 by {
      forall k | 0 <= k < |chain| ensures FreshStepState(ph, chain[k]).phase == 0.0 {
        AtPhaseZero(ph, chain[k]);
      }
    }
  }

  lemma AtPhaseZero(ph: Physics, step: ModelStep)
    ensures FreshStepState(ph, step).phase == 0.0
  {
  }

  /** Both backends build the slot's steps from the same parameters. */
  lemma OneTable(ph: Physics, rate: nat, chain: seq<ModelStep>, src: nat, c: View)
    requires Leads(chain)
    ensures var b := CudaBegun(ph, chain, FreshCuda(ph, rate, chain, src), c, 1);
      && |b.phases| == |chain| && b.phases == AtRest(|chain|)
      && CudaTable(ph, rate, chain, b) ==
         BuildTable(ResolveAll(ph, rate, chain, Begun(chain, FreshLink(ph, chain), c, 1).vars), AtRest(|chain|))
  {
    hide BuildTable, ResolveAll, CudaTable, DeviceBegun, BuildDevLink, FreshStepState, FreshOf;
    var b := CudaBegun(ph, chain, FreshCuda(ph, rate, chain, src), c, 1);
    SameTable(ph, rate, chain, b);
    SameChain(ph, rate, chain, b.vars, Begun(chain, FreshLink(ph, chain), c, 1).vars);
  }

  /** A profile of one tap, written at once. */
  function Swap(chain: seq<ModelStep>, gainDb: real): View {
    View(YamlParams(chain), Profile([TapSpec(0.0, gainDb, 0.0, false, 0.0, 0.0)], Fading(false, 0.0, 100.0), false), true, 0, 1)
  }

  /** Nothing written. */
  function Unwritten(chain: seq<ModelStep>): View {
    View(YamlParams(chain), NO_PROFILE, false, 0, 0)
  }

  /** What one tap's filter makes of a lone unit sample. */
  function Tone(ph: Physics, r: nat): Sample
    requires |ph.sinc(0.0)| == Tdl.FILTER
  {
    Tdl.Filter(m => Tdl.Read(Zeros(r), [TdlResponse.ONE], m), ph.sinc(0.0), 0, Tdl.FILTER)
  }

  lemma OneTapOut(ph: Physics, r: nat, g: real)
    requires ph.Valid() && ph.tr.rot(0.0) == TdlResponse.ONE
    ensures var s := ph.TdlOf([TapSpec(0.0, g, 0.0, false, 0.0, 0.0)]);
      s.Shaped() && Tdl.SlotOut(s.taps, s.poly, Zeros(r), [TdlResponse.ONE])[0] == Scale(Tone(ph, r), ph.linear(g))
  {
    var s := ph.TdlOf([TapSpec(0.0, g, 0.0, false, 0.0, 0.0)]);
    assert s.taps[0].Whole() == 0 && s.poly[0] == ph.sinc(0.0);
    hide Tdl.Filter, Scale, Rotate;
    Conv1(m => Tdl.Read(Zeros(r), [TdlResponse.ONE], m), s.taps, s.poly);
    TdlResponse.Units(Tone(ph, r));
    TdlResponse.Units(Scale(Tone(ph, r), ph.linear(g)));
  }

  lemma Conv1(f: Tdl.Signal, taps: seq<Tdl.Tap>, poly: seq<seq<real>>)
    requires Tdl.Shaped(taps, poly) && |taps| == 1 && taps[0].Whole() == 0
    ensures Tdl.Conv(f, taps, poly, 0, 1) == Add(ZERO, Tdl.TapOut(Tdl.Filter(f, poly[0], 0, Tdl.FILTER), taps[0]))
  {
    TdlResponse.ConvNone(f, taps, poly, 0);
  }

  /** The CPU link runs a profile from the slot it arrives in. */
  lemma SwapHeard(ph: Physics, rate: nat, chain: seq<ModelStep>, g: real)
    requires ph.Valid() && Physical(ph) && Leads(chain) && SaneLink(ph, chain, FreshLink(ph, chain), Swap(chain, g))
    ensures Head(EdgeNow(ph, rate, chain, FreshLink(ph, chain), Swap(chain, g), 1), [TdlResponse.ONE])[0] ==
            Scale(Tone(ph, Tdl.RingSize(ph.TapsOf(chain[0].taps))), ph.linear(g))
  {
    hide Physical, Circular, Tdl.SlotOut, Tdl.RingSize, Scale, Tone, YamlParams;
    Parts(ph);
    Receiver.AtZero(ph.tr);
    LeadIs(ph, rate, chain);
    assert FirstTdl(chain) == 0;
    OneTapOut(ph, Tdl.RingSize(ph.TapsOf(chain[0].taps)), g);
  }

  /** Without room the device is a wire, whatever is written. */
  lemma Unheld(ph: Physics, rate: nat, chain: seq<ModelStep>, src: nat, c: View, v: Sample)
    requires ph.Valid() && SaneChain(chain) && Leads(chain) && !Held(ph, chain)
    ensures var e := FreshCuda(ph, rate, chain, src);
      !DeviceBegun(ph, e.dev, e.vars, c).hasTdl && Staged(DeviceBegun(ph, e.dev, e.vars, c), [v])[0] == v
  {
    hide Held, FreshCuda;
    FreshUsable(ph, rate, chain, src);
    WireStaysWire(ph, FreshCuda(ph, rate, chain, src).dev, FreshCuda(ph, rate, chain, src).vars, c);
  }

  /** A link that hears nothing sends nothing. */
  lemma SilentLink(ph: Physics, rate: nat, chain: seq<ModelStep>, src: nat)
    requires ph.Valid() && Physical(ph) && SaneChain(chain) && Leads(chain) && OnlyLeads(chain)
    ensures SaneView(Unwritten(chain))
    ensures var l, e, c := FreshLink(ph, chain), FreshCuda(ph, rate, chain, src), Unwritten(chain);
      && SaneLink(ph, chain, l, c) && Usable(ph, chain, e)
      && var now := EdgeNow(ph, rate, chain, l, c, 1);
      && ChainOut(ph.tr, now.chain, now.sts, [ZERO])[0] == ZERO && CudaOut(ph, rate, chain, e, c, [ZERO])[0] == ZERO
  {
    hide Physical, Circular, Tdl.SlotOut, Tdl.RingSize, Rotate, YamlParams, ChainOut, CudaOut, OnlyLeads, SaneChain;
    var l, e, c := FreshLink(ph, chain), FreshCuda(ph, rate, chain, src), Unwritten(chain);
    YamlSane(chain);
    FreshUsable(ph, rate, chain, src);
    LeadIs(ph, rate, chain);
    var w := FirstSample(ph, rate, chain, src, c, ZERO);
    TdlResponse.Units(w);
    assert [ZERO] == Zeros(1);
    var now, r := EdgeNow(ph, rate, chain, l, c, 1), Tdl.RingSize(ph.TapsOf(chain[0].taps));
    assert now.chain[0].Shaped() && now.sts[0].line == Zeros(r);
    NodesAgree.SilentSlot(now.chain[0].taps, now.chain[0].poly, r, 1, 0);
    assert DeviceBegun(ph, e.dev, e.vars, c) == e.dev;
    if e.dev.hasTdl {
      NodesAgree.SilentSlot(e.dev.taps, e.dev.poly, r, 1, 0);
    }
  }

  /** One serve of one sample: link `k` hears a unit and has just been given a profile of one tap. */
  function SwapServe(configs: seq<seq<ModelStep>>, k: nat, gainDb: real): (s: Slot)
    ensures |s.views| == |s.inputs| == |configs| && s.count == 1
    ensures forall j :: 0 <= j < |configs| ==> s.inputs[j] == if j == k then [TdlResponse.ONE] else [ZERO]
    ensures forall j :: 0 <= j < |configs| ==> s.views[j] == if j == k then Swap(configs[j], gainDb) else Unwritten(configs[j])
  {
    Slot(1,
         seq(|configs|, j requires 0 <= j < |configs| => if j == k then Swap(configs[j], gainDb) else Unwritten(configs[j])),
         seq(|configs|, j requires 0 <= j < |configs| => if j == k then [TdlResponse.ONE] else [ZERO]))
  }

  lemma SwapWritten(configs: seq<seq<ModelStep>>, k: nat, g: real)
    requires Leading(configs)
    ensures Written(configs, SwapServe(configs, k, g)) && AllWritten(configs, [SwapServe(configs, k, g)])
  {
    hide YamlParams, SaneChain;
    forall j | 0 <= j < |configs| ensures YamlParams(configs[j]).tap0Delay >= 0.0 {
      YamlSane(configs[j]);
    }
  }

  /** What reaches the two receivers then. */
  lemma SwapSums(ph: Physics, rate: nat, configs: seq<seq<ModelStep>>, k: nat, g: real) returns (w: Sample)
    requires ph.Valid() && Physical(ph) && Leading(configs) && k < |configs| && !Held(ph, configs[k])
    ensures AllSane(ph, configs, OnCpu(ph, configs)) && AllUsable(ph, configs, OnCuda(ph, rate, configs))
    ensures AllWritten(configs, [SwapServe(configs, k, g)]) && w != ZERO
    ensures var run, r := [SwapServe(configs, k, g)], Tdl.RingSize(ph.TapsOf(configs[k][0].taps));
      && Flatten(CpuSums(ph, rate, configs, OnCpu(ph, configs), run)) == [Rotate(Scale(Tone(ph, r), ph.linear(g)), w)]
      && Flatten(CudaSums(ph, rate, configs, OnCuda(ph, rate, configs), run)) == [w]
  {
    hide Physical, Circular, Rotate, Scale, Tone, Held, EdgeNow, ChainOut, CudaOut, Usable, SaneLink, Head, Staged, DeviceBegun,
         FreshLink, FreshCuda, Swap, Unwritten, Tdl.RingSize, SaneChain, OnlyLeads, Mix, AllSane, AllUsable, Written, SaneView;
    AllFresh(ph, rate, configs);
    SwapWritten(configs, k, g);
    var s, ls, es := SwapServe(configs, k, g), OnCpu(ph, configs), OnCuda(ph, rate, configs);
    var xs, ys := CpuEdges(ph, rate, configs, ls, s), CudaEdges(ph, rate, configs, es, s);
    forall j | 0 <= j < |configs| && j != k ensures xs[j][0] == ZERO && ys[j][0] == ZERO {
      SilentLink(ph, rate, configs[j], j);
    }
    SwapView(configs, k, g);
    w := FirstSample(ph, rate, configs[k], k, Swap(configs[k], g), TdlResponse.ONE);
    SwapHeard(ph, rate, configs[k], g);
    Unheld(ph, rate, configs[k], k, Swap(configs[k], g), TdlResponse.ONE);
    TdlResponse.Units(w);
    OneServe(ph, rate, configs, ls, es, s);
    NodesAgree.SoloMix(xs, 1, k, 0, |xs|);
    NodesAgree.SoloMix(ys, 1, k, 0, |ys|);
    assert xs[..|xs|] == xs && ys[..|ys|] == ys;
  }

  lemma SwapView(configs: seq<seq<ModelStep>>, k: nat, g: real)
    requires Leading(configs) && k < |configs|
    ensures SaneView(Swap(configs[k], g))
  {
    YamlSane(configs[k]);
  }

  lemma OneServe(ph: Physics, rate: nat, configs: seq<seq<ModelStep>>, ls: seq<LinkValue>, es: seq<CudaLink>, s: Slot)
    requires AllSane(ph, configs, ls) && AllUsable(ph, configs, es) && Written(configs, s)
    ensures AllWritten(configs, [s])
    ensures Flatten(CpuSums(ph, rate, configs, ls, [s])) == Mix(CpuEdges(ph, rate, configs, ls, s), s.count)
    ensures Flatten(CudaSums(ph, rate, configs, es, [s])) == Mix(CudaEdges(ph, rate, configs, es, s), s.count)
  {
    hide AllSane, AllUsable, Written, Mix, CpuEdges, CudaEdges;
    assert [s][..0] == [] && [s][0] == s;
    assert CpuSums(ph, rate, configs, ls, []) == [] && CudaSums(ph, rate, configs, es, []) == [];
    assert CpuLinksAfter(ph, rate, configs, ls, []) == ls && CudaLinksAfter(ph, rate, configs, es, []) == es;
    OneSlot(Mix(CpuEdges(ph, rate, configs, ls, s), s.count));
    OneSlot(Mix(CudaEdges(ph, rate, configs, es, s), s.count));
  }

  lemma OneSlot(y: seq<Sample>)
    ensures Flatten([] + [y]) == y
  {
    assert [y][..0] == [] && Flatten([]) == [];
  }

  /** A receiver lets every first sample through. */
  lemma ReceiverTells(ph: Physics, rate: nat, receiver: seq<ModelStep>, a: Sample, b: Sample)
    requires Physical(ph) && NoTdl(receiver) && ShapedChain(LinkChain(ph, rate, receiver))
    requires WholeChain(ph.tr, LinkChain(ph, rate, receiver), [a]) == WholeChain(ph.tr, LinkChain(ph, rate, receiver), [b])
    ensures a == b
  {
    hide Physical, Circular, Rotate, WholeChain, Coefficient, Factor, PerSample, ShapedChain, NoTdl;
    ReceiversPerSample(ph, rate, receiver);
    Parts(ph);
    var chain := LinkChain(ph, rate, receiver);
    PerSampleIs(ph.tr, chain, [a], 0);
    PerSampleIs(ph.tr, chain, [b], 0);
    NodesAgree.LossesPositive(ph);
    NodesAgree.ResolvedNonzero(ph, rate, receiver, Untouched(YamlParams(receiver)));
    var c := Coefficient(ph.tr, chain, 0);
    CoefficientNonzero(ph.tr, chain, 0);
    Commutes(a, c);
    Commutes(b, c);
    Cancel(c, a, b);
  }

  /** If they send the same, the tone of the swapped tap is a unit. */
  lemma SwapTells(ph: Physics, rate: nat, configs: seq<seq<ModelStep>>, receiver: seq<ModelStep>, k: nat, g: real)
    requires ph.Valid() && Physical(ph) && Leading(configs) && NoTdl(receiver) && AsksNothing(rate, receiver)
    requires k < |configs| && !Held(ph, configs[k]) && AlikeUnderControl(ph, rate, configs, receiver)
    ensures Scale(Tone(ph, Tdl.RingSize(ph.TapsOf(configs[k][0].taps))), ph.linear(g)) == TdlResponse.ONE
  {
    hide AllSane, AllUsable, AllWritten, CpuSums, CudaSums, Trig.Periodic, WholeChain, LinkChain, BareChain, NoTdl, CpuSent,
         CudaSent, AsksNothing, Physical, Circular, Held, Tone, Scale, Rotate, Flatten, Tdl.RingSize, ShapedChain, SwapServe;
    Parts(ph);
    RotatesPeriodically(ph.tr);
    var run, t := [SwapServe(configs, k, g)], Scale(Tone(ph, Tdl.RingSize(ph.TapsOf(configs[k][0].taps))), ph.linear(g));
    var w := SwapSums(ph, rate, configs, k, g);
    SentIs(ph, rate, configs, receiver, run);
    ReceiversAgreeExactly(ph, rate, receiver);
    assert CudaSent(ph, rate, configs, receiver, run) == CpuSent(ph, rate, configs, receiver, run);
    assert WholeChain(ph.tr, LinkChain(ph, rate, receiver), [w]) == WholeChain(ph.tr, BareChain(ph, rate, receiver), [w]);
    ReceiverTells(ph, rate, receiver, w, Rotate(t, w));
    Commutes(t, w);
    TdlResponse.Units(w);
    Cancel(w, t, TdlResponse.ONE);
  }

  /** The two backends' nodes send the same, over every run of serves with any of the links' parameters and
      profiles rewritten in between, precisely when the device struct has room for every link's tdl: a
      struct that was left out because its tdl does nothing is missed as soon as a profile is swapped in. */
  lemma ControlledExactly(ph: Physics, rate: nat, configs: seq<seq<ModelStep>>, receiver: seq<ModelStep>)
    requires ph.Valid() && Physical(ph) && Leading(configs) && NoTdl(receiver) && AsksNothing(rate, receiver)
    ensures AlikeUnderControl(ph, rate, configs, receiver) <==> AllHeld(ph, configs)
  {
    hide SaneChain, AllWritten, NoTdl, CpuSent, CudaSent, AsksNothing, Physical, Held, Tone, Scale, Tdl.RingSize, AlikeUnderControl;
    if AllHeld(ph, configs) {
      EveryRunAlike(ph, rate, configs, receiver);
    } else if AlikeUnderControl(ph, rate, configs, receiver) {
      var k :| 0 <= k < |configs| && !Held(ph, configs[k]);
      SwapTells(ph, rate, configs, receiver, k, 0.0);
      SwapTells(ph, rate, configs, receiver, k, -20.0);
      TwoGains(ph, Tone(ph, Tdl.RingSize(ph.TapsOf(configs[k][0].taps))));
    }
  }

  lemma EveryRunAlike(ph: Physics, rate: nat, configs: seq<seq<ModelStep>>, receiver: seq<ModelStep>)
    requires ph.Valid() && Physical(ph) && Leading(configs) && NoTdl(receiver) && AsksNothing(rate, receiver) && AllHeld(ph, configs)
    ensures AlikeUnderControl(ph, rate, configs, receiver)
  {
    hide Leading, AllWritten, NoTdl, CpuSent, CudaSent, AsksNothing, Physical, AllHeld;
    forall run | AllWritten(configs, run)
      ensures CudaSent(ph, rate, configs, receiver, run) == CpuSent(ph, rate, configs, receiver, run)
    {
      HeldAlike(ph, rate, configs, receiver, run);
    }
  }

  lemma TwoGains(ph: Physics, t: Sample)
    requires Physical(ph) && Scale(t, ph.linear(0.0)) == TdlResponse.ONE
    ensures Scale(t, ph.linear(-20.0)) != TdlResponse.ONE
  {
    hide Circular;
    LossIsOne(ph, -20.0);
    Parts(ph);
  }
}

/**
 Runs with control writes: between slots a link's shadow may be rewritten in any way, gated or not,
 and both backends take it over slot by slot (src/cpu_backend.cpp:147-229, src/cuda_backend.cu:656-811).
 A node whose links all lead with a tdl that the device holds sends what the CPU node sends.
 */
module ControlledRun {
  import opened Iq
  import opened Phase
  import opened Chain
  import opened RuntimeControl
  import opened CpuLinks
  import opened Fused
  import opened FusedProof
  import opened DeviceSwap
  import opened EndToEnd
  import opened Receiver
  import opened Configured
  import Tdl

  // ---- One link on the CUDA backend -----------------------------------------------------------------

  /** A link's host variables, its oscillators and its device struct. */
  datatype CudaLink = CudaLink(vars: LinkVars, phases: seq<real>, dev: DevLink)

  /** Parameters taken over and the struct refreshed. */
  function CudaBegun(ph: Physics, chain: seq<ModelStep>, e: CudaLink, c: View, count: nat): CudaLink {
    e.(vars := SlotBegin(e.vars, c, Leads(chain), |e.dev.line|, count), dev := DeviceBegun(ph, e.dev, e.vars, c))
  }

  /** The steps the host builds from the live parameters. */
  function CudaTable(ph: Physics, rate: nat, chain: seq<ModelStep>, e: CudaLink): (g: seq<GpuStep>)
    requires |e.phases| == |chain|
    ensures |g| == |chain|
  {
    BuildTable(ResolveAll(ph, rate, chain, Untouched(e.vars.live)), e.phases)
  }

  ghost predicate Usable(ph: Physics, chain: seq<ModelStep>, e: CudaLink) {
    ph.Valid() && SaneChain(chain) && SaneVars(e.vars) && |e.phases| == |chain| && e.dev.Shaped()
  }

  lemma BegunUsable(ph: Physics, chain: seq<ModelStep>, e: CudaLink, c: View, n: nat)
    requires Usable(ph, chain, e) && SaneView(c)
    ensures Usable(ph, chain, CudaBegun(ph, chain, e, c, n))
  {
    var s := Snapped(e.vars, c, true);
    if Takes(e.vars, c) && e.dev.hasTdl {
      if s.active {
        RefreshedShaped(ph, e.dev, s.profile.taps);
      }
    }
  }

  lemma RefreshedShaped(ph: Physics, d: DevLink, specs: seq<TapSpec>)
    requires ph.Valid() && d.Shaped() && DelaysFit(specs)
    ensures Refreshed(ph, d, specs).Shaped()
  {
    assert DelaysFit(DeviceSwap.Kept(specs));
    var taps := ph.TapsOf(DeviceSwap.Kept(specs));
    assert forall j :: 0 <= j < |taps| ==> taps[j].delay == DeviceSwap.Kept(specs)[j].delay;
  }

  /** A slot of `x`: the channel kernel, then the table sample by sample. */
  ghost function CudaOut(ph: Physics, rate: nat, chain: seq<ModelStep>, e: CudaLink, c: View, x: seq<Sample>): (y: seq<Sample>)
    requires Usable(ph, chain, e) && SaneView(c)
    ensures |y| == |x|
  {
    BegunUsable(ph, chain, e, c, |x|);
    var b := CudaBegun(ph, chain, e, c, |x|);
    seq(|x|, i requires 0 <= i < |x| && Usable(ph, chain, b) =>
      ApplySteps(ph.tr, CudaTable(ph, rate, chain, b), i, Staged(b.dev, x)[i]))
  }

  ghost function CudaAfter(ph: Physics, rate: nat, chain: seq<ModelStep>, e: CudaLink, c: View, x: seq<Sample>): (e': CudaLink)
    requires Usable(ph, chain, e) && SaneView(c)
    ensures Usable(ph, chain, e')
  {
    BegunUsable(ph, chain, e, c, |x|);
    var b := CudaBegun(ph, chain, e, c, |x|);
    b.(phases := NextPhases(ph.tr, ResolveAll(ph, rate, chain, Untouched(b.vars.live)), b.phases, |x|),
       dev := NextDevLink(b.dev, x))
  }

  // ---- Side by side with the CPU link ------------------------------------------------------------------

  ghost predicate TurnsMatch(tr: Trig, chain: seq<ModelStep>, sts: seq<StepState>, phases: seq<real>)
    requires |sts| == |phases| == |chain|
  {
    forall k :: 0 <= k < |chain| && chain[k].TurnStep? ==> tr.Congruent(sts[k].phase, phases[k])
  }

  /** One link on both backends: the same parameters, the struct holding what the CPU link runs, and
      oscillators that agree up to whole turns. */
  ghost predicate Twofold(ph: Physics, chain: seq<ModelStep>, l: LinkValue, e: CudaLink) {
    && Leads(chain) && OnlyLeads(chain) && |l.sts| == |e.phases| == |chain| && e.vars == l.vars
    && |l.vars.profile.taps| <= MAX_TAPS && Follows(ph, chain, l, e.dev) && TurnsMatch(ph.tr, chain, l.sts, e.phases)
  }

  lemma BegunTwofold(ph: Physics, chain: seq<ModelStep>, l: LinkValue, e: CudaLink, c: View, n: nat)
    requires Twofold(ph, chain, l, e) && |c.profile.taps| <= MAX_TAPS
    ensures Twofold(ph, chain, Begun(chain, l, c, n), CudaBegun(ph, chain, e, c, n))
  {
    hide Follows, DeviceBegun, SlotBegin;
    DeviceFollows(ph, chain, l, e.dev, c, n);
    SameRing(ph, chain, l, e);
    BegunVars(chain, l, c, n);
    BegunPhases(chain, l, c, n);
  }

  lemma SameRing(ph: Physics, chain: seq<ModelStep>, l: LinkValue, e: CudaLink)
    requires Leads(chain) && |l.sts| == |chain| && Follows(ph, chain, l, e.dev)
    ensures RingOf(chain, l.sts) == |e.dev.line|
  {
    assert FirstTdl(chain) == 0;
  }

  lemma BegunVars(chain: seq<ModelStep>, l: LinkValue, c: View, n: nat)
    requires |l.sts| == |chain| && |c.profile.taps| <= MAX_TAPS && |l.vars.profile.taps| <= MAX_TAPS
    ensures Begun(chain, l, c, n).vars == SlotBegin(l.vars, c, Leads(chain), RingOf(chain, l.sts), n)
    ensures |Begun(chain, l, c, n).vars.profile.taps| <= MAX_TAPS
  {
  }

  lemma BegunPhases(chain: seq<ModelStep>, l: LinkValue, c: View, n: nat)
    requires |l.sts| == |chain|
    ensures forall k :: 0 <= k < |chain| ==> Begun(chain, l, c, n).sts[k].phase == l.sts[k].phase
  {
  }

  /** Between tdl-free steps the two resolutions are one. */
  lemma SameTable(ph: Physics, rate: nat, chain: seq<ModelStep>, e: CudaLink)
    requires |e.phases| == |chain|
    ensures CudaTable(ph, rate, chain, e) == BuildTable(ResolveAll(ph, rate, chain, e.vars), e.phases)
  {
    hide Fused.ApplySteps;
    var a, b := ResolveAll(ph, rate, chain, Untouched(e.vars.live)), ResolveAll(ph, rate, chain, e.vars);
    forall k | 0 <= k < |chain| ensures BuildStep(a[k], e.phases[k]) == BuildStep(b[k], e.phases[k]) {
    }
  }

  lemma SameNextPhases(ph: Physics, rate: nat, chain: seq<ModelStep>, e: CudaLink, n: nat)
    requires |e.phases| == |chain| && ph.tr.turn > 0.0
    ensures NextPhases(ph.tr, ResolveAll(ph, rate, chain, Untouched(e.vars.live)), e.phases, n) ==
            NextPhases(ph.tr, ResolveAll(ph, rate, chain, e.vars), e.phases, n)
  {
    var a, b := ResolveAll(ph, rate, chain, Untouched(e.vars.live)), ResolveAll(ph, rate, chain, e.vars);
    forall k | 0 <= k < |chain| ensures NextPhase(ph.tr, a[k], e.phases[k], n) == NextPhase(ph.tr, b[k], e.phases[k], n) {
    }
  }

  /** Seen as an edge of the plain form, the CPU link matches the CUDA link. */
  lemma EdgePieces(ph: Physics, rate: nat, chain: seq<ModelStep>, l: LinkValue, e: CudaLink)
    requires ph.tr.Periodic() && Twofold(ph, chain, l, e)
    ensures var r := ResolveAll(ph, rate, chain, l.vars);
      && LeadsWithTaps(r) && LeadingOnly(r) && PhasesMatch(ph.tr, r, l.sts, e.phases)
      && r[0] == Taps(e.dev.taps, e.dev.poly) && e.dev.hasTdl && e.dev.line == l.sts[0].line
  {
    hide Trig.Periodic, Trig.Congruent;
    var r := ResolveAll(ph, rate, chain, l.vars);
    assert r[0] == ph.TdlOf(Effective(chain[0].taps, l.vars));
  }

  /** One slot, whatever has been written: the same samples, and still side by side. */
  lemma SlotTwofold(ph: Physics, rate: nat, chain: seq<ModelStep>, l: LinkValue, e: CudaLink, c: View, x: seq<Sample>)
    requires ph.tr.Periodic() && SaneLink(ph, chain, l, c) && Twofold(ph, chain, l, e) && |c.profile.taps| <= MAX_TAPS
    requires Usable(ph, chain, e)
    ensures var now := EdgeNow(ph, rate, chain, l, c, |x|);
      CudaOut(ph, rate, chain, e, c, x) == ChainOut(ph.tr, now.chain, now.sts, x)
    ensures Twofold(ph, chain, LinkAfter(ph, rate, chain, l, c, x), CudaAfter(ph, rate, chain, e, c, x))
  {
    var b, m := CudaBegun(ph, chain, e, c, |x|), Begun(chain, l, c, |x|);
    var now := EdgeNow(ph, rate, chain, l, c, |x|);
    BegunUsable(ph, chain, e, c, |x|);
    hide Begun, CudaBegun, ResolveAll, SaneLink, Trig.Periodic, ChainOut, ChainNext, ApplySteps, BuildTable, Staged, NextPhases,
         Follows, TurnsMatch, ShapedChain, CudaTable, Tdl.SlotOut;
    BegunTwofold(ph, chain, l, e, c, |x|);
    EdgePieces(ph, rate, chain, m, b);
    ShapedDev(now, b.dev);
    SameTable(ph, rate, chain, b);
    forall i | 0 <= i < |x| ensures CudaOut(ph, rate, chain, e, c, x)[i] == ChainOut(ph.tr, now.chain, now.sts, x)[i] {
      EdgeOutAgrees(ph.tr, now, b.phases, x, i);
    }
    AllPhasesStay(ph.tr, now.chain, now.sts, b.phases, x);
    HeadNext(ph.tr, now, x);
    SameNextPhases(ph, rate, chain, b, |x|);
    AfterTwofold(ph, rate, chain, m, b, ChainNext(ph.tr, now.chain, now.sts, x),
                 NextPhases(ph.tr, now.chain, b.phases, |x|), NextDevLink(b.dev, x), x);
  }

  lemma ShapedDev(c: Edge, d: DevLink)
    requires c.Shaped() && LeadsWithTaps(c.chain) && c.chain[0] == Taps(d.taps, d.poly) && d.hasTdl && d.line == c.sts[0].line
    ensures d.Shaped() && forall x :: Staged(d, x) == Head(c, x)
  {
    assert c.chain[0].Shaped();
    hide Tdl.SlotOut, Tdl.Shaped;
  }

  lemma AfterTwofold(ph: Physics, rate: nat, chain: seq<ModelStep>, m: LinkValue, b: CudaLink, sts: seq<StepState>,
                     phases: seq<real>, dev: DevLink, x: seq<Sample>)
    requires Twofold(ph, chain, m, b) && |sts| == |phases| == |chain|
    requires PhasesMatch(ph.tr, ResolveAll(ph, rate, chain, m.vars), sts, phases)
    requires dev == NextDevLink(b.dev, x) && sts[0].line == Tdl.Roll(m.sts[0].line, x)
    ensures Twofold(ph, chain, LinkValue(m.vars, sts), CudaLink(b.vars, phases, dev))
  {
    hide Trig.Congruent, Tdl.Roll;
    var r := ResolveAll(ph, rate, chain, m.vars);
    forall k | 0 <= k < |chain| && chain[k].TurnStep? ensures ph.tr.Congruent(sts[k].phase, phases[k]) {
      assert r[k].Turn? && PhaseMatches(ph.tr, r[k], sts[k], phases[k]);
    }
  }

  // ---- A node over a run -----------------------------------------------------------------------------

  /** One serve: what the control thread has left for each link by then, and a window per link. */
  datatype Slot = Slot(count: nat, views: seq<View>, inputs: seq<seq<Sample>>)

  /** Anything the control server can have written: delays not negative, profiles of at most 32 taps. */
  ghost predicate Written(configs: seq<seq<ModelStep>>, s: Slot) {
    && |s.views| == |s.inputs| == |configs|
    && forall k :: 0 <= k < |configs| ==>
         |s.inputs[k]| == s.count && SaneView(s.views[k]) && |s.views[k].profile.taps| <= MAX_TAPS
  }

  ghost predicate AllSane(ph: Physics, configs: seq<seq<ModelStep>>, ls: seq<LinkValue>) {
    && ph.Valid() && |ls| == |configs|
    && forall k :: 0 <= k < |configs| ==> SaneChain(configs[k]) && SaneVars(ls[k].vars) && |ls[k].sts| == |configs[k]|
  }

  ghost predicate AllUsable(ph: Physics, configs: seq<seq<ModelStep>>, es: seq<CudaLink>) {
    ph.Valid() && |es| == |configs| && forall k :: 0 <= k < |configs| ==> Usable(ph, configs[k], es[k])
  }

  ghost function CpuEdges(ph: Physics, rate: nat, configs: seq<seq<ModelStep>>, ls: seq<LinkValue>, s: Slot): (ys: seq<seq<Sample>>)
    requires AllSane(ph, configs, ls) && Written(configs, s)
    ensures |ys| == |configs| && forall k :: 0 <= k < |ys| ==> |ys[k]| == s.count
  {
    seq(|configs|, k requires 0 <= k < |configs| && SaneLink(ph, configs[k], ls[k], s.views[k]) =>
      var now := EdgeNow(ph, rate, configs[k], ls[k], s.views[k], |s.inputs[k]|);
      ChainOut(ph.tr, now.chain, now.sts, s.inputs[k]))
  }

  ghost function CpuNext(ph: Physics, rate: nat, configs: seq<seq<ModelStep>>, ls: seq<LinkValue>, s: Slot): (ls': seq<LinkValue>)
    requires AllSane(ph, configs, ls) && Written(configs, s)
    ensures AllSane(ph, configs, ls')
  {
    seq(|configs|, k requires 0 <= k < |configs| && SaneLink(ph, configs[k], ls[k], s.views[k]) =>
      LinkAfter(ph, rate, configs[k], ls[k], s.views[k], s.inputs[k]))
  }

  ghost function CudaEdges(ph: Physics, rate: nat, configs: seq<seq<ModelStep>>, es: seq<CudaLink>, s: Slot): (ys: seq<seq<Sample>>)
    requires AllUsable(ph, configs, es) && Written(configs, s)
    ensures |ys| == |configs| && forall k :: 0 <= k < |ys| ==> |ys[k]| == s.count
  {
    seq(|configs|, k requires 0 <= k < |configs| => CudaOut(ph, rate, configs[k], es[k], s.views[k], s.inputs[k]))
  }

  ghost function CudaNext(ph: Physics, rate: nat, configs: seq<seq<ModelStep>>, es: seq<CudaLink>, s: Slot): (es': seq<CudaLink>)
    requires AllUsable(ph, configs, es) && Written(configs, s)
    ensures AllUsable(ph, configs, es')
  {
    seq(|configs|, k requires 0 <= k < |configs| => CudaAfter(ph, rate, configs[k], es[k], s.views[k], s.inputs[k]))
  }

  ghost predicate AllWritten(configs: seq<seq<ModelStep>>, run: seq<Slot>) {
    forall n :: 0 <= n < |run| ==> Written(configs, run[n])
  }

  ghost function CpuLinksAfter(ph: Physics, rate: nat, configs: seq<seq<ModelStep>>, ls: seq<LinkValue>, run: seq<Slot>): (ls': seq<LinkValue>)
    requires AllSane(ph, configs, ls) && AllWritten(configs, run)
    ensures AllSane(ph, configs, ls')
    decreases |run|
  {
    if run == [] then ls
    else CpuNext(ph, rate, configs, CpuLinksAfter(ph, rate, configs, ls, run[..|run| - 1]), run[|run| - 1])
  }

  ghost function CudaLinksAfter(ph: Physics, rate: nat, configs: seq<seq<ModelStep>>, es: seq<CudaLink>, run: seq<Slot>): (es': seq<CudaLink>)
    requires AllUsable(ph, configs, es) && AllWritten(configs, run)
    ensures AllUsable(ph, configs, es')
    decreases |run|
  {
    if run == [] then es
    else CudaNext(ph, rate, configs, CudaLinksAfter(ph, rate, configs, es, run[..|run| - 1]), run[|run| - 1])
  }

  /** The sums handed to the receiver, one per serve. */
  ghost function CpuSums(ph: Physics, rate: nat, configs: seq<seq<ModelStep>>, ls: seq<LinkValue>, run: seq<Slot>): seq<seq<Sample>>
    requires AllSane(ph, configs, ls) && AllWritten(configs, run)
    decreases |run|
  {
    if run == [] then []
    else
      var rest, last := run[..|run| - 1], run[|run| - 1];
      CpuSums(ph, rate, configs, ls, rest) +
      [Mix(CpuEdges(ph, rate, configs, CpuLinksAfter(ph, rate, configs, ls, rest), last), last.count)]
  }

  ghost function CudaSums(ph: Physics, rate: nat, configs: seq<seq<ModelStep>>, es: seq<CudaLink>, run: seq<Slot>): seq<seq<Sample>>
    requires AllUsable(ph, configs, es) && AllWritten(configs, run)
    decreases |run|
  {
    if run == [] then []
    else
      var rest, last := run[..|run| - 1], run[|run| - 1];
      CudaSums(ph, rate, configs, es, rest) +
      [Mix(CudaEdges(ph, rate, configs, CudaLinksAfter(ph, rate, configs, es, rest), last), last.count)]
  }

  ghost predicate AllTwofold(ph: Physics, configs: seq<seq<ModelStep>>, ls: seq<LinkValue>, es: seq<CudaLink>) {
    |ls| == |es| == |configs| && forall k :: 0 <= k < |configs| ==> Twofold(ph, configs[k], ls[k], es[k])
  }

  lemma ServeTwofold(ph: Physics, rate: nat, configs: seq<seq<ModelStep>>, ls: seq<LinkValue>, es: seq<CudaLink>, s: Slot)
    requires ph.tr.Periodic() && AllSane(ph, configs, ls) && AllUsable(ph, configs, es) && AllTwofold(ph, configs, ls, es)
    requires Written(configs, s)
    ensures CudaEdges(ph, rate, configs, es, s) == CpuEdges(ph, rate, configs, ls, s)
    ensures AllTwofold(ph, configs, CpuNext(ph, rate, configs, ls, s), CudaNext(ph, rate, configs, es, s))
  {
    hide Trig.Periodic, Twofold, Usable, CudaOut, CudaAfter, LinkAfter, EdgeNow, ChainOut;
    forall k | 0 <= k < |configs|
      ensures CudaEdges(ph, rate, configs, es, s)[k] == CpuEdges(ph, rate, configs, ls, s)[k]
      ensures Twofold(ph, configs[k], CpuNext(ph, rate, configs, ls, s)[k], CudaNext(ph, rate, configs, es, s)[k])
    {
      SlotTwofold(ph, rate, configs[k], ls[k], es[k], s.views[k], s.inputs[k]);
    }
  }

  /** Over every run of serves and control writes, both backends hand their receiver the same sums. */
  lemma {:induction false} ControlledSums(ph: Physics, rate: nat, configs: seq<seq<ModelStep>>, ls: seq<LinkValue>, es: seq<CudaLink>,
                                          run: seq<Slot>)
    requires ph.tr.Periodic() && AllSane(ph, configs, ls) && AllUsable(ph, configs, es) && AllTwofold(ph, configs, ls, es)
    requires AllWritten(configs, run)
    ensures CudaSums(ph, rate, configs, es, run) == CpuSums(ph, rate, configs, ls, run)
    ensures AllTwofold(ph, configs, CpuLinksAfter(ph, rate, configs, ls, run), CudaLinksAfter(ph, rate, configs, es, run))
    decreases |run|
  {
    hide Trig.Periodic, AllTwofold, AllSane, AllUsable, CpuNext, CudaNext, CpuEdges, CudaEdges, Mix, Written;
    if run != [] {
      var rest, last := run[..|run| - 1], run[|run| - 1];
      ControlledSums(ph, rate, configs, ls, es, rest);
      ServeTwofold(ph, rate, configs, CpuLinksAfter(ph, rate, configs, ls, rest), CudaLinksAfter(ph, rate, configs, es, rest), last);
    }
  }
}

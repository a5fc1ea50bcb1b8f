/**
 One configured node on the two backends, its links from sources of their own: exactly when the
 device makes a difference, and exactly when the receiver does.
 */
module NodesAgree {
  import opened Iq
  import opened Phase
  import opened Chain
  import opened CpuLinks
  import opened Relay
  import opened EndToEnd
  import opened Fused
  import opened FusedProof
  import opened FusedEndToEnd
  import opened FusedRun
  import opened Receiver
  import opened Configured
  import opened LeadChains
  import opened BackendsAgree
  import Tdl
  import TdlStream
  import TdlResponse

  // ---- Sources of their own -----------------------------------------------------------------------

  /** Every edge reads the packed row of its own window. */
  predicate Apart(src: seq<nat>, firstEdge: seq<nat>) {
    forall k :: 0 <= k < |src| ==> src[k] < |firstEdge| && firstEdge[src[k]] == k
  }

  /** The source map of links that all come from different devices. */
  lemma DistinctAreApart<Id>(from: seq<Id>, src: seq<nat>, firstEdge: seq<nat>)
    requires FirstOccurrences(from, src, firstEdge) && forall j, k :: 0 <= j < k < |from| ==> from[j] != from[k]
    ensures Apart(src, firstEdge)
  {
    forall k | 0 <= k < |src| ensures firstEdge[src[k]] == k {
      var j := firstEdge[src[k]];
      assert j <= k && from[j] == from[k];
    }
  }

  lemma ApartIsShared(g: GpuNode, log: seq<Serve>)
    requires g.Shaped() && FusedFits(g, log)
    requires Apart(seq(|g.edges|, k requires 0 <= k < |g.edges| => g.edges[k].dev.src), g.firstEdge)
    ensures SharedThroughout(g, log)
  {
    var src := seq(|g.edges|, k requires 0 <= k < |g.edges| => g.edges[k].dev.src);
    forall n | 0 <= n < |log| ensures |log[n].inputs| == |g.edges| && SharedInputs(g, log[n].inputs) {
      assert Fitting(g, log[n].inputs, log[n].count);
      forall k | 0 <= k < |g.edges| ensures SourceOf(g, log[n].inputs, k) == log[n].inputs[k] {
        assert g.firstEdge[src[k]] == k;
      }
    }
  }

  // ---- One serve -------------------------------------------------------------------------------------

  lemma OneReply(tr: Trig, node: Node, e: Serve)
    requires tr.turn > 0.0 && node.Shaped() && LogFits(node, [e])
    ensures Aligned(node, e.inputs, e.count) && Replies(tr, node, [e]) == NodeOut(tr, node, e.inputs, e.count)
  {
    hide NodeOut, NodeNext, Node.Shaped;
    assert [e][..0] == [] && Aligned(node, [e][0].inputs, [e][0].count);
    assert NodeAfter(tr, node, []) == node && Replies(tr, node, []) == [];
  }

  lemma OneFused(tr: Trig, g: GpuNode, e: Serve)
    requires tr.turn > 0.0 && g.Shaped() && FusedFits(g, [e])
    ensures Fitting(g, e.inputs, e.count) && FusedReplies(tr, g, [e]) == FusedOut(tr, g, e.inputs, e.count)
  {
    hide FusedOut, FusedNext, GpuNode.Shaped;
    assert [e][..0] == [] && Fitting(g, [e][0].inputs, [e][0].count);
    assert FusedAfter(tr, g, []) == g && FusedReplies(tr, g, []) == [];
  }

  /** Only edge `k` hears anything. */
  function Solo(n: nat, k: nat, x: seq<Sample>): (inputs: seq<seq<Sample>>)
    ensures |inputs| == n && forall j :: 0 <= j < n ==> inputs[j] == if j == k then x else Zeros(|x|)
  {
    seq(n, j => if j == k then x else Zeros(|x|))
  }

  lemma {:induction false} SoloMix(ys: seq<seq<Sample>>, count: nat, k: nat, i: nat, n: nat)
    requires (forall j :: 0 <= j < |ys| ==> |ys[j]| == count) && k < |ys| && i < count && n <= |ys|
    requires forall j :: 0 <= j < |ys| && j != k ==> ys[j][i] == ZERO
    ensures Mix(ys[..n], count)[i] == if n <= k then ZERO else ys[k][i]
  {
    hide Mix, Add, Rotate, Scale;
    if n == 0 {
      NothingMixed(ys, count);
    } else {
      SoloMix(ys, count, k, i, n - 1);
      MixSample(ys, count, n - 1, i);
      TdlResponse.Units(ys[k][i]);
      TdlResponse.Units(ZERO);
    }
  }

  lemma NothingMixed(ys: seq<seq<Sample>>, count: nat)
    ensures Mix(ys[..0], count) == Zeros(count)
  {
  }

  lemma {:induction false} SoloSum(tr: Trig, g: GpuNode, inputs: seq<seq<Sample>>, count: nat, k: nat, i: nat, n: nat)
    requires g.Shaped() && Fitting(g, inputs, count) && k < |inputs| && i < count && n <= |inputs|
    requires forall j :: 0 <= j < |inputs| && j != k ==>
               ApplySteps(tr, BuildTable(g.edges[j].chain, g.edges[j].phases), i, EdgeStaged(g, inputs, count, j)[i]) == ZERO
    ensures FusedSum(tr, g, inputs, count, i, n) ==
            if n <= k then ZERO
            else ApplySteps(tr, BuildTable(g.edges[k].chain, g.edges[k].phases), i, EdgeStaged(g, inputs, count, k)[i])
  {
    hide ApplySteps, BuildTable, EdgeStaged, Add, Rotate, Scale;
    if n > 0 {
      SoloSum(tr, g, inputs, count, k, i, n - 1);
      TdlResponse.Units(ApplySteps(tr, BuildTable(g.edges[k].chain, g.edges[k].phases), i, EdgeStaged(g, inputs, count, k)[i]));
      TdlResponse.Units(ZERO);
    }
  }

  // ---- Factors -----------------------------------------------------------------------------------------

  lemma {:induction false} ResolvedNonzero(ph: Physics, rate: nat, chain: seq<ModelStep>, v: RuntimeControl.LinkVars)
    requires forall a :: ph.linear(a) > 0.0
    ensures Factor(ResolveAll(ph, rate, chain, v)) != 0.0
  {
    if chain != [] {
      ResolvedTail(ph, rate, chain, v);
      ResolvedNonzero(ph, rate, chain[1..], v);
      if chain[0].PathLossStep? {
        NoProduct(ph.linear(-v.live.pathLossDb), Factor(ResolveAll(ph, rate, chain[1..], v)));
      }
    }
  }

  lemma BackFactor(chain: seq<Step>)
    ensures Factor(Back(chain)) == Factor(chain)
  {
  }

  lemma LossesPositive(ph: Physics)
    requires Physical(ph)
    ensures forall a :: ph.linear(a) > 0.0
  {
  }

  /** A freshly prepared chain loses nothing. */
  lemma LinkNonzero(ph: Physics, rate: nat, chain: seq<ModelStep>)
    requires Physical(ph)
    ensures Factor(Back(LinkChain(ph, rate, chain))) != 0.0
  {
    hide Physical, Factor;
    LossesPositive(ph);
    ResolvedNonzero(ph, rate, chain, Untouched(YamlParams(chain)));
    BackFactor(LinkChain(ph, rate, chain));
  }

  /** A fresh table weighs one sample. */
  lemma TableFactor(tr: Trig, chain: seq<Step>, i: nat, v: Sample)
    requires Circular(tr) && tr.Periodic() && ShapedChain(chain) && LeadingOnly(chain)
    ensures ApplySteps(tr, BuildTable(chain, AtRest(|chain|)), i, v) == Rotate(v, Coefficient(tr, Back(chain), i))
  {
    hide Circular, Coefficient, Rotate, ApplySteps, Trig.Periodic, Factored, Tdl.SlotOut;
    if LeadsWithTaps(chain) {
      UnitScale(tr, chain, AtRest(|chain|), i, v);
      assert AtRest(|chain|)[1..] == AtRest(|chain| - 1);
    }
    BackIsPerSample(chain);
    BackTable(tr, Back(chain), i, v);
  }

  lemma BackTable(tr: Trig, chain: seq<Step>, i: nat, v: Sample)
    requires Circular(tr) && tr.Periodic() && ShapedChain(chain) && PerSample(chain)
    ensures ApplySteps(tr, BuildTable(chain, AtRest(|chain|)), i, v) == Rotate(v, Coefficient(tr, chain, i))
  {
    hide Circular, Coefficient, Rotate, ApplySteps, Trig.Periodic, ChainOut, ChainNext, BuildTable;
    var x, sts := seq(i + 1, _ => v), FreshOf(chain).sts;
    RestMatches(tr, chain);
    ChainAgrees(tr, chain, sts, AtRest(|chain|), x, i);
    RestAdvanced(tr, chain);
    BackOut(tr, chain, sts, 0, x);
    FactoredAt(tr, chain, x, ChainOut(tr, chain, sts, x), 0, i, i);
  }

  lemma RestMatches(tr: Trig, chain: seq<Step>)
    ensures PhasesMatch(tr, chain, FreshOf(chain).sts, AtRest(|chain|))
  {
    Reflexive(tr, 0.0);
  }

  lemma RestAdvanced(tr: Trig, chain: seq<Step>)
    ensures Advanced(tr, chain, FreshOf(chain).sts, 0)
  {
    Reflexive(tr, 0.0);
    assert forall k :: 0 <= k < |chain| && chain[k].Turn? ==> Angle(0, chain[k].increment) == 0.0;
  }

  /** Silence stays silent on the way through a fresh tdl. */
  lemma SilentSlot(taps: seq<Tdl.Tap>, poly: seq<seq<real>>, r: nat, n: nat, i: nat)
    requires Tdl.Shaped(taps, poly) && i < n
    ensures Tdl.SlotOut(taps, poly, Zeros(r), Zeros(n))[i] == ZERO
  {
    hide Tdl.Conv, Tdl.Shaped;
    TdlResponse.SilentOut(m => Tdl.Read(Zeros(r), Zeros(n), m), taps, poly, i);
  }

  // ---- One edge alone ----------------------------------------------------------------------------------

  /** What a fresh plain node sends when only edge `k` hears anything. */
  lemma SoloReply(tr: Trig, node: Node, k: nat, x: seq<Sample>, i: nat)
    requires Circular(tr) && tr.Periodic() && tr.turn > 0.0 && node.Shaped() && k < |node.edges| && i < |x|
    requires node.rx == FreshOf(node.rx.chain) && PerSample(node.rx.chain)
    requires forall j :: 0 <= j < |node.edges| ==> node.edges[j] == FreshOf(node.edges[j].chain) && LeadingOnly(node.edges[j].chain)
    ensures Aligned(node, Solo(|node.edges|, k, x), |x|)
    ensures var c := node.edges[k];
      NodeOut(tr, node, Solo(|node.edges|, k, x), |x|)[i] ==
        Rotate(Rotate(Front(c.chain, c.sts, x)[i], Coefficient(tr, Back(c.chain), i)), Coefficient(tr, node.rx.chain, i))
  {
    hide Circular, Coefficient, Rotate, Trig.Periodic, ChainOut, ChainNext, Mix, Front, Advanced, Factored, PerSample, ShapedChain,
         LeadingOnly;
    var inputs := Solo(|node.edges|, k, x);
    var ys := EdgeOuts(tr, node, inputs, |x|);
    forall j | 0 <= j < |node.edges|
      ensures ys[j][i] == Rotate(Front(node.edges[j].chain, node.edges[j].sts, inputs[j])[i], Coefficient(tr, Back(node.edges[j].chain), i))
      ensures j != k ==> ys[j][i] == ZERO
    {
      FreshEdgeOut(tr, node.edges[j].chain, inputs[j], i);
      if j != k {
        SilentEdge(node.edges[j].chain, |x|, i);
        TdlResponse.Units(Coefficient(tr, Back(node.edges[j].chain), i));
      }
    }
    SoloMix(ys, |x|, k, i, |ys|);
    assert ys[..|ys|] == ys;
    RestAdvanced(tr, node.rx.chain);
    BackOut(tr, node.rx.chain, node.rx.sts, 0, Mix(ys, |x|));
    FactoredAt(tr, node.rx.chain, Mix(ys, |x|), ChainOut(tr, node.rx.chain, node.rx.sts, Mix(ys, |x|)), 0, i, i);
  }

  lemma FreshEdgeOut(tr: Trig, chain: seq<Step>, x: seq<Sample>, i: nat)
    requires Circular(tr) && tr.turn > 0.0 && ShapedChain(chain) && LeadingOnly(chain) && i < |x|
    ensures ChainOut(tr, chain, FreshOf(chain).sts, x)[i] ==
            Rotate(Front(chain, FreshOf(chain).sts, x)[i], Coefficient(tr, Back(chain), i))
  {
    hide Circular, Coefficient, Rotate, ChainOut, ChainNext, Front, Factored, After, ShapedChain, LeadingOnly, FreshOf;
    FreshIsAfter(tr, chain);
    SlotAfter(tr, chain, FreshOf(chain).sts, [], x);
    FactoredAt(tr, Back(chain), Front(chain, FreshOf(chain).sts, x), ChainOut(tr, chain, FreshOf(chain).sts, x), 0, i, i);
  }

  lemma SilentEdge(chain: seq<Step>, n: nat, i: nat)
    requires ShapedChain(chain) && i < n
    ensures Front(chain, FreshOf(chain).sts, Zeros(n))[i] == ZERO
  {
    hide Tdl.SlotOut;
    if LeadsWithTaps(chain) {
      SilentSlot(chain[0].taps, chain[0].poly, Tdl.RingSize(chain[0].taps), n, i);
    }
  }

  /** ... and what the fused form prepared from it sends. */
  lemma SoloFused(tr: Trig, node: Node, src: seq<nat>, firstEdge: seq<nat>, k: nat, x: seq<Sample>, i: nat)
    requires Circular(tr) && tr.Periodic() && tr.turn > 0.0 && node.Shaped() && k < |node.edges| && i < |x|
    requires node.rx == FreshOf(node.rx.chain) && PerSample(node.rx.chain)
    requires forall j :: 0 <= j < |node.edges| ==> node.edges[j] == FreshOf(node.edges[j].chain) && LeadingOnly(node.edges[j].chain)
    requires |src| == |node.edges| && Apart(src, firstEdge)
    requires Prepared(node, src, firstEdge).Shaped()
    ensures var g, inputs := Prepared(node, src, firstEdge), Solo(|node.edges|, k, x);
      Fitting(g, inputs, |x|) &&
      FusedOut(tr, g, inputs, |x|)[i] ==
        Rotate(Rotate(EdgeStaged(g, inputs, |x|, k)[i], Coefficient(tr, Back(node.edges[k].chain), i)), Coefficient(tr, node.rx.chain, i))
  {
    hide Circular, Coefficient, Rotate, Trig.Periodic, EdgeStaged, BuildTable, ApplySteps, PerSample, ShapedChain, LeadingOnly, Back;
    var g, inputs := Prepared(node, src, firstEdge), Solo(|node.edges|, k, x);
    forall j | 0 <= j < |node.edges|
      ensures ApplySteps(tr, BuildTable(g.edges[j].chain, g.edges[j].phases), i, EdgeStaged(g, inputs, |x|, j)[i]) ==
              Rotate(EdgeStaged(g, inputs, |x|, j)[i], Coefficient(tr, Back(node.edges[j].chain), i))
      ensures j != k ==>
                ApplySteps(tr, BuildTable(g.edges[j].chain, g.edges[j].phases), i, EdgeStaged(g, inputs, |x|, j)[i]) == ZERO
    {
      PreparedPieces(node, src, firstEdge, j);
      TableFactor(tr, node.edges[j].chain, i, EdgeStaged(g, inputs, |x|, j)[i]);
      if j != k {
        SilentStaged(node, src, firstEdge, k, x, i, j);
        TdlResponse.Units(Coefficient(tr, Back(node.edges[j].chain), i));
      }
    }
    SoloSum(tr, g, inputs, |x|, k, i, |inputs|);
    BackTable(tr, node.rx.chain, i, FusedSum(tr, g, inputs, |x|, i, |inputs|));
  }

  lemma PreparedPieces(node: Node, src: seq<nat>, firstEdge: seq<nat>, j: nat)
    requires node.Shaped() && |src| == |node.edges| && j < |src|
    ensures var e := Prepared(node, src, firstEdge).edges[j];
      e.chain == node.edges[j].chain && e.phases == AtRest(|e.chain|) && ShapedChain(e.chain)
  {
  }

  /** Edges that hear nothing are staged as silence. */
  lemma SilentStaged(node: Node, src: seq<nat>, firstEdge: seq<nat>, k: nat, x: seq<Sample>, i: nat, j: nat)
    requires node.Shaped() && k < |node.edges| && j < |node.edges| && j != k && i < |x|
    requires node.edges[j] == FreshOf(node.edges[j].chain)
    requires |src| == |node.edges| && Apart(src, firstEdge) && Prepared(node, src, firstEdge).Shaped()
    ensures var g, inputs := Prepared(node, src, firstEdge), Solo(|node.edges|, k, x);
      Fitting(g, inputs, |x|) && EdgeStaged(g, inputs, |x|, j)[i] == ZERO
  {
    hide Tdl.SlotOut, Tdl.RingSize;
    var g, inputs := Prepared(node, src, firstEdge), Solo(|node.edges|, k, x);
    var c := node.edges[j];
    assert SourceOf(g, inputs, j) == Zeros(|x|);
    if LeadsWithTaps(c.chain) {
      SilentSlot(c.chain[0].taps, c.chain[0].poly, Tdl.RingSize(c.chain[0].taps), |x|, i);
    }
  }

  // ---- A configured node -------------------------------------------------------------------------------

  /** A configuration both backends can prepare, its links from sources of their own. */
  ghost predicate SetApart(ph: Physics, configs: seq<seq<ModelStep>>, receiver: seq<ModelStep>, src: seq<nat>, firstEdge: seq<nat>) {
    && ph.Valid() && Physical(ph) && Supported(configs, receiver) && SourcesMapped(configs, src, firstEdge) && Apart(src, firstEdge)
  }

  lemma PreparedShaped(node: Node, src: seq<nat>, firstEdge: seq<nat>)
    requires node.Shaped() && |src| == |node.edges| && (forall k :: 0 <= k < |src| ==> src[k] < |firstEdge|)
    requires forall m :: 0 <= m < |firstEdge| ==> firstEdge[m] < |src|
    ensures Prepared(node, src, firstEdge).Shaped()
  {
  }

  /** What there is to compare. */
  lemma Both(ph: Physics, rate: nat, configs: seq<seq<ModelStep>>, receiver: seq<ModelStep>, src: seq<nat>, firstEdge: seq<nat>)
    requires SetApart(ph, configs, receiver, src, firstEdge)
    ensures var cpu, cuda := CpuPrepared(ph, rate, configs, receiver), CudaPrepared(ph, rate, configs, receiver);
      && cpu.Shaped() && cuda.Shaped() && |src| == |cuda.edges| == |cpu.edges| == |configs| && cpu.edges == cuda.edges
      && Prepared(cuda, src, firstEdge).Shaped() && FreshNode(cuda)
      && cpu.rx == FreshOf(LinkChain(ph, rate, receiver)) && cuda.rx == FreshOf(BareChain(ph, rate, receiver))
      && forall k :: 0 <= k < |configs| ==> cpu.edges[k] == FreshOf(LinkChain(ph, rate, configs[k]))
    ensures ph.Valid() && Circular(ph.tr) && ph.tr.Periodic() && ph.tr.turn > 0.0 && NoTdl(receiver) && Physical(ph)
    ensures PerSample(LinkChain(ph, rate, receiver)) && PerSample(BareChain(ph, rate, receiver))
    ensures forall k :: 0 <= k < |configs| ==> LeadingOnly(LinkChain(ph, rate, configs[k])) && ShapedChain(LinkChain(ph, rate, configs[k]))
  {
    hide Physical, Trig.Periodic, Prepared, FreshNode, Kept, Circular, ShapedChain, PerSample, NoTdl, Node.Shaped, GpuNode.Shaped, LeadingOnly;
    Parts(ph);
    RotatesPeriodically(ph.tr);
    SupportedIsKept(configs, receiver);
    PreparedFresh(ph, rate, configs, receiver);
    FreshShaped(CpuPrepared(ph, rate, configs, receiver));
    FreshShaped(CudaPrepared(ph, rate, configs, receiver));
    ReceiversPerSample(ph, rate, receiver);
    PreparedShaped(CudaPrepared(ph, rate, configs, receiver), src, firstEdge);
    forall k | 0 <= k < |configs| ensures LeadingOnly(LinkChain(ph, rate, configs[k])) {
      OnlyLeadsLeads(ph, rate, configs[k]);
    }
  }

  lemma OnlyLeadsLeads(ph: Physics, rate: nat, chain: seq<ModelStep>)
    requires OnlyLeads(chain)
    ensures LeadingOnly(LinkChain(ph, rate, chain))
  {
  }

  /** Over every log the two backends' nodes send the same. */
  ghost predicate NodesAlike(ph: Physics, rate: nat, configs: seq<seq<ModelStep>>, receiver: seq<ModelStep>,
                             src: seq<nat>, firstEdge: seq<nat>)
    requires SetApart(ph, configs, receiver, src, firstEdge)
  {
    forall log :: AlikeOn(ph, rate, configs, receiver, src, firstEdge, log)
  }

  ghost predicate AlikeOn(ph: Physics, rate: nat, configs: seq<seq<ModelStep>>, receiver: seq<ModelStep>,
                          src: seq<nat>, firstEdge: seq<nat>, log: seq<Serve>)
    requires SetApart(ph, configs, receiver, src, firstEdge)
  {
    Both(ph, rate, configs, receiver, src, firstEdge);
    var cpu, g := CpuPrepared(ph, rate, configs, receiver), Prepared(CudaPrepared(ph, rate, configs, receiver), src, firstEdge);
    LogFits(cpu, log) ==> FusedFits(g, log) && FusedReplies(ph.tr, g, log) == Replies(ph.tr, cpu, log)
  }

  /** Every log is a fair comparison when the device can run the links. */
  lemma ApartComparable(ph: Physics, rate: nat, configs: seq<seq<ModelStep>>, receiver: seq<ModelStep>,
                        src: seq<nat>, firstEdge: seq<nat>, log: seq<Serve>)
    requires SetApart(ph, configs, receiver, src, firstEdge) && LogFits(CpuPrepared(ph, rate, configs, receiver), log)
    requires CudaPrepared(ph, rate, configs, receiver).Shaped() && RunsOnDevice(CudaPrepared(ph, rate, configs, receiver))
    ensures Comparable(ph, rate, configs, receiver, src, firstEdge, log)
  {
    hide RunsOnDevice, Node.Shaped, GpuNode.Shaped, SharedThroughout, LinkChain, BareChain, Supported, Physical, Physics.Valid;
    Both(ph, rate, configs, receiver, src, firstEdge);
    var node := CudaPrepared(ph, rate, configs, receiver);
    var g := Prepared(node, src, firstEdge);
    FitsBoth(ph, rate, configs, receiver, log);
    FittingToo(node, src, firstEdge, log);
    assert src == seq(|g.edges|, k requires 0 <= k < |g.edges| => g.edges[k].dev.src);
    ApartIsShared(g, log);
  }

  lemma FittingToo(node: Node, src: seq<nat>, firstEdge: seq<nat>, log: seq<Serve>)
    requires node.Shaped() && |src| == |node.edges| && LogFits(node, log)
    ensures FusedFits(Prepared(node, src, firstEdge), log)
  {
    forall n | 0 <= n < |log| ensures Fitting(Prepared(node, src, firstEdge), log[n].inputs, log[n].count) {
      assert Aligned(node, log[n].inputs, log[n].count);
    }
  }

  // ---- Exactly when the device makes a difference ----------------------------------------------------------

  /** One serve of a comparison in which only edge `k` hears anything. */
  lemma SoloAlike(ph: Physics, rate: nat, configs: seq<seq<ModelStep>>, receiver: seq<ModelStep>,
                  src: seq<nat>, firstEdge: seq<nat>, k: nat, x: seq<Sample>, i: nat)
    requires SetApart(ph, configs, receiver, src, firstEdge) && k < |configs| && i < |x|
    requires NodesAlike(ph, rate, configs, receiver, src, firstEdge)
    ensures var node := CudaPrepared(ph, rate, configs, receiver);
      var chain := LinkChain(ph, rate, configs[k]);
      && node.Shaped() && |src| == |node.edges| == |configs| && Prepared(node, src, firstEdge).Shaped() && ShapedChain(chain)
      && Fitting(Prepared(node, src, firstEdge), Solo(|configs|, k, x), |x|)
      && Rotate(Rotate(Front(chain, FreshOf(chain).sts, x)[i], Coefficient(ph.tr, Back(chain), i)),
                Coefficient(ph.tr, LinkChain(ph, rate, receiver), i)) ==
         Rotate(Rotate(EdgeStaged(Prepared(node, src, firstEdge), Solo(|configs|, k, x), |x|, k)[i], Coefficient(ph.tr, Back(chain), i)),
                Coefficient(ph.tr, BareChain(ph, rate, receiver), i))
  {
    hide Physical, Circular, Trig.Periodic, LinkChain, BareChain, Coefficient, Rotate, Front, Back, EdgeStaged, FreshNode, Supported,
         PerSample, ShapedChain, LeadingOnly, NoTdl, Prepared, FusedOut, NodeOut, Replies, FusedReplies, Physics.Valid, CpuPrepared,
         CudaPrepared, Node.Shaped, GpuNode.Shaped, FreshOf;
    Both(ph, rate, configs, receiver, src, firstEdge);
    var cpu, cuda := CpuPrepared(ph, rate, configs, receiver), CudaPrepared(ph, rate, configs, receiver);
    var e := Serve(|x|, Solo(|configs|, k, x));
    FreshChains(ph, rate, configs);
    FreshChain(LinkChain(ph, rate, receiver));
    FreshChain(BareChain(ph, rate, receiver));
    SoloReply(ph.tr, cpu, k, x, i);
    SoloFused(ph.tr, cuda, src, firstEdge, k, x, i);
    SoloFits(cpu, k, x);
    assert AlikeOn(ph, rate, configs, receiver, src, firstEdge, [e]);
    OneReply(ph.tr, cpu, e);
    OneFused(ph.tr, Prepared(cuda, src, firstEdge), e);
  }

  lemma FreshChain(chain: seq<Step>)
    ensures FreshOf(chain).chain == chain
  {
  }

  lemma FreshChains(ph: Physics, rate: nat, configs: seq<seq<ModelStep>>)
    ensures forall k :: 0 <= k < |configs| ==> FreshOf(LinkChain(ph, rate, configs[k])).chain == LinkChain(ph, rate, configs[k])
  {
  }

  lemma SoloFits(node: Node, k: nat, x: seq<Sample>)
    ensures LogFits(node, [Serve(|x|, Solo(|node.edges|, k, x))])
  {
  }

  /** The device struct is too small for a link whose tdl does something. */
  lemma NotOnDevice(ph: Physics, rate: nat, configs: seq<seq<ModelStep>>, receiver: seq<ModelStep>, src: seq<nat>, firstEdge: seq<nat>)
      returns (k: nat, x: seq<Sample>, i: nat)
    requires SetApart(ph, configs, receiver, src, firstEdge)
    requires CudaPrepared(ph, rate, configs, receiver).Shaped() && !RunsOnDevice(CudaPrepared(ph, rate, configs, receiver))
    ensures k < |configs| && i < |x|
    ensures var node := CudaPrepared(ph, rate, configs, receiver);
      var chain := LinkChain(ph, rate, configs[k]);
      && |src| == |node.edges| && Prepared(node, src, firstEdge).Shaped() && ShapedChain(chain)
      && Fitting(Prepared(node, src, firstEdge), Solo(|configs|, k, x), |x|)
      && EdgeStaged(Prepared(node, src, firstEdge), Solo(|configs|, k, x), |x|, k)[i] == x[i] != Front(chain, FreshOf(chain).sts, x)[i]
  {
    hide Physical, Trig.Periodic, LinkChain, BareChain, FreshNode, Supported, PerSample, ShapedChain, LeadingOnly, NoTdl, Prepared,
         Physics.Valid, Circular, Step.Shaped, TdlResponse.Transparent, Fits, Tdl.SlotOut, Tdl.RingSize, Tdl.Shaped;
    Both(ph, rate, configs, receiver, src, firstEdge);
    var node := CudaPrepared(ph, rate, configs, receiver);
    k :| 0 <= k < |node.edges| && !DeviceCan(node.edges[k]);
    var chain := LinkChain(ph, rate, configs[k]);
    assert node.edges[k] == FreshOf(chain) && LeadsWithTaps(chain);
    x, i := OpaqueSlot(chain);
    WireStaged(node, src, firstEdge, k, x);
  }

  lemma OpaqueSlot(chain: seq<Step>) returns (x: seq<Sample>, i: nat)
    requires ShapedChain(chain) && LeadsWithTaps(chain) && !DeviceCan(FreshOf(chain))
    ensures i < |x| && x[i] != Front(chain, FreshOf(chain).sts, x)[i]
  {
    hide Tdl.SlotOut, TdlResponse.Transparent, Fits, Tdl.RingSize;
    var taps, poly := chain[0].taps, chain[0].poly;
    var r := Tdl.RingSize(taps);
    assert chain[0].Shaped();
    Covering(taps);
    TdlResponse.OpaqueChanges(taps, poly, r);
    x :| Tdl.SlotOut(taps, poly, Zeros(r), x) != x;
    i :| 0 <= i < |x| && Tdl.SlotOut(taps, poly, Zeros(r), x)[i] != x[i];
  }

  /** ... so its struct is a plain wire on a node that runs on the device. */
  lemma WireStaged(node: Node, src: seq<nat>, firstEdge: seq<nat>, k: nat, x: seq<Sample>)
    requires node.Shaped() && k < |node.edges| && LeadsWithTaps(node.edges[k].chain) && !DeviceCan(node.edges[k])
    requires forall j :: 0 <= j < |node.edges| ==> LeadsWithTaps(node.edges[j].chain)
    requires |src| == |node.edges| && Apart(src, firstEdge) && Prepared(node, src, firstEdge).Shaped()
    ensures var g, inputs := Prepared(node, src, firstEdge), Solo(|node.edges|, k, x);
      Fitting(g, inputs, |x|) && EdgeStaged(g, inputs, |x|, k) == x
  {
    hide TdlResponse.Transparent, Fits, Tdl.SlotOut;
    var g, inputs := Prepared(node, src, firstEdge), Solo(|node.edges|, k, x);
    assert SourceOf(g, inputs, k) == x;
  }

  /** For a receiver that asks for nothing the device leaves out: the two backends' nodes send the same,
      over every log, precisely when the device can hold every leading tdl that does something - or some
      link leads with none, and the node is staged on the host. */
  lemma DeviceTells(ph: Physics, rate: nat, configs: seq<seq<ModelStep>>, receiver: seq<ModelStep>, src: seq<nat>, firstEdge: seq<nat>)
    requires SetApart(ph, configs, receiver, src, firstEdge) && AsksNothing(rate, receiver)
    ensures CudaPrepared(ph, rate, configs, receiver).Shaped()
    ensures NodesAlike(ph, rate, configs, receiver, src, firstEdge) <==> RunsOnDevice(CudaPrepared(ph, rate, configs, receiver))
  {
    hide Physical, Circular, Trig.Periodic, LinkChain, BareChain, RunsOnDevice, NodesAlike, AsksNothing, Comparable, LogFits, SetApart,
         CudaPrepared, CpuPrepared, NoTdl, PerSample, ShapedChain, Node.Shaped;
    Both(ph, rate, configs, receiver, src, firstEdge);
    if RunsOnDevice(CudaPrepared(ph, rate, configs, receiver)) {
      EveryLogAlike(ph, rate, configs, receiver, src, firstEdge);
    } else if NodesAlike(ph, rate, configs, receiver, src, firstEdge) {
      DeviceShows(ph, rate, configs, receiver, src, firstEdge);
    }
  }

  lemma EveryLogAlike(ph: Physics, rate: nat, configs: seq<seq<ModelStep>>, receiver: seq<ModelStep>, src: seq<nat>, firstEdge: seq<nat>)
    requires SetApart(ph, configs, receiver, src, firstEdge) && AsksNothing(rate, receiver)
    requires CudaPrepared(ph, rate, configs, receiver).Shaped() && RunsOnDevice(CudaPrepared(ph, rate, configs, receiver))
    ensures NodesAlike(ph, rate, configs, receiver, src, firstEdge)
  {
    hide Physical, Circular, Trig.Periodic, LinkChain, BareChain, RunsOnDevice, AsksNothing, LogFits, FusedFits, SharedThroughout,
         CudaPrepared, CpuPrepared, NoTdl, PerSample, ShapedChain, Node.Shaped, GpuNode.Shaped, Prepared, Replies, FusedReplies,
         Physics.Valid, Supported, SameOnStreams;
    Both(ph, rate, configs, receiver, src, firstEdge);
    ReceiversAgreeExactly(ph, rate, receiver);
    forall log ensures AlikeOn(ph, rate, configs, receiver, src, firstEdge, log) {
      if LogFits(CpuPrepared(ph, rate, configs, receiver), log) {
        ApartComparable(ph, rate, configs, receiver, src, firstEdge, log);
        AlikeUnder(ph, rate, configs, receiver, src, firstEdge, log);
      }
    }
  }

  lemma SameFactor(ph: Physics, rate: nat, receiver: seq<ModelStep>, i: nat)
    requires Physical(ph) && NoTdl(receiver) && AsksNothing(rate, receiver)
    ensures Coefficient(ph.tr, LinkChain(ph, rate, receiver), i) == Coefficient(ph.tr, BareChain(ph, rate, receiver), i)
  {
    hide *;
    NothingIsOne(ph, rate, receiver, i);
    CoefficientsAgree(ph, rate, receiver, i);
  }

  /** The receiver and the per-sample steps lose nothing of a difference. */
  lemma Weighed(tr: Trig, a: Sample, b: Sample, c: Sample, d: Sample)
    requires c != ZERO && d != ZERO && Rotate(Rotate(a, c), d) == Rotate(Rotate(b, c), d)
    ensures a == b
  {
    hide Rotate;
    Commutes(Rotate(a, c), d);
    Commutes(Rotate(b, c), d);
    Cancel(d, Rotate(a, c), Rotate(b, c));
    Commutes(a, c);
    Commutes(b, c);
    Cancel(c, a, b);
  }

  lemma ReceiverNonzero(ph: Physics, rate: nat, receiver: seq<ModelStep>, i: nat)
    requires Physical(ph) && NoTdl(receiver)
    ensures Coefficient(ph.tr, LinkChain(ph, rate, receiver), i) != ZERO && Coefficient(ph.tr, BareChain(ph, rate, receiver), i) != ZERO
  {
    hide Physical, Circular, Coefficient, Factor;
    Parts(ph);
    LossesPositive(ph);
    ResolvedNonzero(ph, rate, receiver, Untouched(YamlParams(receiver)));
    ResolvedNonzero(ph, rate, receiver, Untouched(RuntimeControl.DEFAULTS));
    CoefficientNonzero(ph.tr, LinkChain(ph, rate, receiver), i);
    CoefficientNonzero(ph.tr, BareChain(ph, rate, receiver), i);
  }

  lemma DeviceShows(ph: Physics, rate: nat, configs: seq<seq<ModelStep>>, receiver: seq<ModelStep>, src: seq<nat>, firstEdge: seq<nat>)
    requires SetApart(ph, configs, receiver, src, firstEdge) && AsksNothing(rate, receiver)
    requires NodesAlike(ph, rate, configs, receiver, src, firstEdge) && CudaPrepared(ph, rate, configs, receiver).Shaped()
    ensures RunsOnDevice(CudaPrepared(ph, rate, configs, receiver))
  {
    hide Physical, Circular, Trig.Periodic, LinkChain, BareChain, RunsOnDevice, NodesAlike, AsksNothing, SetApart, Front, Back, FreshOf,
         CudaPrepared, CpuPrepared, NoTdl, PerSample, ShapedChain, Node.Shaped, Coefficient, Rotate, EdgeStaged, Prepared, Fitting;
    if !RunsOnDevice(CudaPrepared(ph, rate, configs, receiver)) {
      Both(ph, rate, configs, receiver, src, firstEdge);
      var k, x, i := NotOnDevice(ph, rate, configs, receiver, src, firstEdge);
      SoloAlike(ph, rate, configs, receiver, src, firstEdge, k, x, i);
      SameFactor(ph, rate, receiver, i);
      ReceiverNonzero(ph, rate, receiver, i);
      LinkNonzero(ph, rate, configs[k]);
      var chain := LinkChain(ph, rate, configs[k]);
      CoefficientNonzero(ph.tr, Back(chain), i);
      Weighed(ph.tr, Front(chain, FreshOf(chain).sts, x)[i], x[i], Coefficient(ph.tr, Back(chain), i),
              Coefficient(ph.tr, LinkChain(ph, rate, receiver), i));
      assert false;
    }
  }

  const FAR := [TdlStep([RuntimeControl.TapSpec(121.0, 0.0, 0.0, false, 0.0, 0.0)])]

  lemma FarChain(ph: Physics, rate: nat)
    requires ph.Valid() && Physical(ph) && ph.sinc(0.0) == [0.0, 0.0, 0.0, 1.0, 0.0, 0.0, 0.0, 0.0]
    ensures var taps := [Tdl.Tap(121.0, 1.0, TdlResponse.ONE)];
      LinkChain(ph, rate, FAR) == [Taps(taps, Tdl.Polyphase(taps, ph.sinc))]
  {
    hide Physical, Circular;
    Parts(ph);
    Receiver.AtZero(ph.tr);
    FreshUsesOwnTaps(ph, rate, FAR, Untouched(YamlParams(FAR)));
    assert ph.TapsOf(FAR[0].taps) == [Tdl.Tap(121.0, 1.0, TdlResponse.ONE)];
  }

  /** One link with a unit tap 121 samples late, and no receiver: the two nodes differ. */
  lemma FarLinkDiffers(ph: Physics, rate: nat)
    requires ph.Valid() && Physical(ph) && ph.sinc(0.0) == [0.0, 0.0, 0.0, 1.0, 0.0, 0.0, 0.0, 0.0]
    ensures SetApart(ph, [FAR], [], [0], [0]) && AsksNothing(rate, []) && !NodesAlike(ph, rate, [FAR], [], [0], [0])
  {
    hide Physical, Circular, LinkChain, BareChain, RunsOnDevice, NodesAlike, TdlResponse.Transparent, DeviceExact, Fits, Tdl.Polyphase;
    assert AsksNothing(rate, []) by { assert rate > 0 ==> Multiple(0, 0.0, rate, 0); }
    Both(ph, rate, [FAR], [], [0], [0]);
    FarChain(ph, rate);
    var taps := [Tdl.Tap(121.0, 1.0, TdlResponse.ONE)];
    var poly := Tdl.Polyphase(taps, ph.sinc);
    TooFarForDevice(ph.sinc);
    Covering(taps);
    DeviceExactly(taps, poly, Tdl.RingSize(taps));
    DeviceTells(ph, rate, [FAR], [], [0], [0]);
    NotRunnable(ph, rate);
  }

  lemma NotRunnable(ph: Physics, rate: nat)
    requires CudaPrepared(ph, rate, [FAR], []).Shaped()
    requires LinkChain(ph, rate, FAR) != [] && LinkChain(ph, rate, FAR)[0].Taps? && LinkChain(ph, rate, FAR)[0].Shaped()
    requires var Taps(taps, poly) := LinkChain(ph, rate, FAR)[0];
      !Fits(taps, Zeros(Tdl.RingSize(taps))) && !TdlResponse.Transparent(taps, poly)
    ensures !RunsOnDevice(CudaPrepared(ph, rate, [FAR], []))
  {
    hide TdlResponse.Transparent, Fits, LinkChain;
    var node := CudaPrepared(ph, rate, [FAR], []);
    assert node.edges[0] == FreshOf(LinkChain(ph, rate, FAR));
    assert !DeviceCan(node.edges[0]);
  }

  // ---- Exactly when the receiver makes a difference --------------------------------------------------------

  /** Nothing sent over the link is ever heard. */
  ghost predicate Mute(chain: seq<Step>)
    requires ShapedChain(chain)
  {
    LeadsWithTaps(chain) && SilentTaps(chain[0].taps, chain[0].poly)
  }

  ghost predicate AllMute(ph: Physics, rate: nat, configs: seq<seq<ModelStep>>)
    requires forall k :: 0 <= k < |configs| ==> ShapedChain(LinkChain(ph, rate, configs[k]))
  {
    forall k :: 0 <= k < |configs| ==> Mute(LinkChain(ph, rate, configs[k]))
  }

  /** A link that is heard at all is heard at two samples in a row, of two windows. */
  lemma Heard(chain: seq<Step>) returns (i: nat, x: seq<Sample>, y: seq<Sample>)
    requires ShapedChain(chain) && !Mute(chain)
    ensures i < |x| && Front(chain, FreshOf(chain).sts, x)[i] != ZERO
    ensures i + 1 < |y| && Front(chain, FreshOf(chain).sts, y)[i + 1] != ZERO
  {
    hide Tdl.SlotOut, Tdl.RingSize, TdlResponse.Response, Tdl.Covers, Tdl.Shaped;
    if LeadsWithTaps(chain) {
      var taps, poly := chain[0].taps, chain[0].poly;
      assert chain[0].Shaped();
      var r := Tdl.RingSize(taps);
      Covering(taps);
      var m :| TdlResponse.Response(taps, poly, m) != ZERO;
      var p: nat := if m < 0 then 0 - m else 0;
      i, x, y := m + p, TdlResponse.Impulse(p, p + (m + p) + 1), TdlResponse.Impulse(p + 1, p + 1 + (m + p + 1) + 1);
      TdlResponse.PulseSlot(taps, poly, r, p, m + p);
      TdlResponse.PulseSlot(taps, poly, r, p + 1, m + p + 1);
    } else {
      i, x, y := 0, [TdlResponse.ONE], [TdlResponse.ONE, TdlResponse.ONE];
    }
  }

  /** What the configuration asks of a receiver, unheard at two samples in a row, is nothing. */
  lemma TwoInARow(ph: Physics, rate: nat, chain: seq<ModelStep>, n: nat)
    requires Physical(ph) && Asked(ph, rate, chain, n) == TdlResponse.ONE && Asked(ph, rate, chain, n + 1) == TdlResponse.ONE
    ensures AsksNothing(rate, chain)
  {
    hide Physical, Circular, YamlParams, Pow, Angle, Physics.Increment, Scale, Rotate, OnTheRate, Trig.Congruent, Losses, Oscillators,
         AsksNothing;
    var q, m, tr := Oscillators(chain), YamlParams(chain), ph.tr;
    var inc, f := ph.Increment(m.cfoHz, rate), Pow(ph.linear(-m.pathLossDb), Losses(chain));
    Parts(ph);
    LossIsOne(ph, -m.pathLossDb);
    PowIsOne(ph.linear(-m.pathLossDb), Losses(chain));
    var here, step := Angle(q, Angle(n, inc)), Angle(q, inc);
    NextAngle(q, n, inc);
    SameScale(tr.rot(here), tr.rot(here + step), f);
    Compose(tr, here, step);
    TdlResponse.Units(tr.rot(here));
    Undo(tr, here, tr.rot(step), TdlResponse.ONE);
    WholeTurn(tr, step);
    WholeTurns(tr, q, inc, n);
    WholeTurn(tr, here);
    SmallAngles(q, inc);
    Receiver.AtZero(tr);
    OneIsNothing(ph, rate, chain);
  }

  lemma NextAngle(q: nat, n: nat, inc: real)
    ensures Angle(q, Angle(n + 1, inc)) == Angle(q, Angle(n, inc)) + Angle(q, inc)
  {
    AngleSum(n, 1, inc);
    assert Angle(1, inc) == inc;
    assert q as real * (n as real * inc + inc) == q as real * (n as real * inc) + q as real * inc;
  }

  /** A heard sample shows what the receiver does to it. */
  lemma ReceiverShows(ph: Physics, rate: nat, configs: seq<seq<ModelStep>>, receiver: seq<ModelStep>, src: seq<nat>, firstEdge: seq<nat>,
                      k: nat, x: seq<Sample>, i: nat)
    requires SetApart(ph, configs, receiver, src, firstEdge) && NodesAlike(ph, rate, configs, receiver, src, firstEdge)
    requires CudaPrepared(ph, rate, configs, receiver).Shaped() && RunsOnDevice(CudaPrepared(ph, rate, configs, receiver))
    requires k < |configs| && i < |x| && ShapedChain(LinkChain(ph, rate, configs[k]))
    requires Front(LinkChain(ph, rate, configs[k]), FreshOf(LinkChain(ph, rate, configs[k])).sts, x)[i] != ZERO
    ensures Asked(ph, rate, receiver, i) == TdlResponse.ONE
  {
    hide Physical, Circular, Trig.Periodic, LinkChain, BareChain, RunsOnDevice, NodesAlike, AsksNothing, SetApart, Front, Back, FreshOf,
         CudaPrepared, CpuPrepared, NoTdl, PerSample, ShapedChain, Node.Shaped, Coefficient, Rotate, EdgeStaged, Prepared, Fitting, Asked;
    Both(ph, rate, configs, receiver, src, firstEdge);
    SoloAlike(ph, rate, configs, receiver, src, firstEdge, k, x, i);
    StagedFront(ph, rate, configs, receiver, src, firstEdge, k, x);
    LinkNonzero(ph, rate, configs[k]);
    var chain := LinkChain(ph, rate, configs[k]);
    var v, c := Front(chain, FreshOf(chain).sts, x)[i], Coefficient(ph.tr, Back(chain), i);
    CoefficientNonzero(ph.tr, Back(chain), i);
    NoLoss(v, c);
    Cancel(Rotate(v, c), Coefficient(ph.tr, LinkChain(ph, rate, receiver), i), Coefficient(ph.tr, BareChain(ph, rate, receiver), i));
    CoefficientsAgree(ph, rate, receiver, i);
  }

  lemma NoLoss(v: Sample, c: Sample)
    requires v != ZERO && c != ZERO
    ensures Rotate(v, c) != ZERO
  {
    hide Rotate;
    TdlResponse.Units(v);
    if Rotate(v, c) == ZERO {
      Cancel(v, c, ZERO);
    }
  }

  /** A node the device can run is staged as its chains are. */
  lemma StagedFront(ph: Physics, rate: nat, configs: seq<seq<ModelStep>>, receiver: seq<ModelStep>, src: seq<nat>, firstEdge: seq<nat>,
                    k: nat, x: seq<Sample>)
    requires SetApart(ph, configs, receiver, src, firstEdge) && k < |configs|
    requires CudaPrepared(ph, rate, configs, receiver).Shaped() && RunsOnDevice(CudaPrepared(ph, rate, configs, receiver))
    ensures var g, inputs := Prepared(CudaPrepared(ph, rate, configs, receiver), src, firstEdge), Solo(|configs|, k, x);
      var chain := LinkChain(ph, rate, configs[k]);
      && g.Shaped() && Fitting(g, inputs, |x|) && ShapedChain(chain)
      && EdgeStaged(g, inputs, |x|, k) == Front(chain, FreshOf(chain).sts, x)
  {
    hide Physical, Circular, Trig.Periodic, LinkChain, BareChain, RunsOnDevice, SetApart, CudaPrepared, CpuPrepared, NoTdl, PerSample,
         ShapedChain, Node.Shaped, GpuNode.Shaped, EdgeStaged, Prepared, Front, FreshNode, EdgeMatches, SharedInputs, LogFits, FusedFits;
    Both(ph, rate, configs, receiver, src, firstEdge);
    var node, inputs := CudaPrepared(ph, rate, configs, receiver), Solo(|configs|, k, x);
    var e := Serve(|x|, inputs);
    SoloFits(node, k, x);
    FitsBoth(ph, rate, configs, receiver, [e]);
    ApartComparable(ph, rate, configs, receiver, src, firstEdge, [e]);
    SharedOnce(ph, rate, configs, receiver, src, firstEdge, e);
    MatchedEdge(ph, rate, configs, receiver, src, firstEdge, k);
    StagedIsHead(ph.tr, node.edges[k], Prepared(node, src, firstEdge), inputs, |x|, k);
    HeadIsFront(node.edges[k], x);
    FreshChain(LinkChain(ph, rate, configs[k]));
  }

  lemma SharedOnce(ph: Physics, rate: nat, configs: seq<seq<ModelStep>>, receiver: seq<ModelStep>, src: seq<nat>, firstEdge: seq<nat>,
                   e: Serve)
    requires Comparable(ph, rate, configs, receiver, src, firstEdge, [e])
    ensures var node := CudaPrepared(ph, rate, configs, receiver);
      && node.Shaped() && |src| == |node.edges| && Prepared(node, src, firstEdge).Shaped()
      && Fitting(Prepared(node, src, firstEdge), e.inputs, e.count) && SharedInputs(Prepared(node, src, firstEdge), e.inputs)
  {
    assert [e][0] == e;
  }

  lemma MatchedEdge(ph: Physics, rate: nat, configs: seq<seq<ModelStep>>, receiver: seq<ModelStep>, src: seq<nat>, firstEdge: seq<nat>,
                    k: nat)
    requires SetApart(ph, configs, receiver, src, firstEdge) && k < |configs|
    requires CudaPrepared(ph, rate, configs, receiver).Shaped() && RunsOnDevice(CudaPrepared(ph, rate, configs, receiver))
    ensures var node := CudaPrepared(ph, rate, configs, receiver);
      && |src| == |node.edges| == |configs|
      && var g := Prepared(node, src, firstEdge); EdgeMatches(ph.tr, node.edges[k], g.edges[k], g.useDevice)
  {
    hide Physical, Circular, Trig.Periodic, LinkChain, BareChain, RunsOnDevice, CudaPrepared, CpuPrepared, NoTdl, PerSample,
         ShapedChain, Node.Shaped, GpuNode.Shaped, Prepared, FreshNode, EdgeMatches, Supported, Physics.Valid;
    Both(ph, rate, configs, receiver, src, firstEdge);
    var node := CudaPrepared(ph, rate, configs, receiver);
    FusedEndToEnd.AtZero(node);
    PreparedMatches(ph.tr, node, src, firstEdge);
  }

  lemma HeadIsFront(c: Edge, x: seq<Sample>)
    requires c.Shaped()
    ensures Head(c, x) == Front(c.chain, c.sts, x)
  {
  }

  /** Silence through per-sample steps, wherever their oscillators are. */
  lemma {:induction false} SilenceThrough(tr: Trig, chain: seq<Step>, sts: seq<StepState>, n: nat)
    requires tr.turn > 0.0 && ShapedChain(chain) && PerSample(chain) && |sts| == |chain|
    ensures ChainOut(tr, chain, sts, Zeros(n)) == Zeros(n)
  {
    hide PhaseAt;
    if chain != [] {
      assert StepOut(tr, chain[0], sts[0], Zeros(n)) == Zeros(n);
      SilenceThrough(tr, chain[1..], sts[1..], n);
    }
  }

  lemma MuteOut(tr: Trig, chain: seq<Step>, sts: seq<StepState>, x: seq<Sample>)
    requires tr.turn > 0.0 && ShapedChain(chain) && LeadingOnly(chain) && Mute(chain) && |sts| == |chain|
    ensures ChainOut(tr, chain, sts, x) == Zeros(|x|)
  {
    hide Tdl.SlotOut, SilentTaps;
    var y := StepOut(tr, chain[0], sts[0], x);
    forall i | 0 <= i < |x| ensures y[i] == ZERO {
      SilentFront(chain[0].taps, chain[0].poly, sts[0].line, x, i);
    }
    assert y == Zeros(|x|);
    SilenceThrough(tr, chain[1..], sts[1..], |x|);
  }

  lemma {:induction false} SilenceMixed(ys: seq<seq<Sample>>, count: nat)
    requires forall j :: 0 <= j < |ys| ==> |ys[j]| == count && ys[j] == Zeros(count)
    ensures Mix(ys, count) == Zeros(count)
  {
    if ys != [] {
      SilenceMixed(ys[..|ys| - 1], count);
    }
  }

  lemma {:induction false} MuteSums(tr: Trig, node: Node, log: seq<Serve>)
    requires tr.turn > 0.0 && node.Shaped() && LogFits(node, log)
    requires forall k :: 0 <= k < |node.edges| ==> LeadingOnly(node.edges[k].chain) && Mute(node.edges[k].chain)
    ensures Sums(tr, node, log) == Zeros(|Sums(tr, node, log)|)
    decreases |log|
  {
    hide Mix, ChainOut, ChainNext, Mute, LeadingOnly, ShapedChain;
    if log != [] {
      var rest, last := log[..|log| - 1], log[|log| - 1];
      MuteSums(tr, node, rest);
      var now := NodeAfter(tr, node, rest);
      assert Aligned(node, last.inputs, last.count);
      var ys := EdgeOuts(tr, now, last.inputs, last.count);
      forall k | 0 <= k < |ys| ensures ys[k] == Zeros(last.count) {
        MuteOut(tr, now.edges[k].chain, now.edges[k].sts, last.inputs[k]);
      }
      SilenceMixed(ys, last.count);
    }
  }

  /** Silence through a receiver. */
  lemma SilentReceiver(tr: Trig, chain: seq<Step>, n: nat)
    requires Circular(tr) && ShapedChain(chain) && PerSample(chain)
    ensures WholeChain(tr, chain, Zeros(n)) == Zeros(n)
  {
    hide Circular, WholeChain, ShapedChain, PerSample, Coefficient;
    forall i | 0 <= i < n ensures WholeChain(tr, chain, Zeros(n))[i] == ZERO {
      PerSampleIs(tr, chain, Zeros(n), i);
      TdlResponse.Units(Coefficient(tr, chain, i));
    }
  }

  /** When the device can run the links: the two backends' nodes send the same, over every log, precisely
      when the receiver asks for nothing the CUDA backend leaves out, or no link is ever heard. */
  lemma ReceiverTells(ph: Physics, rate: nat, configs: seq<seq<ModelStep>>, receiver: seq<ModelStep>, src: seq<nat>, firstEdge: seq<nat>)
    requires SetApart(ph, configs, receiver, src, firstEdge)
    requires CudaPrepared(ph, rate, configs, receiver).Shaped() && RunsOnDevice(CudaPrepared(ph, rate, configs, receiver))
    ensures forall k :: 0 <= k < |configs| ==> ShapedChain(LinkChain(ph, rate, configs[k]))
    ensures NodesAlike(ph, rate, configs, receiver, src, firstEdge) <==> AsksNothing(rate, receiver) || AllMute(ph, rate, configs)
  {
    hide Physical, Circular, Trig.Periodic, LinkChain, BareChain, RunsOnDevice, NodesAlike, AsksNothing, SetApart, Mute, CudaPrepared,
         CpuPrepared, NoTdl, PerSample, ShapedChain, Node.Shaped, FreshOf, Front, Asked;
    Both(ph, rate, configs, receiver, src, firstEdge);
    if AsksNothing(rate, receiver) {
      EveryLogAlike(ph, rate, configs, receiver, src, firstEdge);
    } else if AllMute(ph, rate, configs) {
      MuteAlike(ph, rate, configs, receiver, src, firstEdge);
    } else if NodesAlike(ph, rate, configs, receiver, src, firstEdge) {
      var k :| 0 <= k < |configs| && !Mute(LinkChain(ph, rate, configs[k]));
      var i, x, y := Heard(LinkChain(ph, rate, configs[k]));
      ReceiverShows(ph, rate, configs, receiver, src, firstEdge, k, x, i);
      ReceiverShows(ph, rate, configs, receiver, src, firstEdge, k, y, i + 1);
      TwoInARow(ph, rate, receiver, i);
    }
  }

  lemma MuteAlike(ph: Physics, rate: nat, configs: seq<seq<ModelStep>>, receiver: seq<ModelStep>, src: seq<nat>, firstEdge: seq<nat>)
    requires SetApart(ph, configs, receiver, src, firstEdge)
    requires CudaPrepared(ph, rate, configs, receiver).Shaped() && RunsOnDevice(CudaPrepared(ph, rate, configs, receiver))
    requires forall k :: 0 <= k < |configs| ==> ShapedChain(LinkChain(ph, rate, configs[k]))
    requires AllMute(ph, rate, configs)
    ensures NodesAlike(ph, rate, configs, receiver, src, firstEdge)
  {
    hide Physical, Circular, Trig.Periodic, LinkChain, BareChain, RunsOnDevice, AsksNothing, Mute, LogFits, FusedFits, WholeChain,
         CudaPrepared, CpuPrepared, NoTdl, PerSample, ShapedChain, Node.Shaped, GpuNode.Shaped, Prepared, Replies, FusedReplies,
         Physics.Valid, Supported, Sums, SharedThroughout, LeadingOnly;
    Both(ph, rate, configs, receiver, src, firstEdge);
    FreshChains(ph, rate, configs);
    forall log ensures AlikeOn(ph, rate, configs, receiver, src, firstEdge, log) {
      if LogFits(CpuPrepared(ph, rate, configs, receiver), log) {
        ApartComparable(ph, rate, configs, receiver, src, firstEdge, log);
        var x := ComparableReplies(ph, rate, configs, receiver, src, firstEdge, log);
        MuteSums(ph.tr, CpuPrepared(ph, rate, configs, receiver), log);
        SilentReceiver(ph.tr, LinkChain(ph, rate, receiver), |x|);
        SilentReceiver(ph.tr, BareChain(ph, rate, receiver), |x|);
      }
    }
  }
}

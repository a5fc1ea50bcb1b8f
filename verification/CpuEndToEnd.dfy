/** The CPU backend behind the relay: with no control writes outstanding, its replies over a
    whole run are the whole-stream channel of what its sources sent. */
module CpuEndToEnd {
  import opened Iq
  import opened Phase
  import opened Chain
  import opened RuntimeControl
  import opened CpuLinks
  import opened CpuBackend
  import opened CpuNodes
  import opened Relay
  import opened RelaySafety
  import opened EndToEnd
  import opened FreshParams
  import opened Receiver
  import opened Configured

  ghost predicate AllQuiet(hs: seq<Holding>) {
    forall k :: 0 <= k < |hs| ==> Quiet(hs[k].value, hs[k].view)
  }

  lemma {:induction false} QuietUpTo(b: CpuNode, hs: seq<Holding>, xs: seq<seq<Sample>>, k: nat, count: nat, n: nat, j: nat)
    requires b.Sane(hs) && AllQuiet(hs) && k <= |xs| <= |b.links| && count > 0
    requires (forall i :: 0 <= i < |xs| ==> |xs[i]| == count) && j < k
    ensures AllQuiet(b.HeldUpTo(hs, xs, k))
    ensures var e := b.EdgeOf(hs, j, count);
      b.EdgeOf(b.HeldUpTo(hs, xs, k), j, n) == Edge(e.chain, ChainNext(b.links[j].ph.tr, e.chain, e.sts, xs[j]))
  {
    hide EdgeNow, LinkAfter, Quiet, SaneLink;
    var mid := b.HeldUpTo(hs, xs, k - 1);
    var link := b.links[k - 1];
    if k - 1 > 0 {
      QuietUpTo(b, hs, xs, k - 1, count, n, if j < k - 1 then j else 0);
    }
    QuietSlot(link.ph, link.rate, link.chain, mid[k - 1].value, mid[k - 1].view, xs[k - 1], n);
  }

  lemma QuietReceiver(b: CpuNode, hs: seq<Holding>, k: nat, x: seq<Sample>, n: nat)
    requires b.Sane(hs) && AllQuiet(hs) && k < |b.links| && x != [] && b.links[k].ph.tr == b.tr
    ensures AllQuiet(b.HeldAfter(hs, k, x))
    ensures var e := b.EdgeOf(hs, k, |x|);
      b.EdgeOf(b.HeldAfter(hs, k, x), k, n) == Edge(e.chain, ChainNext(b.tr, e.chain, e.sts, x))
  {
    hide EdgeNow, LinkAfter, Quiet, SaneLink;
    var link := b.links[k];
    QuietSlot(link.ph, link.rate, link.chain, hs[k].value, hs[k].view, x, n);
  }

  ghost predicate Wired(b: CpuNode) {
    b.tr.turn > 0.0 && (|b.links| == b.edges || |b.links| == b.edges + 1) && b.edges > 0 &&
    forall k :: 0 <= k < |b.links| ==> b.links[k].ph.tr == b.tr
  }

  lemma QuietEdges(b: CpuNode, hs: seq<Holding>, xs: seq<seq<Sample>>, count: nat, n: nat)
    requires Wired(b) && b.Sane(hs) && AllQuiet(hs) && count > 0 && Aligned(b.NodeOf(hs, count), xs, count)
    ensures AllQuiet(b.HeldUpTo(hs, xs, b.edges))
    ensures forall j :: 0 <= j < b.edges ==>
              b.EdgeOf(b.HeldUpTo(hs, xs, b.edges), j, n) == NodeNext(b.tr, b.NodeOf(hs, count), xs, count).edges[j]
  {
    hide EdgeNow, LinkAfter, Quiet, SaneLink, AllQuiet;
    forall j | 0 <= j < b.edges
      ensures b.EdgeOf(b.HeldUpTo(hs, xs, b.edges), j, n) == NodeNext(b.tr, b.NodeOf(hs, count), xs, count).edges[j]
      ensures AllQuiet(b.HeldUpTo(hs, xs, b.edges))
    {
      QuietUpTo(b, hs, xs, b.edges, count, n, j);
    }
    QuietUpTo(b, hs, xs, b.edges, count, n, 0);
  }

  /** A serve with nothing outstanding is one step of the plain model's node. */
  lemma QuietServe(b: CpuNode, hs: seq<Holding>, xs: seq<seq<Sample>>, hs': seq<Holding>, y: seq<Sample>, n: nat)
    requires Wired(b) && b.Replied(hs, xs, hs', y) && AllQuiet(hs) && y != []
    ensures b.Sane(hs') && AllQuiet(hs')
    ensures b.NodeOf(hs', n) == NodeNext(b.tr, b.NodeOf(hs, |y|), xs, |y|)
  {
    var node, mid := b.NodeOf(hs, |y|), b.HeldUpTo(hs, xs, b.edges);
    QuietEdges(b, hs, xs, |y|, n);
    if |b.links| > b.edges {
      QuietReceiver(b, mid, b.edges, b.Summed(hs, xs, |y|), n);
    }
    hide EdgeNow, LinkAfter, AllQuiet, SaneLink, Mix, ChainNext, ChainOut, EdgeOuts;
    assert forall j :: 0 <= j < b.edges ==> b.EdgeOf(hs', j, n) == b.EdgeOf(mid, j, n);
    assert b.NodeOf(hs', n).edges == NodeNext(b.tr, node, xs, |y|).edges;
    assert |b.links| > b.edges ==> b.EdgeOf(mid, b.edges, |y|) == b.EdgeOf(hs, b.edges, |y|);
  }

  /** A run of serves: what the links hold at the end, and everything replied. */
  ghost predicate Runs(b: CpuNode, hs: seq<Holding>, log: seq<Serve>, hs': seq<Holding>, y: seq<Sample>)
    decreases |log|
  {
    if log == [] then hs' == hs && y == []
    else
      var last := log[|log| - 1];
      exists mid, before, now ::
        && Runs(b, hs, log[..|log| - 1], mid, before) && y == before + now && |now| == last.count
        && b.Replied(mid, last.inputs, hs', now)
  }

  /** With no writes outstanding, everything the CPU backend replies over a run of serves is
      the plain model's log of replies. */
  lemma {:induction false} QuietRun(b: CpuNode, hs: seq<Holding>, log: seq<Serve>, hs': seq<Holding>, y: seq<Sample>)
    requires Wired(b) && b.Sane(hs) && AllQuiet(hs) && Runs(b, hs, log, hs', y)
    requires forall k :: 0 <= k < |log| ==> log[k].count > 0
    ensures b.Sane(hs') && AllQuiet(hs') && LogFits(b.NodeOf(hs, 1), log)
    ensures forall n: nat :: n > 0 ==> b.NodeOf(hs', n) == NodeAfter(b.tr, b.NodeOf(hs, 1), log)
    ensures y == Replies(b.tr, b.NodeOf(hs, 1), log)
    decreases |log|
  {
    hide AllQuiet, EdgeNow, LinkAfter, NodeOut, NodeNext, CpuNode.NodeOf, CpuNode.HeldUpTo, CpuNode.HeldAfter, SaneLink;
    if log == [] {
      forall n: nat | n > 0 ensures b.NodeOf(hs', n) == b.NodeOf(hs, 1) {
        QuietNode(b, hs, n, 1);
      }
    } else {
      var rest, last := log[..|log| - 1], log[|log| - 1];
      var mid, before, now :| Runs(b, hs, rest, mid, before) && y == before + now && |now| == last.count
                              && b.Replied(mid, last.inputs, hs', now);
      QuietRun(b, hs, rest, mid, before);
      forall n: nat | n > 0 ensures b.NodeOf(hs', n) == NodeAfter(b.tr, b.NodeOf(hs, 1), log) {
        QuietServe(b, mid, last.inputs, hs', now, n);
      }
      QuietServe(b, mid, last.inputs, hs', now, 1);
    }
  }

  lemma QuietNode(b: CpuNode, hs: seq<Holding>, m: nat, n: nat)
    requires b.Sane(hs) && AllQuiet(hs) && (|b.links| == b.edges || |b.links| == b.edges + 1)
    ensures b.NodeOf(hs, m) == b.NodeOf(hs, n)
  {
    forall k | 0 <= k < |b.links| ensures b.EdgeOf(hs, k, m) == b.EdgeOf(hs, k, n) {
      var link, l, c := b.links[k], hs[k].value, hs[k].view;
      QuietBegun(link.chain, l, c, m);
      QuietBegun(link.chain, l, c, n);
      SameChain(link.ph, link.rate, link.chain, Begun(link.chain, l, c, m).vars, Begun(link.chain, l, c, n).vars);
    }
  }

  /** A run exists for every log of serves whose inputs have their serve's size. */
  lemma {:induction false} RunExists(b: CpuNode, hs: seq<Holding>, log: seq<Serve>) returns (hs': seq<Holding>, y: seq<Sample>)
    requires Wired(b) && b.Sane(hs) && LogFits(b.NodeOf(hs, 1), log)
    ensures b.Sane(hs') && Runs(b, hs, log, hs', y)
    decreases |log|
  {
    hide EdgeNow, LinkAfter, SaneLink, NodeOut;
    if log == [] {
      hs', y := hs, [];
    } else {
      var rest, last := log[..|log| - 1], log[|log| - 1];
      var mid, before := RunExists(b, hs, rest);
      assert Aligned(b.NodeOf(hs, 1), last.inputs, last.count);
      var now;
      hs', now := ServeExists(b, mid, last.inputs, last.count);
      y := before + now;
    }
  }

  lemma ServeExists(b: CpuNode, hs: seq<Holding>, xs: seq<seq<Sample>>, count: nat) returns (hs': seq<Holding>, y: seq<Sample>)
    requires Wired(b) && b.Sane(hs) && |xs| == b.edges && forall k :: 0 <= k < |xs| ==> |xs[k]| == count
    ensures b.Sane(hs') && |y| == count && b.Replied(hs, xs, hs', y)
  {
    hide EdgeNow, LinkAfter, SaneLink;
    assert Aligned(b.NodeOf(hs, count), xs, count);
    y := NodeOut(b.tr, b.NodeOf(hs, count), xs, count);
    var mid := b.HeldUpTo(hs, xs, b.edges);
    hs' := if |b.links| == b.edges then mid else b.HeldAfter(mid, b.edges, b.Summed(hs, xs, count));
  }

  // ---- From preparation to the radio -------------------------------------------------------------

  /** What a freshly prepared link holds, with nothing written for it. */
  function FreshHolding(ph: Physics, chain: seq<ModelStep>): Holding {
    Holding(FreshLink(ph, chain), View(YamlParams(chain), NO_PROFILE, false, 0, 0))
  }

  function ReceiverOf(rx: seq<seq<ModelStep>>): seq<ModelStep> {
    if rx == [] then [] else rx[0]
  }

  /** Node `b` with links as prepared from `configs` and, if there is one, from a receiver. */
  ghost predicate FreshlyPrepared(b: CpuNode, ph: Physics, rate: nat, configs: seq<seq<ModelStep>>, rx: seq<seq<ModelStep>>,
                                  hs: seq<Holding>)
  {
    && |rx| <= 1 && b.tr == ph.tr && b.edges == |configs| && |b.links| == |hs| == |configs + rx|
    && forall k :: 0 <= k < |b.links| ==>
         b.links[k].ph == ph && b.links[k].rate == rate && b.links[k].chain == (configs + rx)[k] &&
         hs[k] == FreshHolding(ph, (configs + rx)[k])
  }

  lemma FreshHoldingRuns(ph: Physics, rate: nat, chain: seq<ModelStep>, n: nat)
    requires ph.Valid() && SaneChain(chain) && KeepsTaps(chain)
    ensures var h := FreshHolding(ph, chain);
      SaneLink(ph, chain, h.value, h.view) && Quiet(h.value, h.view) &&
      EdgeNow(ph, rate, chain, h.value, h.view, n) == FreshOf(LinkChain(ph, rate, chain))
  {
    YamlSane(chain);
    FreshLinkIs(ph, rate, chain, View(YamlParams(chain), NO_PROFILE, false, 0, 0), n);
  }

  /** A freshly prepared node runs exactly the configured chains, from rest. */
  lemma FreshNodeRuns(b: CpuNode, ph: Physics, rate: nat, configs: seq<seq<ModelStep>>, rx: seq<seq<ModelStep>>,
                      hs: seq<Holding>, n: nat)
    requires ph.Valid() && Kept(configs, ReceiverOf(rx)) && FreshlyPrepared(b, ph, rate, configs, rx, hs)
    ensures Wired(b) && b.tr == ph.tr && b.Sane(hs) && AllQuiet(hs) && b.NodeOf(hs, n) == CpuPrepared(ph, rate, configs, ReceiverOf(rx))
  {
    hide SaneChain, KeepsTaps, EdgeNow, FreshHolding, FreshOf, SaneLink, Quiet, LinkChain;
    forall k | 0 <= k < |b.links|
      ensures SaneLink(b.links[k].ph, b.links[k].chain, hs[k].value, hs[k].view) && Quiet(hs[k].value, hs[k].view)
      ensures EdgeNow(ph, rate, (configs + rx)[k], hs[k].value, hs[k].view, n) == FreshOf(LinkChain(ph, rate, (configs + rx)[k]))
    {
      FreshHoldingRuns(ph, rate, (configs + rx)[k], n);
    }
    if rx == [] {
      NoReceiver(ph, rate);
    }
    var node, want := b.NodeOf(hs, n), CpuPrepared(ph, rate, configs, ReceiverOf(rx));
    forall k | 0 <= k < |configs| ensures node.edges[k] == want.edges[k] {
      assert (configs + rx)[k] == configs[k];
    }
  }

  lemma NoReceiver(ph: Physics, rate: nat)
    ensures FreshOf(LinkChain(ph, rate, [])) == Edge([], [])
  {
  }

  /** The signal the CPU backend sends to a radio, over every interleaving of the relay: from a
      freshly prepared node, with no control writes, the first `served` samples of the configured
      channels on whole streams. */
  lemma CpuRelayedSignal(t: Topology, s: State, d: nat, ph: Physics, rate: nat, configs: seq<seq<ModelStep>>,
                         rx: seq<seq<ModelStep>>, b: CpuNode, hs: seq<Holding>, hs': seq<Holding>, y: seq<Sample>,
                         xs: seq<seq<Sample>>, n: nat)
    requires t.Valid() && Reachable(t, s) && d < |t.batch| && |configs| == |t.Incoming(d)|
    requires ph.Valid() && ph.tr.Periodic() && Kept(configs, ReceiverOf(rx)) && FreshlyPrepared(b, ph, rate, configs, rx, hs)
    requires Runs(b, hs, s.rx[d].log, hs', y) && CausalNode(CpuPrepared(ph, rate, configs, ReceiverOf(rx)))
    requires Aligned(CpuPrepared(ph, rate, configs, ReceiverOf(rx)), xs, n) && s.rx[d].served <= n
    requires forall j :: 0 <= j < |xs| ==>
               s.rx[d].served <= |s.tx[t.Source(d, j)].sent| && s.tx[t.Source(d, j)].sent[..s.rx[d].served] <= xs[j]
    ensures CpuPrepared(ph, rate, configs, ReceiverOf(rx)).Shaped()
    ensures y == WholeNode(ph.tr, CpuPrepared(ph, rate, configs, ReceiverOf(rx)), xs, n)[..s.rx[d].served]
  {
    hide Inv, Reachable, RxOk, ServeOk, FreshNode, CausalNode, WholeNode, Runs, AllQuiet, SaneLink, Kept, CpuNode.NodeOf,
         FreshlyPrepared, Trig.Periodic, LinkChain;
    Sized(t, s);
    var log, node := s.rx[d].log, CpuPrepared(ph, rate, configs, ReceiverOf(rx));
    LogCounts(t, s, d);
    FreshNodeRuns(b, ph, rate, configs, rx, hs, 1);
    PreparedFresh(ph, rate, configs, ReceiverOf(rx));
    FreshShaped(node);
    QuietRun(b, hs, log, hs', y);
    RelayedSignal(t, s, d, ph.tr, node, xs, n);
  }

  /** Such a run exists for the log of every reachable state: the relay never hands the backend a
      serve it refuses. */
  lemma RelayedRunExists(t: Topology, s: State, d: nat, ph: Physics, rate: nat, configs: seq<seq<ModelStep>>,
                         rx: seq<seq<ModelStep>>, b: CpuNode, hs: seq<Holding>) returns (hs': seq<Holding>, y: seq<Sample>)
    requires t.Valid() && Reachable(t, s) && d < |t.batch| && |configs| == |t.Incoming(d)|
    requires ph.Valid() && Kept(configs, ReceiverOf(rx)) && FreshlyPrepared(b, ph, rate, configs, rx, hs)
    ensures Runs(b, hs, s.rx[d].log, hs', y)
  {
    hide Inv, Reachable, RxOk, Runs, AllQuiet, SaneLink, Kept, FreshlyPrepared, EdgeNow;
    Sized(t, s);
    FreshNodeRuns(b, ph, rate, configs, rx, hs, 1);
    LogServes(t, s, d);
    hs', y := RunExists(b, hs, s.rx[d].log);
  }

  lemma Sized(t: Topology, s: State)
    requires t.Valid() && Reachable(t, s)
    ensures |s.rx| == |s.tx| == |t.batch|
  {
    ReachableInv(t, s);
  }

  /** Every serve of the relay is within the batch, with one window of its size per edge. */
  lemma LogServes(t: Topology, s: State, d: nat)
    requires t.Valid() && Reachable(t, s) && d < |t.batch|
    ensures forall k :: 0 <= k < |s.rx[d].log| ==> ServeOk(t, s.rx[d].log[k], d)
  {
    ReachableInv(t, s);
    assert RxOk(t, s.tx, s.rx[d], s.link, d);
  }

  lemma LogCounts(t: Topology, s: State, d: nat)
    requires t.Valid() && Reachable(t, s) && d < |t.batch|
    ensures forall k :: 0 <= k < |s.rx[d].log| ==> s.rx[d].log[k].count > 0
  {
    hide Reachable;
    Sized(t, s);
    LogServes(t, s, d);
    assert forall k :: 0 <= k < |s.rx[d].log| ==> ServeOk(t, s.rx[d].log[k], d);
  }
}

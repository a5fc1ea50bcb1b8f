/** The fused form behind the relay: sources shared between edges and packed once. */
module FusedEndToEnd {
  import opened Iq
  import opened Phase
  import opened Relay
  import opened RelaySafety
  import opened Chain
  import opened Fused
  import opened FusedProof
  import opened EndToEnd

  /** Node `d`'s source table: an edge's packed slot comes from an edge with its source. */
  predicate SourceTable(t: Topology, d: nat, src: seq<nat>, firstEdge: seq<nat>)
    requires t.Valid() && d < |t.batch|
  {
    && |src| == |t.Incoming(d)|
    && (forall n :: 0 <= n < |firstEdge| ==> firstEdge[n] < |src|)
    && forall k :: 0 <= k < |src| ==> src[k] < |firstEdge| && t.Source(d, firstEdge[src[k]]) == t.Source(d, k)
  }

  ghost predicate SharedThroughout(g: GpuNode, log: seq<Serve>)
    requires g.Shaped()
  {
    forall n :: 0 <= n < |log| ==> |log[n].inputs| == |g.edges| && SharedInputs(g, log[n].inputs)
  }

  ghost predicate FusedFits(g: GpuNode, log: seq<Serve>) {
    forall n :: 0 <= n < |log| ==> Fitting(g, log[n].inputs, log[n].count)
  }

  ghost function FusedAfter(tr: Trig, g: GpuNode, log: seq<Serve>): (g': GpuNode)
    requires tr.turn > 0.0 && g.Shaped() && FusedFits(g, log)
    ensures g'.Shaped() && |g'.edges| == |g.edges|
    decreases |log|
  {
    if log == [] then g
    else
      var last := log[|log| - 1];
      FusedNext(tr, FusedAfter(tr, g, log[..|log| - 1]), last.inputs, last.count)
  }

  /** Everything the fused backend sends to the node's radio. */
  ghost function FusedReplies(tr: Trig, g: GpuNode, log: seq<Serve>): (y: seq<Sample>)
    requires tr.turn > 0.0 && g.Shaped() && FusedFits(g, log)
    decreases |log|
  {
    if log == [] then []
    else
      var rest, last := log[..|log| - 1], log[|log| - 1];
      FusedReplies(tr, g, rest) + FusedOut(tr, FusedAfter(tr, g, rest), last.inputs, last.count)
  }

  lemma {:induction false} SharedAfter(tr: Trig, g: GpuNode, log: seq<Serve>, inputs: seq<seq<Sample>>)
    requires tr.turn > 0.0 && g.Shaped() && FusedFits(g, log) && |inputs| == |g.edges|
    ensures SharedInputs(FusedAfter(tr, g, log), inputs) <==> SharedInputs(g, inputs)
    decreases |log|
  {
    if log != [] {
      var rest, last := log[..|log| - 1], log[|log| - 1];
      SharedAfter(tr, g, rest, inputs);
      SharingStays(tr, FusedAfter(tr, g, rest), last.inputs, last.count, inputs);
    }
  }

  /** Over any log of serves the fused backend and the plain loop send the same. */
  lemma {:induction false} FusedRepliesAreReplies(tr: Trig, node: Node, g: GpuNode, log: seq<Serve>)
    requires tr.Periodic() && Matches(tr, node, g) && LogFits(node, log) && SharedThroughout(g, log)
    ensures FusedFits(g, log)
    ensures Matches(tr, NodeAfter(tr, node, log), FusedAfter(tr, g, log))
    ensures FusedReplies(tr, g, log) == Replies(tr, node, log)
    decreases |log|
  {
    if log != [] {
      var rest, last := log[..|log| - 1], log[|log| - 1];
      FusedRepliesAreReplies(tr, node, g, rest);
      var now, gnow := NodeAfter(tr, node, rest), FusedAfter(tr, g, rest);
      assert Aligned(node, last.inputs, last.count) && SharedInputs(g, last.inputs);
      SharedAfter(tr, g, rest, last.inputs);
      hide Matches, SharedInputs, FusedNext, NodeNext, FusedOut, NodeOut, Trig.Periodic;
      FusedIsPlain(tr, now, gnow, last.inputs, last.count);
      MatchStays(tr, now, gnow, last.inputs, last.count);
    }
  }

  /** Edges that share a source are handed the same window in every serve of every run,
      so packing the source once loses nothing. */
  lemma PackingIsSound(t: Topology, s: State, d: nat, g: GpuNode)
    requires t.Valid() && Reachable(t, s) && d < |t.batch| && g.Shaped() && |g.edges| == |t.Incoming(d)|
    requires SourceTable(t, d, seq(|g.edges|, k requires 0 <= k < |g.edges| => g.edges[k].dev.src), g.firstEdge)
    ensures SharedThroughout(g, s.rx[d].log)
  {
    var log := s.rx[d].log;
    ReachableInv(t, s);
    assert RxOk(t, s.tx, s.rx[d], s.link, d);
    var src := seq(|g.edges|, k requires 0 <= k < |g.edges| => g.edges[k].dev.src);
    forall n | 0 <= n < |log| ensures |log[n].inputs| == |g.edges| && SharedInputs(g, log[n].inputs) {
      assert ServeOk(t, log[n], d);
      forall k | 0 <= k < |g.edges| ensures SourceOf(g, log[n].inputs, k) == log[n].inputs[k] {
        var j := g.firstEdge[src[k]];
        assert t.Source(d, j) == t.Source(d, k);
        WindowsAreThePrefix(t, s, d, j);
        WindowsAreThePrefix(t, s, d, k);
        SharedSourceSharedWindow(t, log, d, j, k, n);
      }
    }
  }

  ghost predicate FusedShape(t: Topology, d: nat, node: Node, src: seq<nat>, firstEdge: seq<nat>)
    requires t.Valid() && d < |t.batch|
  {
    && FreshNode(node) && RunsOnDevice(node) && |node.edges| == |t.Incoming(d)| && SourceTable(t, d, src, firstEdge)
  }

  lemma PreparedRuns(t: Topology, s: State, d: nat, tr: Trig, node: Node, src: seq<nat>, firstEdge: seq<nat>)
    requires t.Valid() && Reachable(t, s) && d < |t.batch| && FusedShape(t, d, node, src, firstEdge)
    ensures Matches(tr, node, Prepared(node, src, firstEdge))
    ensures SharedThroughout(Prepared(node, src, firstEdge), s.rx[d].log)
  {
    hide Reachable, RunsOnDevice, Matches, SharedThroughout;
    AtZero(node);
    PreparedMatches(tr, node, src, firstEdge);
    var g := Prepared(node, src, firstEdge);
    assert src == seq(|g.edges|, k requires 0 <= k < |g.edges| => g.edges[k].dev.src);
    assert g.Shaped() by { ShapedMatch(tr, node, g); }
    PackingIsSound(t, s, d, g);
  }

  lemma ShapedMatch(tr: Trig, node: Node, g: GpuNode)
    requires Matches(tr, node, g)
    ensures g.Shaped()
  {
  }

  lemma AtZero(node: Node)
    requires FreshNode(node)
    ensures node.Shaped() && ZeroPhases(node.rx) && forall k :: 0 <= k < |node.edges| ==> ZeroPhases(node.edges[k])
  {
    assert FreshEdge(node.rx);
    forall k | 0 <= k < |node.edges| ensures node.edges[k].Shaped() && ZeroPhases(node.edges[k]) {
      assert FreshEdge(node.edges[k]);
    }
  }

  /** The signal that reaches a radio through the fused backend, over every interleaving of
      the relay: the first `served` samples of the edges' channels on whole streams. */
  lemma FusedRelayedSignal(t: Topology, s: State, d: nat, tr: Trig, node: Node, src: seq<nat>, firstEdge: seq<nat>,
                           xs: seq<seq<Sample>>, n: nat)
    requires t.Valid() && Reachable(t, s) && d < |t.batch|
    requires tr.Periodic() && CausalNode(node) && FusedShape(t, d, node, src, firstEdge)
    requires Aligned(node, xs, n) && s.rx[d].served <= n
    requires forall j :: 0 <= j < |xs| ==>
               s.rx[d].served <= |s.tx[t.Source(d, j)].sent| && s.tx[t.Source(d, j)].sent[..s.rx[d].served] <= xs[j]
    ensures var g := Prepared(node, src, firstEdge);
      g.Shaped() && FusedFits(g, s.rx[d].log) &&
      FusedReplies(tr, g, s.rx[d].log) == WholeNode(tr, node, xs, n)[..s.rx[d].served]
  {
    RelayedSignal(t, s, d, tr, node, xs, n);
    PreparedRuns(t, s, d, tr, node, src, firstEdge);
    FusedRepliesAreReplies(tr, node, Prepared(node, src, firstEdge), s.rx[d].log);
  }
}

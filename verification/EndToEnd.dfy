/** The relay and the channel together: what a node receives over a whole run. */
module EndToEnd {
  import opened Wrappers
  import opened Iq
  import opened Phase
  import opened Relay
  import opened RelaySafety
  import opened Chain
  import Tdl
  import TdlStream

  /** A step as prepared before the first slot. */
  ghost predicate FreshStep(step: Step, st: StepState) {
    st.phase == 0.0 && st.line == Zeros(|st.line|) && (step.Taps? ==> Tdl.Covers(step.taps, |st.line|))
  }

  ghost predicate FreshEdge(e: Edge) {
    e.Shaped() && forall k :: 0 <= k < |e.chain| ==> FreshStep(e.chain[k], e.sts[k])
  }

  ghost predicate FreshNode(node: Node) {
    FreshEdge(node.rx) && forall k :: 0 <= k < |node.edges| ==> FreshEdge(node.edges[k])
  }

  lemma {:induction false} FreshIsCaughtUp(tr: Trig, chain: seq<Step>, sts: seq<StepState>)
    requires ShapedChain(chain) && |chain| == |sts| && forall k :: 0 <= k < |chain| ==> FreshStep(chain[k], sts[k])
    ensures CaughtUp(tr, chain, sts, [])
  {
    if chain != [] {
      assert FreshStep(chain[0], sts[0]);
      if chain[0].Turn? {
        Reflexive(tr, 0.0);
        assert Angle(0, chain[0].increment) == 0.0;
      }
      assert chain[0].Taps? ==> sts[0].line == TdlStream.Tail([], |sts[0].line|);
      assert WholeStep(tr, chain[0], []) == [];
      forall k | 0 <= k < |chain| - 1 ensures FreshStep(chain[1..][k], sts[1..][k]) {
        assert FreshStep(chain[k + 1], sts[k + 1]);
      }
      FreshIsCaughtUp(tr, chain[1..], sts[1..]);
    }
  }

  // ---- A node over a log of serves -------------------------------------------------------

  ghost predicate LogFits(node: Node, log: seq<Serve>) {
    forall n :: 0 <= n < |log| ==> Aligned(node, log[n].inputs, log[n].count)
  }

  ghost function NodeAfter(tr: Trig, node: Node, log: seq<Serve>): (node': Node)
    requires tr.turn > 0.0 && node.Shaped() && LogFits(node, log)
    ensures node'.Shaped() && |node'.edges| == |node.edges| && node'.rx.chain == node.rx.chain
    ensures forall k :: 0 <= k < |node.edges| ==> node'.edges[k].chain == node.edges[k].chain
    decreases |log|
  {
    if log == [] then node
    else
      var last := log[|log| - 1];
      NodeNext(tr, NodeAfter(tr, node, log[..|log| - 1]), last.inputs, last.count)
  }

  /** Everything sent to the node's radio, one reply after the other. */
  ghost function Replies(tr: Trig, node: Node, log: seq<Serve>): (y: seq<Sample>)
    requires tr.turn > 0.0 && node.Shaped() && LogFits(node, log)
    ensures |y| == TotalServed(log)
    decreases |log|
  {
    if log == [] then []
    else
      var rest, last := log[..|log| - 1], log[|log| - 1];
      Replies(tr, node, rest) + NodeOut(tr, NodeAfter(tr, node, rest), last.inputs, last.count)
  }

  /** The windows handed to each edge, put end to end. */
  ghost function Columns(node: Node, log: seq<Serve>): (xs: seq<seq<Sample>>)
    requires LogFits(node, log)
    ensures |xs| == |node.edges| && forall k :: 0 <= k < |xs| ==> xs[k] == Column(log, k)
  {
    seq(|node.edges|, k requires 0 <= k < |node.edges| => Column(log, k))
  }

  lemma {:induction false} ColumnsAligned(node: Node, log: seq<Serve>)
    requires LogFits(node, log)
    ensures Aligned(node, Columns(node, log), TotalServed(log))
  {
    if log != [] {
      var rest, last := log[..|log| - 1], log[|log| - 1];
      ColumnsAligned(node, rest);
      assert Aligned(node, last.inputs, last.count);
      forall k | 0 <= k < |node.edges| ensures |Column(log, k)| == TotalServed(log) {
        assert Columns(node, rest)[k] == Column(rest, k);
      }
    }
  }

  lemma SameWhole(tr: Trig, a: Node, b: Node, xs: seq<seq<Sample>>, n: nat)
    requires a.Shaped() && b.Shaped() && Aligned(a, xs, n) && Aligned(b, xs, n)
    requires a.rx.chain == b.rx.chain && forall k :: 0 <= k < |xs| ==> a.edges[k].chain == b.edges[k].chain
    ensures WholeNode(tr, a, xs, n) == WholeNode(tr, b, xs, n)
  {
    assert WholeEdges(tr, a, xs, n) == WholeEdges(tr, b, xs, n);
  }

  /** A node served by any sequence of windows has computed its whole-stream response. */
  lemma {:induction false} RepliesAreWhole(tr: Trig, node: Node, log: seq<Serve>)
    requires tr.Periodic() && FreshNode(node) && CausalNode(node) && LogFits(node, log)
    ensures Aligned(node, Columns(node, log), TotalServed(log))
    ensures NodeCaughtUp(tr, NodeAfter(tr, node, log), Columns(node, log), TotalServed(log))
    ensures Replies(tr, node, log) == WholeNode(tr, node, Columns(node, log), TotalServed(log))
    decreases |log|
  {
    ColumnsAligned(node, log);
    assert tr.turn > 0.0 && node.Shaped();
    hide Trig.Periodic, FreshNode, NodeCaughtUp, WholeNode, NodeOut, NodeNext, CausalChain, Aligned, Column, Node.Shaped;
    if log == [] {
      NothingYet(tr, node);
    } else {
      var rest, last := log[..|log| - 1], log[|log| - 1];
      RepliesAreWhole(tr, node, rest);
      var before := NodeAfter(tr, node, rest);
      SameWhole(tr, before, node, Columns(node, rest), TotalServed(rest));
      var zs := NodeContinues(tr, before, Columns(node, rest), TotalServed(rest), last.inputs, last.count);
      assert zs == Columns(node, log);
      SameWhole(tr, before, node, zs, TotalServed(log));
    }
  }

  lemma NothingYet(tr: Trig, node: Node)
    requires tr.Periodic() && FreshNode(node)
    ensures Aligned(node, Columns(node, []), 0)
    ensures NodeCaughtUp(tr, node, Columns(node, []), 0)
    ensures WholeNode(tr, node, Columns(node, []), 0) == []
  {
    forall k | 0 <= k < |node.edges| ensures CaughtUp(tr, node.edges[k].chain, node.edges[k].sts, []) {
      assert FreshEdge(node.edges[k]);
      FreshIsCaughtUp(tr, node.edges[k].chain, node.edges[k].sts);
    }
    FreshIsCaughtUp(tr, node.rx.chain, node.rx.sts);
    assert Mix(WholeEdges(tr, node, Columns(node, []), 0), 0) == [];
  }

  /** What a node hears later does not change what it has heard. */
  lemma WholeNodePrefix(tr: Trig, node: Node, xs: seq<seq<Sample>>, m: nat, zs: seq<seq<Sample>>, n: nat)
    requires tr.Periodic() && node.Shaped() && CausalNode(node) && m <= n
    requires Aligned(node, xs, m) && Aligned(node, zs, n) && NodeCaughtUp(tr, node, xs, m)
    requires forall k :: 0 <= k < |xs| ==> xs[k] <= zs[k]
    ensures WholeNode(tr, node, zs, n)[..m] == WholeNode(tr, node, xs, m)
  {
    hide *;
    assert tr.turn > 0.0 by { Turning(tr); }
    var us := Remainder(node, xs, m, zs, n);
    var sum := NodeContinues(tr, node, xs, m, us, n - m);
    assert sum == zs;
    assert m + (n - m) == n;
  }

  lemma Turning(tr: Trig)
    requires tr.Periodic()
    ensures tr.turn > 0.0
  {
  }

  lemma Remainder(node: Node, xs: seq<seq<Sample>>, m: nat, zs: seq<seq<Sample>>, n: nat) returns (us: seq<seq<Sample>>)
    requires Aligned(node, xs, m) && Aligned(node, zs, n) && m <= n
    requires forall k :: 0 <= k < |xs| ==> xs[k] <= zs[k]
    ensures Aligned(node, us, n - m) && |xs| == |zs| == |us| && forall k :: 0 <= k < |xs| ==> xs[k] + us[k] == zs[k]
  {
    us := seq(|xs|, k requires 0 <= k < |xs| => zs[k][m..]);
  }

  /** Every interleaving gives a node the same signal: in any reachable state of the
      relay, the replies to node `d` are the first `served` samples of its edges' channels
      run on the whole streams `xs` that its sources transmit, summed and passed through
      its receiver chain. */
  lemma RelayedSignal(t: Topology, s: State, d: nat, tr: Trig, node: Node, xs: seq<seq<Sample>>, n: nat)
    requires t.Valid() && Reachable(t, s) && d < |t.batch|
    requires tr.Periodic() && FreshNode(node) && CausalNode(node) && |node.edges| == |t.Incoming(d)|
    requires Aligned(node, xs, n) && s.rx[d].served <= n
    requires forall j :: 0 <= j < |xs| ==>
               s.rx[d].served <= |s.tx[t.Source(d, j)].sent| && s.tx[t.Source(d, j)].sent[..s.rx[d].served] <= xs[j]
    ensures LogFits(node, s.rx[d].log)
    ensures Replies(tr, node, s.rx[d].log) == WholeNode(tr, node, xs, n)[..s.rx[d].served]
  {
    var log, m := s.rx[d].log, s.rx[d].served;
    ReachableInv(t, s);
    assert RxOk(t, s.tx, s.rx[d], s.link, d);
    assert LogFits(node, log) by {
      forall k | 0 <= k < |log| ensures Aligned(node, log[k].inputs, log[k].count) {
        assert ServeOk(t, log[k], d);
      }
    }
    forall j | 0 <= j < |xs| ensures Column(log, j) <= xs[j] {
      WindowsAreThePrefix(t, s, d, j);
    }
    hide Inv, RxOk, Reachable, FreshNode, NodeCaughtUp, WholeNode, Trig.Periodic;
    RepliesAreWhole(tr, node, log);
    var now := NodeAfter(tr, node, log);
    WholeNodePrefix(tr, now, Columns(node, log), m, xs, n);
    SameWhole(tr, now, node, Columns(node, log), m);
    SameWhole(tr, now, node, xs, n);
  }
}

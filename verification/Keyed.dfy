/**
 Links that share a key.  A link's state is looked up by `from>to:model` (src/config.cpp:807-810,
 src/cpu_backend.cpp:47-60), and nothing keeps two links from having one key
 (src/config.cpp:507-527): within a serve the second then continues where the first left off.
 */
module Keyed {
  import opened Iq
  import opened Phase
  import opened Chain
  import opened Relay
  import opened EndToEnd
  import opened Configured

  /** Edge `k` runs `chains[k]` on the states stored under `keys[k]`. */
  datatype KeyedNode = KeyedNode(keys: seq<string>, chains: seq<seq<Step>>, states: map<string, seq<StepState>>)
  {
    predicate Shaped() {
      && |keys| == |chains|
      && (forall k :: 0 <= k < |keys| ==>
            keys[k] in states && ShapedChain(chains[k]) && |states[keys[k]]| == |chains[k]|)
      && forall j, k :: 0 <= j < |keys| && 0 <= k < |keys| && keys[j] == keys[k] ==> chains[j] == chains[k]
    }

    predicate Distinct() {
      forall j, k :: 0 <= j < k < |keys| ==> keys[j] != keys[k]
    }
  }

  /** Edge `k` after its slot of `x`. */
  function EdgeRun(tr: Trig, m: KeyedNode, k: nat, x: seq<Sample>): (m': KeyedNode)
    requires tr.turn > 0.0 && m.Shaped() && k < |m.keys|
    ensures m'.Shaped() && m'.keys == m.keys && m'.chains == m.chains
  {
    m.(states := m.states[m.keys[k] := ChainNext(tr, m.chains[k], m.states[m.keys[k]], x)])
  }

  /** ... and the first `k` edges, in order. */
  function EdgesRun(tr: Trig, m: KeyedNode, xs: seq<seq<Sample>>, k: nat): (m': KeyedNode)
    requires tr.turn > 0.0 && m.Shaped() && k <= |xs| == |m.keys|
    ensures m'.Shaped() && m'.keys == m.keys && m'.chains == m.chains
  {
    if k == 0 then m else EdgeRun(tr, EdgesRun(tr, m, xs, k - 1), k - 1, xs[k - 1])
  }

  function KeyedOuts(tr: Trig, m: KeyedNode, xs: seq<seq<Sample>>): (ys: seq<seq<Sample>>)
    requires tr.turn > 0.0 && m.Shaped() && |xs| == |m.keys|
    ensures |ys| == |xs| && forall k :: 0 <= k < |ys| ==> |ys[k]| == |xs[k]|
  {
    seq(|xs|, k requires 0 <= k < |xs| => ChainOut(tr, m.chains[k], EdgesRun(tr, m, xs, k).states[m.keys[k]], xs[k]))
  }

  /** The same edges with states of their own; the receiver plays no part here. */
  function Own(m: KeyedNode): (node: Node)
    requires m.Shaped()
    ensures node.Shaped() && |node.edges| == |m.keys|
    ensures forall k :: 0 <= k < |m.keys| ==> node.edges[k] == Edge(m.chains[k], m.states[m.keys[k]])
  {
    Node(seq(|m.keys|, k requires 0 <= k < |m.keys| => Edge(m.chains[k], m.states[m.keys[k]])), Edge([], []))
  }

  ghost function KeyedAfter(tr: Trig, m: KeyedNode, log: seq<Serve>): (m': KeyedNode)
    requires tr.turn > 0.0 && m.Shaped() && LogFits(Own(m), log)
    ensures m'.Shaped() && m'.keys == m.keys && m'.chains == m.chains
    decreases |log|
  {
    if log == [] then m
    else
      assert Aligned(Own(m), log[|log| - 1].inputs, log[|log| - 1].count);
      EdgesRun(tr, KeyedAfter(tr, m, log[..|log| - 1]), log[|log| - 1].inputs, |m.keys|)
  }

  /** The sums the keyed edges send to the receiver over a log of serves. */
  ghost function KeyedSums(tr: Trig, m: KeyedNode, log: seq<Serve>): (x: seq<Sample>)
    requires tr.turn > 0.0 && m.Shaped() && LogFits(Own(m), log)
    decreases |log|
  {
    if log == [] then []
    else
      var rest, last := log[..|log| - 1], log[|log| - 1];
      assert Aligned(Own(m), last.inputs, last.count);
      KeyedSums(tr, m, rest) + Mix(KeyedOuts(tr, KeyedAfter(tr, m, rest), last.inputs), last.count)
  }

  // ---- Keys of their own ------------------------------------------------------------------------

  lemma {:induction false} OthersUntouched(tr: Trig, m: KeyedNode, xs: seq<seq<Sample>>, k: nat, j: nat)
    requires tr.turn > 0.0 && m.Shaped() && m.Distinct() && k <= |xs| == |m.keys| && j < |m.keys|
    ensures EdgesRun(tr, m, xs, k).states[m.keys[j]] ==
            if j < k then ChainNext(tr, m.chains[j], m.states[m.keys[j]], xs[j]) else m.states[m.keys[j]]
  {
    hide ChainNext, ShapedChain, EdgeRun;
    if k > 0 {
      OthersUntouched(tr, m, xs, k - 1, j);
      RunsOne(tr, EdgesRun(tr, m, xs, k - 1), k - 1, xs[k - 1], j);
    }
  }

  lemma RunsOne(tr: Trig, m: KeyedNode, k: nat, x: seq<Sample>, j: nat)
    requires tr.turn > 0.0 && m.Shaped() && m.Distinct() && k < |m.keys| && j < |m.keys|
    ensures EdgeRun(tr, m, k, x).states[m.keys[j]] ==
            if j == k then ChainNext(tr, m.chains[k], m.states[m.keys[k]], x) else m.states[m.keys[j]]
  {
    hide ChainNext, ShapedChain;
    if j != k {
      assert m.keys[if j < k then j else k] != m.keys[if j < k then k else j];
    }
  }

  lemma DistinctServe(tr: Trig, m: KeyedNode, xs: seq<seq<Sample>>, count: nat)
    requires tr.turn > 0.0 && m.Shaped() && m.Distinct() && Aligned(Own(m), xs, count)
    ensures KeyedOuts(tr, m, xs) == EdgeOuts(tr, Own(m), xs, count)
    ensures Own(EdgesRun(tr, m, xs, |xs|)).edges == NodeNext(tr, Own(m), xs, count).edges
  {
    hide ChainOut, ChainNext, ShapedChain, EdgesRun, Mix;
    forall k | 0 <= k < |xs|
      ensures KeyedOuts(tr, m, xs)[k] == EdgeOuts(tr, Own(m), xs, count)[k]
      ensures Own(EdgesRun(tr, m, xs, |xs|)).edges[k] == NodeNext(tr, Own(m), xs, count).edges[k]
    {
      OthersUntouched(tr, m, xs, k, k);
      OthersUntouched(tr, m, xs, |xs|, k);
    }
  }

  /** With keys of their own, edges looked up by key send what edges with their own state send. */
  lemma {:induction false} DistinctKeysAreOwn(tr: Trig, m: KeyedNode, log: seq<Serve>)
    requires tr.turn > 0.0 && m.Shaped() && m.Distinct() && LogFits(Own(m), log)
    ensures Own(KeyedAfter(tr, m, log)).edges == NodeAfter(tr, Own(m), log).edges
    ensures KeyedSums(tr, m, log) == Sums(tr, Own(m), log)
    decreases |log|
  {
    hide Mix, ChainOut, ChainNext, EdgesRun, KeyedOuts, EdgeOuts, NodeNext, KeyedNode.Shaped, Node.Shaped;
    if log != [] {
      var rest, last := log[..|log| - 1], log[|log| - 1];
      DistinctKeysAreOwn(tr, m, rest);
      assert Aligned(Own(m), last.inputs, last.count);
      var now := KeyedAfter(tr, m, rest);
      DistinctServe(tr, now, last.inputs, last.count);
      SameOuts(tr, Own(now), NodeAfter(tr, Own(m), rest), last.inputs, last.count);
    }
  }
}

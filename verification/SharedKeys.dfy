/**
 Links that share a key (src/config.cpp:507-527, 807-810; src/cpu_backend.cpp:47-60) run on one state,
 which within a serve advances once for each of them: exactly when that can be heard.
 */
module SharedKeys {
  import opened Iq
  import opened Phase
  import opened Chain
  import opened Relay
  import opened EndToEnd
  import opened Fused
  import opened Receiver
  import opened Configured
  import opened Keyed
  import opened LeadChains
  import opened Forgetful
  import NodesAgree
  import Tdl
  import TdlStream
  import TdlResponse
  import TdlRing

  // ---- What is compared ----------------------------------------------------------------------------------

  /** A key names the source, so links with one key are handed one window. */
  ghost predicate OneSource(keys: seq<string>, log: seq<Serve>) {
    forall n :: 0 <= n < |log| ==> SameWindows(keys, log[n].inputs)
  }

  /** Freshly prepared: chains with a tdl at most in front, states at rest. */
  ghost predicate FreshKeyed(m: KeyedNode) {
    m.Shaped() && forall k :: 0 <= k < |m.keys| ==>
      LeadingOnly(m.chains[k]) && m.states[m.keys[k]] == FreshOf(m.chains[k]).sts && Factor(Back(m.chains[k])) != 0.0
  }

  /** Whatever is served, sharing makes no difference. */
  ghost predicate SharedAlike(tr: Trig, m: KeyedNode)
    requires tr.turn > 0.0 && m.Shaped()
  {
    forall log :: LogFits(Own(m), log) && OneSource(m.keys, log) ==> KeyedSums(tr, m, log) == Sums(tr, Own(m), log)
  }

  ghost predicate RepeatedForget(tr: Trig, m: KeyedNode)
    requires m.Shaped()
  {
    forall k :: 0 <= k < |m.keys| && Repeated(m.keys, k) ==> Forgets(tr, m.chains[k])
  }

  // ---- Chains that forget ----------------------------------------------------------------------------------

  ghost predicate Reached(tr: Trig, chain: seq<Step>, sts: seq<StepState>) {
    exists h :: After(tr, chain, sts, h)
  }

  /** Edge `k` with its own state `own`, and with the state `shared` under its key. */
  ghost predicate Abreast(tr: Trig, keys: seq<string>, chain: seq<Step>, k: nat, shared: seq<StepState>, own: seq<StepState>)
    requires k < |keys|
  {
    && Reached(tr, chain, shared) && Reached(tr, chain, own)
    && (!Repeated(keys, k) ==> shared == own)
  }

  ghost predicate AllAbreast(tr: Trig, m: KeyedNode, node: Node) {
    && m.Shaped() && node.Shaped() && |node.edges| == |m.keys|
    && forall k :: 0 <= k < |m.keys| ==>
         node.edges[k].chain == m.chains[k] && LeadingOnly(m.chains[k])
         && Abreast(tr, m.keys, m.chains[k], k, m.states[m.keys[k]], node.edges[k].sts)
  }

  lemma ReachedNext(tr: Trig, chain: seq<Step>, sts: seq<StepState>, x: seq<Sample>)
    requires Circular(tr) && ShapedChain(chain) && LeadingOnly(chain) && Reached(tr, chain, sts)
    ensures tr.turn > 0.0 && |sts| == |chain| && Reached(tr, chain, ChainNext(tr, chain, sts, x))
  {
    hide Circular, After, ChainNext, ChainOut, ShapedChain, LeadingOnly, Factored;
    var h :| After(tr, chain, sts, h);
    AfterSize(tr, chain, sts, h);
    SlotAfter(tr, chain, sts, h, x);
  }

  lemma AfterSize(tr: Trig, chain: seq<Step>, sts: seq<StepState>, h: seq<Sample>)
    requires After(tr, chain, sts, h)
    ensures |sts| == |chain|
  {
  }

  lemma RunsKey(tr: Trig, m: KeyedNode, i: nat, x: seq<Sample>, k: nat)
    requires tr.turn > 0.0 && m.Shaped() && i < |m.keys| && k < |m.keys|
    ensures |m.chains| == |m.keys| && m.keys[k] in m.states && m.keys[k] in EdgeRun(tr, m, i, x).states
    ensures ShapedChain(m.chains[k]) && |m.states[m.keys[k]]| == |m.chains[k]|
    ensures EdgeRun(tr, m, i, x).states[m.keys[k]] ==
            if m.keys[i] == m.keys[k] then ChainNext(tr, m.chains[k], m.states[m.keys[k]], x) else m.states[m.keys[k]]
  {
    hide ChainNext, ShapedChain;
  }

  /** Part-way through a serve. */
  lemma {:induction false} RunAbreast(tr: Trig, m: KeyedNode, xs: seq<seq<Sample>>, n: nat, k: nat)
    requires Circular(tr) && tr.turn > 0.0 && m.Shaped() && n <= |xs| == |m.keys| && k < |m.keys|
    requires LeadingOnly(m.chains[k]) && Reached(tr, m.chains[k], m.states[m.keys[k]])
    ensures var s := EdgesRun(tr, m, xs, n).states[m.keys[k]];
      && Reached(tr, m.chains[k], s)
      && (!Repeated(m.keys, k) ==> s == if k < n then ChainNext(tr, m.chains[k], m.states[m.keys[k]], xs[k]) else m.states[m.keys[k]])
  {
    hide Circular, ChainNext, ChainOut, ShapedChain, LeadingOnly, Reached, EdgeRun, KeyedNode.Shaped;
    if n > 0 {
      RunAbreast(tr, m, xs, n - 1, k);
      RunsKey(tr, EdgesRun(tr, m, xs, n - 1), n - 1, xs[n - 1], k);
      if m.keys[n - 1] == m.keys[k] {
        ReachedNext(tr, m.chains[k], EdgesRun(tr, m, xs, n - 1).states[m.keys[k]], xs[n - 1]);
      }
    }
  }

  lemma SameSlot(tr: Trig, chain: seq<Step>, s: seq<StepState>, s': seq<StepState>, x: seq<Sample>)
    requires Circular(tr) && ShapedChain(chain) && LeadingOnly(chain) && Forgets(tr, chain)
    requires Reached(tr, chain, s) && Reached(tr, chain, s')
    ensures tr.turn > 0.0 && |s| == |s'| == |chain| && ChainOut(tr, chain, s, x) == ChainOut(tr, chain, s', x)
  {
    hide Circular, After, ChainOut, ShapedChain, LeadingOnly, Forgets;
    var h :| After(tr, chain, s, h);
    var h' :| After(tr, chain, s', h');
    AfterSize(tr, chain, s, h);
    AfterSize(tr, chain, s', h');
    ForgetfulSlot(tr, chain, s, h, s', h', x);
  }

  lemma ServeAbreast(tr: Trig, m: KeyedNode, node: Node, xs: seq<seq<Sample>>, count: nat)
    requires Circular(tr) && tr.turn > 0.0 && AllAbreast(tr, m, node) && RepeatedForget(tr, m) && Aligned(node, xs, count)
    ensures KeyedOuts(tr, m, xs) == EdgeOuts(tr, node, xs, count)
    ensures AllAbreast(tr, EdgesRun(tr, m, xs, |m.keys|), NodeNext(tr, node, xs, count))
  {
    hide Circular, ChainNext, ChainOut, ShapedChain, LeadingOnly, Reached, Repeated, Forgets, EdgesRun, Mix;
    forall k | 0 <= k < |m.keys|
      ensures KeyedOuts(tr, m, xs)[k] == EdgeOuts(tr, node, xs, count)[k]
      ensures Abreast(tr, m.keys, m.chains[k], k, EdgesRun(tr, m, xs, |m.keys|).states[m.keys[k]], NodeNext(tr, node, xs, count).edges[k].sts)
    {
      RunAbreast(tr, m, xs, k, k);
      RunAbreast(tr, m, xs, |m.keys|, k);
      ReachedNext(tr, m.chains[k], node.edges[k].sts, xs[k]);
      if Repeated(m.keys, k) {
        SameSlot(tr, m.chains[k], EdgesRun(tr, m, xs, k).states[m.keys[k]], node.edges[k].sts, xs[k]);
      }
    }
  }

  lemma FreshAbreast(tr: Trig, m: KeyedNode)
    requires FreshKeyed(m)
    ensures AllAbreast(tr, m, Own(m))
  {
    hide After, Factor, Back;
    forall k | 0 <= k < |m.keys| ensures Reached(tr, m.chains[k], m.states[m.keys[k]]) {
      FreshIsAfter(tr, m.chains[k]);
    }
  }

  lemma {:induction false} ForgetfulShared(tr: Trig, m: KeyedNode, log: seq<Serve>)
    requires Circular(tr) && tr.turn > 0.0 && FreshKeyed(m) && RepeatedForget(tr, m) && LogFits(Own(m), log)
    ensures KeyedSums(tr, m, log) == Sums(tr, Own(m), log)
    ensures AllAbreast(tr, KeyedAfter(tr, m, log), NodeAfter(tr, Own(m), log))
    decreases |log|
  {
    hide Circular, AllAbreast, KeyedOuts, EdgeOuts, EdgesRun, NodeNext, Mix, Forgets, Repeated, KeyedNode.Shaped, Node.Shaped, Own, FreshKeyed;
    KeyedShape(m);
    if log == [] {
      FreshAbreast(tr, m);
    } else {
      var rest, last := log[..|log| - 1], log[|log| - 1];
      ForgetfulShared(tr, m, rest);
      var now, node := KeyedAfter(tr, m, rest), NodeAfter(tr, Own(m), rest);
      assert Aligned(Own(m), last.inputs, last.count);
      ServeAbreast(tr, now, node, last.inputs, last.count);
    }
  }

  lemma KeyedShape(m: KeyedNode)
    requires FreshKeyed(m)
    ensures m.Shaped()
  {
  }

  // ---- What a key's state has been through ---------------------------------------------------------------------------------------------

  function Rep(x: seq<Sample>, n: nat): seq<Sample> {
    if n == 0 then [] else Rep(x, n - 1) + x
  }

  predicate Still(h: seq<Sample>) {
    forall k :: 0 <= k < |h| ==> h[k] == ZERO
  }

  lemma {:induction false} RepSilent(l: nat, n: nat)
    ensures Still(Rep(Zeros(l), n))
  {
    if n > 0 {
      RepSilent(l, n - 1);
    }
  }

  /** What the state under `key` has been through part-way through a serve. */
  lemma {:induction false} KeyHistory(tr: Trig, m: KeyedNode, k: nat, xs: seq<seq<Sample>>, h: seq<Sample>, n: nat)
    requires Circular(tr) && tr.turn > 0.0 && m.Shaped() && n <= |xs| == |m.keys| && k < |m.keys| && SameWindows(m.keys, xs)
    requires LeadingOnly(m.chains[k]) && After(tr, m.chains[k], m.states[m.keys[k]], h)
    ensures After(tr, m.chains[k], EdgesRun(tr, m, xs, n).states[m.keys[k]], h + Rep(xs[k], Count(m.keys, m.keys[k], n)))
  {
    hide Circular, ChainNext, ChainOut, ShapedChain, LeadingOnly, After, Factored, EdgeRun, KeyedNode.Shaped;
    if n == 0 {
      assert h + [] == h;
    } else {
      KeyHistory(tr, m, k, xs, h, n - 1);
      RunsKey(tr, EdgesRun(tr, m, xs, n - 1), n - 1, xs[n - 1], k);
      if m.keys[n - 1] == m.keys[k] {
        var c := Count(m.keys, m.keys[k], n - 1);
        SlotAfter(tr, m.chains[k], EdgesRun(tr, m, xs, n - 1).states[m.keys[k]], h + Rep(xs[k], c), xs[k]);
        assert h + Rep(xs[k], c) + xs[k] == h + Rep(xs[k], c + 1);
      }
    }
  }

  /** A sample after history `h`. */
  lemma SampleAfter(tr: Trig, chain: seq<Step>, sts: seq<StepState>, h: seq<Sample>, x: seq<Sample>)
    requires Circular(tr) && ShapedChain(chain) && LeadingOnly(chain) && After(tr, chain, sts, h) && x != []
    ensures tr.turn > 0.0 && |sts| == |chain|
    ensures ChainOut(tr, chain, sts, x)[0] == Rotate(Front(chain, sts, x)[0], Coefficient(tr, Back(chain), |h|))
    ensures LeadsWithTaps(chain) ==>
              Front(chain, sts, x) == Tdl.SlotOut(chain[0].taps, chain[0].poly, TdlStream.Tail(h, Tdl.RingSize(chain[0].taps)), x)
    ensures !LeadsWithTaps(chain) ==> Front(chain, sts, x) == x
  {
    hide Circular, ChainNext, ChainOut, ShapedChain, LeadingOnly, Factored, Coefficient, Rotate, Tdl.SlotOut, Advanced;
    SlotAfter(tr, chain, sts, h, x);
    FactoredAt(tr, Back(chain), Front(chain, sts, x), ChainOut(tr, chain, sts, x), |h|, 0, |h|);
  }

  lemma CallFits(m: KeyedNode, k: nat, x: seq<Sample>)
    requires m.Shaped() && k < |m.keys|
    ensures Aligned(Own(m), Call(m.keys, k, x), |x|)
  {
  }

  /** The first sample each link sends then, its key's state after `h`, its own after `g`. */
  lemma CallOuts(tr: Trig, m: KeyedNode, k: nat, x: seq<Sample>, h: seq<Sample>, e: nat)
    requires Circular(tr) && tr.turn > 0.0 && m.Shaped() && k < |m.keys| && e < |m.keys| && x != []
    requires LeadingOnly(m.chains[e]) && After(tr, m.chains[e], m.states[m.keys[e]], h)
    ensures var xs := Call(m.keys, k, x);
      var sts := EdgesRun(tr, m, xs, e).states[m.keys[e]];
      && |sts| == |m.chains[e]| && KeyedOuts(tr, m, xs)[e] == ChainOut(tr, m.chains[e], sts, xs[e])
      && After(tr, m.chains[e], sts, h + Rep(xs[e], Rank(m.keys, e)))
  {
    hide Circular, ChainNext, ChainOut, ShapedChain, LeadingOnly, After, EdgesRun;
    var xs := Call(m.keys, k, x);
    KeyHistory(tr, m, e, xs, h, e);
    AfterSize(tr, m.chains[e], EdgesRun(tr, m, xs, e).states[m.keys[e]], h + Rep(xs[e], Rank(m.keys, e)));
  }

  // ---- One serve ---------------------------------------------------------------------------------------------------

  lemma NothingKeyed(tr: Trig, m: KeyedNode)
    requires tr.turn > 0.0 && m.Shaped()
    ensures LogFits(Own(m), []) && KeyedAfter(tr, m, []) == m && KeyedSums(tr, m, []) == []
  {
  }

  lemma KeyedOne(tr: Trig, m: KeyedNode, e: Serve)
    requires tr.turn > 0.0 && m.Shaped() && LogFits(Own(m), [e])
    ensures |e.inputs| == |m.keys|
    ensures forall k :: 0 <= k < |KeyedOuts(tr, m, e.inputs)| ==> |KeyedOuts(tr, m, e.inputs)[k]| == e.count
    ensures KeyedSums(tr, m, [e]) == Mix(KeyedOuts(tr, m, e.inputs), e.count)
  {
    hide KeyedOuts, Mix, EdgesRun, KeyedNode.Shaped, ChainOut, ChainNext;
    NothingKeyed(tr, m);
    assert [e][..0] == [] && Aligned(Own(m), [e][0].inputs, [e][0].count);
  }

  lemma OwnOne(tr: Trig, node: Node, e: Serve)
    requires tr.turn > 0.0 && node.Shaped() && LogFits(node, [e])
    ensures Aligned(node, e.inputs, e.count) && Sums(tr, node, [e]) == Mix(EdgeOuts(tr, node, e.inputs, e.count), e.count)
  {
    hide EdgeOuts, Mix, NodeNext, Node.Shaped;
    assert [e][..0] == [] && Aligned(node, [e][0].inputs, [e][0].count);
    assert NodeAfter(tr, node, []) == node && Sums(tr, node, []) == [];
  }


  // ---- First samples ------------------------------------------------------------------------------------------

  /** The first sample a chain makes of a slot, that an edge of a keyed node sends, and that it sends with a
      state of its own. */
  ghost function Sent(tr: Trig, chain: seq<Step>, sts: seq<StepState>, x: seq<Sample>): Sample {
    if tr.turn > 0.0 && ShapedChain(chain) && |sts| == |chain| && x != [] then ChainOut(tr, chain, sts, x)[0] else ZERO
  }

  ghost function SharedSent(tr: Trig, m: KeyedNode, xs: seq<seq<Sample>>, e: nat): Sample {
    if tr.turn > 0.0 && m.Shaped() && e < |xs| == |m.keys| && xs[e] != [] then KeyedOuts(tr, m, xs)[e][0] else ZERO
  }

  ghost function OwnSent(tr: Trig, node: Node, xs: seq<seq<Sample>>, e: nat): Sample {
    if e < |xs| == |node.edges| then Sent(tr, node.edges[e].chain, node.edges[e].sts, xs[e]) else ZERO
  }

  /** Whatever states the edges have, if both sums start alike then so does each of them. */
  lemma FirstSamplesTell(tr: Trig, m: KeyedNode, node: Node, xs: seq<seq<Sample>>, count: nat, w: Sample, e: nat)
    requires tr.turn > 0.0 && m.Shaped() && node.Shaped() && Aligned(node, xs, count) && |node.edges| == |m.keys| && count > 0
    requires forall j :: 0 <= j < |m.keys| ==> |KeyedOuts(tr, m, xs)[j]| == count
    requires Mix(KeyedOuts(tr, m, xs), count)[0] == Mix(EdgeOuts(tr, node, xs, count), count)[0]
    requires forall j :: 0 <= j < |m.keys| ==> Tame(SharedSent(tr, m, xs, j), OwnSent(tr, node, xs, j), w)
    requires e < |m.keys|
    ensures SharedSent(tr, m, xs, e) == OwnSent(tr, node, xs, e)
  {
    hide KeyedOuts, Mix, Tame, ChainOut, KeyedNode.Shaped, ShapedChain;
    var ys, zs := KeyedOuts(tr, m, xs), EdgeOuts(tr, node, xs, count);
    forall j | 0 <= j < |m.keys| ensures ys[j][0] == SharedSent(tr, m, xs, j) && zs[j][0] == OwnSent(tr, node, xs, j) {
    }
    SumTells(ys, zs, count, 0, w, e);
  }

  lemma SentAfter(tr: Trig, chain: seq<Step>, sts: seq<StepState>, h: seq<Sample>, x: seq<Sample>, v: Sample)
    requires Circular(tr) && ShapedChain(chain) && LeadingOnly(chain) && After(tr, chain, sts, h) && x != []
    requires Fronts(chain, h, x) == v
    ensures Sent(tr, chain, sts, x) == Weighed(tr, chain, v, |h|)
  {
    hide Circular, ChainOut, LeadingOnly, Coefficient, Rotate, Tdl.SlotOut, After;
    SampleAfter(tr, chain, sts, h, x);
  }

  /** The first front sample of a slot after history `h`. */
  ghost function Fronts(chain: seq<Step>, h: seq<Sample>, x: seq<Sample>): Sample {
    if x == [] then ZERO
    else if LeadsWithTaps(chain) && chain[0].Shaped() then
      Tdl.SlotOut(chain[0].taps, chain[0].poly, TdlStream.Tail(h, Tdl.RingSize(chain[0].taps)), x)[0]
    else x[0]
  }

  lemma SilentFronts(chain: seq<Step>, h: seq<Sample>, l: nat)
    requires l > 0 && Still(h)
    ensures Fronts(chain, h, Zeros(l)) == ZERO
  {
    hide Tdl.SlotOut, Tdl.RingSize, Tdl.Shaped;
    if LeadsWithTaps(chain) && chain[0].Shaped() {
      var r := Tdl.RingSize(chain[0].taps);
      assert TdlStream.Tail(h, r) == Zeros(r);
      NodesAgree.SilentSlot(chain[0].taps, chain[0].poly, r, l, 0);
    }
  }

  /** Edge `e` in a serve that calls the key of link `k`: both ways of keeping its state, the shared one
      after `h`, its own after `g`. */
  lemma SentBoth(tr: Trig, m: KeyedNode, node: Node, k: nat, x: seq<Sample>, h: seq<Sample>, g: seq<Sample>, e: nat,
                 y: Sample, z: Sample)
    requires Circular(tr) && tr.turn > 0.0 && m.Shaped() && k < |m.keys| && e < |m.keys| == |node.edges| && x != []
    requires LeadingOnly(m.chains[e]) && After(tr, m.chains[e], m.states[m.keys[e]], h)
    requires node.edges[e].chain == m.chains[e] && After(tr, m.chains[e], node.edges[e].sts, g)
    requires Fronts(m.chains[e], h + Rep(Call(m.keys, k, x)[e], Rank(m.keys, e)), Call(m.keys, k, x)[e]) == y
    requires Fronts(m.chains[e], g, Call(m.keys, k, x)[e]) == z
    ensures SharedSent(tr, m, Call(m.keys, k, x), e) ==
            Weighed(tr, m.chains[e], y, |h + Rep(Call(m.keys, k, x)[e], Rank(m.keys, e))|)
    ensures OwnSent(tr, node, Call(m.keys, k, x), e) == Weighed(tr, m.chains[e], z, |g|)
  {
    hide Circular, ChainOut, ShapedChain, LeadingOnly, After, EdgesRun, Weighed, Fronts, Rep, Rank;
    var xs := Call(m.keys, k, x);
    CallOuts(tr, m, k, x, h, e);
    SentAfter(tr, m.chains[e], EdgesRun(tr, m, xs, e).states[m.keys[e]], h + Rep(xs[e], Rank(m.keys, e)), xs[e], y);
    SentAfter(tr, m.chains[e], node.edges[e].sts, g, xs[e], z);
  }

  // ---- No drift ---------------------------------------------------------------------------------------------------

  /** A first serve of a fresh node. */
  lemma FirstServe(tr: Trig, m: KeyedNode, k: nat, x: seq<Sample>)
    requires tr.turn > 0.0 && FreshKeyed(m) && m.Shaped() && SharedAlike(tr, m) && k < |m.keys| && x != []
    ensures var xs := Call(m.keys, k, x);
      && Aligned(Own(m), xs, |x|) && (forall e :: 0 <= e < |m.keys| ==> |KeyedOuts(tr, m, xs)[e]| == |x|)
      && Mix(KeyedOuts(tr, m, xs), |x|)[0] == Mix(EdgeOuts(tr, Own(m), xs, |x|), |x|)[0]
  {
    hide KeyedOuts, EdgeOuts, Mix, Own, KeyedSums, Sums, FreshKeyed;
    CallFits(m, k, x);
    var e := Serve(|x|, Call(m.keys, k, x));
    OneFits(m, e);
    assert OneSource(m.keys, [e]);
    KeyedOne(tr, m, e);
    OwnOne(tr, Own(m), e);
  }

  lemma OneFits(m: KeyedNode, e: Serve)
    requires m.Shaped() && Aligned(Own(m), e.inputs, e.count)
    ensures LogFits(Own(m), [e])
  {
  }

  lemma FreshEdges(tr: Trig, m: KeyedNode, e: nat)
    requires FreshKeyed(m) && e < |m.keys|
    ensures m.Shaped() && LeadingOnly(m.chains[e]) && After(tr, m.chains[e], m.states[m.keys[e]], [])
    ensures |Own(m).edges| == |m.keys| && Own(m).edges[e] == Edge(m.chains[e], m.states[m.keys[e]])
  {
    hide After, Factor, LeadingOnly;
    FreshIsAfter(tr, m.chains[e]);
  }

  /** A window whose first sample is heard whatever came before it. */
  ghost predicate Loud(chain: seq<Step>, x: seq<Sample>, v: Sample) {
    x != [] && v != ZERO && forall h :: Fronts(chain, h, x) == v
  }

  lemma FirstOuts(tr: Trig, m: KeyedNode, k: nat, x: seq<Sample>, v: Sample, e: nat)
    requires Circular(tr) && tr.turn > 0.0 && FreshKeyed(m) && k < |m.keys| && e < |m.keys|
    requires m.Shaped() && Loud(m.chains[k], x, v)
    ensures m.keys[e] == m.keys[k] ==>
              && SharedSent(tr, m, Call(m.keys, k, x), e) == Weighed(tr, m.chains[k], v, |Rep(x, Rank(m.keys, e))|)
              && OwnSent(tr, Own(m), Call(m.keys, k, x), e) == Weighed(tr, m.chains[k], v, 0)
    ensures m.keys[e] != m.keys[k] ==>
              SharedSent(tr, m, Call(m.keys, k, x), e) == ZERO && OwnSent(tr, Own(m), Call(m.keys, k, x), e) == ZERO
  {
    hide Circular, ShapedChain, LeadingOnly, After, Weighed, Fronts, Rep, Rank, SharedSent, OwnSent, FreshKeyed, Own;
    var xs, chain := Call(m.keys, k, x), m.chains[e];
    var h := Rep(xs[e], Rank(m.keys, e));
    FreshEdges(tr, m, e);
    assert [] + h == h;
    if m.keys[e] == m.keys[k] {
      assert chain == m.chains[k];
      SentBoth(tr, m, Own(m), k, x, [], [], e, v, v);
    } else {
      RepSilent(|x|, Rank(m.keys, e));
      SilentFronts(chain, h, |x|);
      SilentFronts(chain, [], |x|);
      SentBoth(tr, m, Own(m), k, x, [], [], e, ZERO, ZERO);
      NothingWeighed(tr, chain, |h|);
      NothingWeighed(tr, chain, 0);
    }
  }

  lemma RepOnce(x: seq<Sample>)
    ensures Rep(x, 1) == x
  {
    assert Rep(x, 1) == Rep(x, 0) + x;
  }

  /** Sent a loud window, the second link weighs it as the first does. */
  lemma FirstTells(tr: Trig, m: KeyedNode, k: nat, x: seq<Sample>, v: Sample, e: nat)
    requires OnCircle(tr) && tr.turn > 0.0 && FreshKeyed(m) && m.Shaped() && SharedAlike(tr, m)
    requires k < |m.keys| == |m.chains| && Loud(m.chains[k], x, v)
    requires e < |m.keys| && m.keys[e] == m.keys[k] && Rank(m.keys, e) == 1
    ensures Weighed(tr, m.chains[k], v, |x|) == Weighed(tr, m.chains[k], v, 0)
  {
    hide *;
    Round(tr);
    KeyedSizes(m);
    LoudWindow(m.chains[k], x, v);
    FirstServe(tr, m, k, x);
    FirstTame(tr, m, k, x, v);
    FirstOuts(tr, m, k, x, v, e);
    RepOnce(x);
    FirstSamplesTell(tr, m, Own(m), Call(m.keys, k, x), |x|, Weighed(tr, m.chains[k], v, 0), e);
  }

  lemma FirstTame(tr: Trig, m: KeyedNode, k: nat, x: seq<Sample>, v: Sample)
    requires OnCircle(tr) && tr.turn > 0.0 && FreshKeyed(m) && m.Shaped() && k < |m.keys| == |m.chains| && Loud(m.chains[k], x, v)
    ensures forall j :: 0 <= j < |m.keys| ==>
              Tame(SharedSent(tr, m, Call(m.keys, k, x), j), OwnSent(tr, Own(m), Call(m.keys, k, x), j), Weighed(tr, m.chains[k], v, 0))
  {
    hide *;
    forall j | 0 <= j < |m.keys|
      ensures Tame(SharedSent(tr, m, Call(m.keys, k, x), j), OwnSent(tr, Own(m), Call(m.keys, k, x), j), Weighed(tr, m.chains[k], v, 0))
    {
      Round(tr);
      KeyedSizes(m);
      FirstOuts(tr, m, k, x, v, j);
      WeighedAlike(tr, m.chains[k], v, |Rep(x, Rank(m.keys, j))|, 0);
      BothSilent(Weighed(tr, m.chains[k], v, 0));
    }
  }

  lemma KeyedSizes(m: KeyedNode)
    requires m.Shaped()
    ensures |m.keys| == |m.chains|
  {
  }

  lemma LoudWindow(chain: seq<Step>, x: seq<Sample>, v: Sample)
    requires Loud(chain, x, v)
    ensures x != [] && v != ZERO
  {
  }

  /** With no echoes, or no tdl, an impulse is loud. */
  lemma ImpulseIsLoud(chain: seq<Step>, p: nat, l: nat) returns (v: Sample)
    requires ShapedChain(chain) && p < l
    requires if LeadsWithTaps(chain)
             then TdlRing.DiesOut(chain[0].taps, chain[0].poly, 0) && TdlResponse.Response(chain[0].taps, chain[0].poly, 0 - p) != ZERO
             else p == 0
    ensures Loud(chain, TdlResponse.Impulse(p, l), v)
    ensures v == if LeadsWithTaps(chain) then TdlResponse.Response(chain[0].taps, chain[0].poly, 0 - p) else TdlResponse.ONE
  {
    hide Tdl.SlotOut, Tdl.RingSize, TdlResponse.Response, TdlRing.DiesOut, Tdl.Covers, Tdl.Shaped;
    var x := TdlResponse.Impulse(p, l);
    if LeadsWithTaps(chain) {
      var Taps(taps, poly) := chain[0];
      assert chain[0].Shaped();
      var r := Tdl.RingSize(taps);
      Covering(taps);
      v := TdlResponse.Response(taps, poly, 0 - p);
      FirstPass(taps, poly, r, p, l);
      forall h ensures Fronts(chain, h, x) == v {
        FrontForgets(taps, poly, h, r, x);
        FrontForgets(taps, poly, [], r, x);
      }
    } else {
      v := TdlResponse.ONE;
      assert x[0] == TdlResponse.ONE;
    }
  }

  lemma NoDriftShared(tr: Trig, m: KeyedNode, k: nat, p: nat, e: nat)
    requires OnCircle(tr) && tr.turn > 0.0 && FreshKeyed(m) && m.Shaped() && SharedAlike(tr, m)
    requires k < |m.keys| == |m.chains| && ShapedChain(m.chains[k]) && Factor(Back(m.chains[k])) != 0.0
    requires e < |m.keys| && m.keys[e] == m.keys[k] && Rank(m.keys, e) == 1
    requires if LeadsWithTaps(m.chains[k])
             then TdlRing.DiesOut(m.chains[k][0].taps, m.chains[k][0].poly, 0)
                  && TdlResponse.Response(m.chains[k][0].taps, m.chains[k][0].poly, 0 - p) != ZERO
             else p == 0
    ensures tr.Congruent(Drift(Back(m.chains[k])), 0.0)
  {
    hide *;
    var chain := m.chains[k];
    var v := ImpulseIsLoud(chain, p, p + 1);
    FirstTells(tr, m, k, TdlResponse.Impulse(p, p + 1), v, e);
    var v' := ImpulseIsLoud(chain, p, p + 2);
    FirstTells(tr, m, k, TdlResponse.Impulse(p, p + 2), v, e);
    Round(tr);
    LoudWindow(chain, TdlResponse.Impulse(p, p + 1), v);
    WeighedApart(tr, chain, v, p + 1);
    StandsStill(tr, Back(chain), p + 1);
  }

  // ---- No echo ------------------------------------------------------------------------------------------------------

  /** A second serve. */
  lemma SecondServe(tr: Trig, m: KeyedNode, k: nat, x: seq<Sample>, y: seq<Sample>, m': KeyedNode, node': Node)
    requires tr.turn > 0.0 && FreshKeyed(m) && m.Shaped() && SharedAlike(tr, m) && k < |m.keys| && x != [] && y != []
    requires m' == EdgesRun(tr, m, Call(m.keys, k, x), |m.keys|)
    requires Aligned(Own(m), Call(m.keys, k, x), |x|) && node' == NodeNext(tr, Own(m), Call(m.keys, k, x), |x|)
    ensures var ys := Call(m.keys, k, y);
      && Aligned(node', ys, |y|) && (forall e :: 0 <= e < |m.keys| ==> |KeyedOuts(tr, m', ys)[e]| == |y|)
      && Mix(KeyedOuts(tr, m', ys), |y|)[0] == Mix(EdgeOuts(tr, node', ys, |y|), |y|)[0]
  {
    hide KeyedOuts, EdgeOuts, Mix, Own, FreshKeyed, EdgesRun, NodeNext;
    CallFits(m, k, y);
    var d, e := Serve(|x|, Call(m.keys, k, x)), Serve(|y|, Call(m.keys, k, y));
    OneFits(m, d);
    assert LogFits(Own(m), [d, e]);
    assert OneSource(m.keys, [d]) && OneSource(m.keys, [d, e]);
    assert [d, e][..1] == [d];
    KeyedOne(tr, m, d);
    OwnOne(tr, Own(m), d);
    AfterOne(tr, m, d);
    assert KeyedSums(tr, m, [d]) == Sums(tr, Own(m), [d]) && KeyedSums(tr, m, [d, e]) == Sums(tr, Own(m), [d, e]);
    var ys := Call(m.keys, k, y);
    assert Sums(tr, Own(m), [d, e]) == Sums(tr, Own(m), [d]) + Mix(EdgeOuts(tr, node', ys, |y|), |y|);
    assert KeyedSums(tr, m, [d, e]) == KeyedSums(tr, m, [d]) + Mix(KeyedOuts(tr, m', ys), |y|);
    SecondPart(KeyedSums(tr, m, [d]), Mix(KeyedOuts(tr, m', ys), |y|), Mix(EdgeOuts(tr, node', ys, |y|), |y|));
  }

  lemma AfterOne(tr: Trig, m: KeyedNode, d: Serve)
    requires tr.turn > 0.0 && m.Shaped() && Aligned(Own(m), d.inputs, d.count) && LogFits(Own(m), [d])
    ensures KeyedAfter(tr, m, [d]) == EdgesRun(tr, m, d.inputs, |m.keys|)
    ensures NodeAfter(tr, Own(m), [d]) == NodeNext(tr, Own(m), d.inputs, d.count)
  {
    hide Own, EdgesRun, NodeNext, KeyedNode.Shaped;
    assert [d][..0] == [];
    NothingKeyed(tr, m);
    assert NodeAfter(tr, Own(m), []) == Own(m);
  }

  lemma SecondPart(a: seq<Sample>, b: seq<Sample>, c: seq<Sample>)
    requires a + b == a + c
    ensures b == c
  {
    assert b == (a + b)[|a|..] && c == (a + c)[|a|..];
  }

  /** What both ways of keeping its state have been through by then. */
  lemma AfterCall(tr: Trig, m: KeyedNode, k: nat, x: seq<Sample>, e: nat)
    requires Circular(tr) && tr.turn > 0.0 && FreshKeyed(m) && m.Shaped() && k < |m.keys| && e < |m.keys| && x != []
    requires Aligned(Own(m), Call(m.keys, k, x), |x|)
    ensures var xs := Call(m.keys, k, x);
      var m', node' := EdgesRun(tr, m, xs, |m.keys|), NodeNext(tr, Own(m), xs, |x|);
      && LeadingOnly(m.chains[e]) && |node'.edges| == |m.keys| && node'.edges[e].chain == m.chains[e]
      && After(tr, m.chains[e], m'.states[m.keys[e]], Rep(xs[e], Count(m.keys, m.keys[e], |m.keys|)))
      && After(tr, m.chains[e], node'.edges[e].sts, xs[e])
  {
    hide Circular, ShapedChain, LeadingOnly, After, Rep, FreshKeyed, Mix, ChainOut, ChainNext, EdgesRun, Own, Factored;
    var xs := Call(m.keys, k, x);
    FreshEdges(tr, m, e);
    KeyHistory(tr, m, e, xs, [], |m.keys|);
    assert [] + Rep(xs[e], Count(m.keys, m.keys[e], |m.keys|)) == Rep(xs[e], Count(m.keys, m.keys[e], |m.keys|));
    SlotAfter(tr, m.chains[e], m.states[m.keys[e]], [], xs[e]);
    assert [] + xs[e] == xs[e];
  }

  lemma {:induction false} RepZero(q: nat)
    ensures Rep([ZERO], q) == Zeros(q)
  {
    if q > 0 {
      RepZero(q - 1);
    }
  }

  /** The sample after an impulse that echoes for the last time `m` samples later. */
  lemma EchoHeard(chain: seq<Step>, m: nat, c: nat, q: nat)
    requires ShapedChain(chain) && LeadsWithTaps(chain) && 0 < m && 0 < c && TdlRing.DiesOut(chain[0].taps, chain[0].poly, m)
    ensures Fronts(chain, Rep(TdlResponse.Impulse(0, m), c) + Rep([ZERO], q), [ZERO]) ==
            TdlResponse.Response(chain[0].taps, chain[0].poly, m + q)
  {
    hide Tdl.SlotOut, Tdl.RingSize, TdlResponse.Response, TdlRing.DiesOut, Tdl.Covers, Tdl.Shaped, TdlResponse.Impulse;
    assert chain[0].Shaped();
    Covering(chain[0].taps);
    var x := TdlResponse.Impulse(0, m);
    RepZero(q);
    assert Rep(x, c) == Rep(x, c - 1) + x;
    EchoFront(chain[0].taps, chain[0].poly, Tdl.RingSize(chain[0].taps), Rep(x, c - 1), m, q);
  }

  lemma EchoOuts(tr: Trig, m: KeyedNode, k: nat, taps: seq<Tdl.Tap>, poly: seq<seq<real>>, mm: nat,
                 m': KeyedNode, node': Node, e: nat)
    requires OnCircle(tr) && tr.turn > 0.0 && FreshKeyed(m) && m.Shaped() && k < |m.keys| == |m.chains| && e < |m.keys|
    requires ShapedChain(m.chains[k]) && LeadsWithTaps(m.chains[k]) && m.chains[k][0] == Taps(taps, poly)
    requires Tdl.Shaped(taps, poly) && 0 < mm && TdlRing.DiesOut(taps, poly, mm)
    requires Aligned(Own(m), Call(m.keys, k, TdlResponse.Impulse(0, mm)), mm)
    requires m' == EdgesRun(tr, m, Call(m.keys, k, TdlResponse.Impulse(0, mm)), |m.keys|)
    requires node' == NodeNext(tr, Own(m), Call(m.keys, k, TdlResponse.Impulse(0, mm)), mm)
    ensures var w := Weighed(tr, m.chains[k], TdlResponse.Response(taps, poly, mm), mm);
      var y, z := SharedSent(tr, m', Call(m.keys, k, [ZERO]), e), OwnSent(tr, node', Call(m.keys, k, [ZERO]), e);
      && Tame(y, z, w) && (m.keys[e] == m.keys[k] && Rank(m.keys, e) > 0 ==> y == ZERO && z == w)
  {
    hide Circular, ShapedChain, LeadingOnly, After, Weighed, Fronts, Rep, Rank, SharedSent, OwnSent, FreshKeyed, Own, OnCircle, Tame,
         EdgesRun, NodeNext, TdlResponse.Response, TdlResponse.Impulse, TdlRing.DiesOut, Tdl.Shaped, Count;
    Round(tr);
    var x, xs, ys, chain := TdlResponse.Impulse(0, mm), Call(m.keys, k, TdlResponse.Impulse(0, mm)), Call(m.keys, k, [ZERO]), m.chains[e];
    AfterCall(tr, m, k, x, e);
    var q, c := Rank(m.keys, e), Count(m.keys, m.keys[e], |m.keys|);
    var h := Rep(xs[e], c);
    if m.keys[e] == m.keys[k] {
      assert chain == m.chains[k];
      CountGrows(m.keys, m.keys[e], e, |m.keys|);
      EchoHeard(chain, mm, c, q);
      EchoHeard(chain, mm, 1, 0);
      RepOnce(x);
      RepZero(0);
      assert x + Zeros(0) == x;
      var v := TdlResponse.Response(taps, poly, mm);
      SentBoth(tr, m', node', k, [ZERO], h, x, e, TdlResponse.Response(taps, poly, mm + q), v);
      EchoTame(tr, chain, v, |h + Rep([ZERO], q)|, mm);
      if q > 0 {
        EchoesOver(taps, poly, mm, mm + q);
        NothingWeighed(tr, chain, |h + Rep([ZERO], q)|);
      }
    } else {
      SilentHistory(mm, c, q);
      SilentFronts(chain, h + Rep([ZERO], q), 1);
      SilentFronts(chain, Zeros(mm), 1);
      assert [ZERO] == Zeros(1);
      SentBoth(tr, m', node', k, [ZERO], h, Zeros(mm), e, ZERO, ZERO);
      NothingWeighed(tr, chain, |h + Rep([ZERO], q)|);
      NothingWeighed(tr, chain, mm);
      BothSilent(Weighed(tr, m.chains[k], TdlResponse.Response(taps, poly, mm), mm));
    }
  }

  lemma SilentHistory(l: nat, c: nat, q: nat)
    ensures Still(Rep(Zeros(l), c) + Rep([ZERO], q))
  {
    RepSilent(l, c);
    RepZero(q);
  }

  lemma EchoTame(tr: Trig, chain: seq<Step>, v: Sample, n: nat, n': nat)
    requires OnCircle(tr)
    ensures Tame(Weighed(tr, chain, v, n), Weighed(tr, chain, v, n'), Weighed(tr, chain, v, n'))
    ensures Tame(ZERO, Weighed(tr, chain, v, n'), Weighed(tr, chain, v, n'))
  {
    hide OnCircle, Weighed, Length2;
    WeighedAlike(tr, chain, v, n, n');
  }

  lemma NoEchoShared(tr: Trig, m: KeyedNode, k: nat, taps: seq<Tdl.Tap>, poly: seq<seq<real>>, mm: nat, e: nat)
    requires OnCircle(tr) && tr.turn > 0.0 && FreshKeyed(m) && m.Shaped() && SharedAlike(tr, m) && k < |m.keys| == |m.chains|
    requires ShapedChain(m.chains[k]) && LeadsWithTaps(m.chains[k]) && m.chains[k][0] == Taps(taps, poly)
    requires Factor(Back(m.chains[k])) != 0.0
    requires Tdl.Shaped(taps, poly) && 0 < mm && TdlRing.DiesOut(taps, poly, mm)
    requires e < |m.keys| && m.keys[e] == m.keys[k] && Rank(m.keys, e) > 0
    ensures TdlResponse.Response(taps, poly, mm) == ZERO
  {
    hide *;
    Round(tr);
    var x, v := TdlResponse.Impulse(0, mm), TdlResponse.Response(taps, poly, mm);
    FirstServe(tr, m, k, x);
    var m', node' := EdgesRun(tr, m, Call(m.keys, k, x), |m.keys|), NodeNext(tr, Own(m), Call(m.keys, k, x), mm);
    SecondServe(tr, m, k, x, [ZERO], m', node');
    forall j | 0 <= j < |m.keys|
      ensures Tame(SharedSent(tr, m', Call(m.keys, k, [ZERO]), j), OwnSent(tr, node', Call(m.keys, k, [ZERO]), j), Weighed(tr, m.chains[k], v, mm))
    {
      EchoOuts(tr, m, k, taps, poly, mm, m', node', j);
    }
    FirstSamplesTell(tr, m', node', Call(m.keys, k, [ZERO]), 1, Weighed(tr, m.chains[k], v, mm), e);
    EchoOuts(tr, m, k, taps, poly, mm, m', node', e);
    NotSilenced(tr, m.chains[k], v, mm);
  }

  lemma NotSilenced(tr: Trig, chain: seq<Step>, v: Sample, n: nat)
    requires Circular(tr) && Factor(Back(chain)) != 0.0 && Weighed(tr, chain, v, n) == ZERO
    ensures v == ZERO
  {
    hide Circular, Coefficient, Rotate, Factor, Back;
    CoefficientNonzero(tr, Back(chain), n);
    if v != ZERO {
      NodesAgree.NoLoss(v, Coefficient(tr, Back(chain), n));
    }
  }

  // ---- Exactly ----------------------------------------------------------------------------------------------------------

  lemma AlikeForgets(tr: Trig, m: KeyedNode, k: nat)
    requires OnCircle(tr) && tr.turn > 0.0 && FreshKeyed(m) && m.Shaped() && SharedAlike(tr, m)
    requires k < |m.keys| == |m.chains| && ShapedChain(m.chains[k]) && Repeated(m.keys, k)
    requires Factor(Back(m.chains[k])) != 0.0
    ensures Forgets(tr, m.chains[k])
  {
    hide OnCircle, SharedAlike, FreshKeyed, Factor, Repeated, TdlResponse.Response, Trig.Congruent, KeyedNode.Shaped, Rank, Drift;
    var e := RepeatedRank(m.keys, k);
    var chain := m.chains[k];
    if LeadsWithTaps(chain) {
      var Taps(taps, poly) := chain[0];
      assert chain[0].Shaped();
      if !TdlRing.DiesOut(taps, poly, 0) {
        Covering(taps);
        TdlRing.CoveredDiesOut(taps, poly, Tdl.RingSize(taps));
        var mm := LastEcho(taps, poly, Tdl.RingSize(taps));
        NoEchoShared(tr, m, k, taps, poly, mm, e);
      }
      if !SilentTaps(taps, poly) {
        var t :| TdlResponse.Response(taps, poly, t) != ZERO;
        var p: nat := 0 - t;
        NoDriftShared(tr, m, k, p, e);
      }
    } else {
      NoDriftShared(tr, m, k, 0, e);
    }
  }

  /** Links looked up by key do what links with states of their own do - over every log that hands links of one
      key one window - precisely when every chain whose key is repeated forgets: its tdl hears only the
      present, and unless it is silent its oscillators' increments add up to whole turns. */
  lemma SharedExactly(tr: Trig, m: KeyedNode)
    requires OnCircle(tr) && tr.turn > 0.0 && FreshKeyed(m) && m.Shaped()
    ensures SharedAlike(tr, m) <==> RepeatedForget(tr, m)
  {
    hide OnCircle, Forgets, Factor, Repeated, FreshKeyed, Own, LogFits, OneSource, KeyedSums, Sums;
    Round(tr);
    if RepeatedForget(tr, m) {
      forall log | LogFits(Own(m), log) && OneSource(m.keys, log) ensures KeyedSums(tr, m, log) == Sums(tr, Own(m), log) {
        ForgetfulShared(tr, m, log);
      }
    }
    if SharedAlike(tr, m) {
      forall k | 0 <= k < |m.keys| && Repeated(m.keys, k) ensures Forgets(tr, m.chains[k]) {
        HasFactor(m, k);
        AlikeForgets(tr, m, k);
      }
    }
  }

  lemma HasFactor(m: KeyedNode, k: nat)
    requires FreshKeyed(m) && k < |m.keys|
    ensures |m.keys| == |m.chains| && ShapedChain(m.chains[k]) && Factor(Back(m.chains[k])) != 0.0
  {
  }

  // ---- Two links with one key ----------------------------------------------------------------------------------------------

  function Twins(key: string, chain: seq<Step>): (m: KeyedNode)
    ensures m.keys == [key, key] && m.chains == [chain, chain] && m.states == map[key := FreshOf(chain).sts]
  {
    KeyedNode([key, key], [chain, chain], map[key := FreshOf(chain).sts])
  }

  /** An offset of a quarter of the sample rate makes them differ. */
  lemma TwinsDrift(tr: Trig, key: string)
    requires OnCircle(tr) && tr.turn > 0.0
    ensures Twins(key, [Turn(0.0, tr.turn / 4.0)]).Shaped() && !SharedAlike(tr, Twins(key, [Turn(0.0, tr.turn / 4.0)]))
  {
    hide OnCircle, SharedAlike;
    var chain := [Turn(0.0, tr.turn / 4.0)];
    assert chain[1..] == [] && Drift(chain) == tr.turn / 4.0 && Factor(chain) == 1.0;
    var m := Twins(key, chain);
    assert m.keys[0] == key == m.keys[1] && m.chains[0] == m.chains[1] == chain;
    assert Repeated(m.keys, 0);
    SharedExactly(tr, m);
    var quarter := tr.turn / 4.0;
    forall k: int ensures !tr.Turns(quarter, 0.0, k) {
      QuarterTurn(tr.turn, k);
    }
  }

  lemma QuarterTurn(turn: real, k: int)
    requires turn > 0.0
    ensures turn / 4.0 != 0.0 + k as real * turn
  {
    if k >= 1 {
      assert (k as real - 1.0) * turn >= 0.0;
    } else {
      assert (0.0 - k as real) * turn >= 0.0;
    }
  }
}

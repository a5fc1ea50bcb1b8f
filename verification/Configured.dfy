/**
 A destination node as configured - one chain per incoming link and a receiver chain - and the
 node each backend prepares from it.
 */
module Configured {
  import opened Iq
  import opened Phase
  import opened Chain
  import opened CpuLinks
  import opened FreshParams
  import opened Receiver
  import opened Relay
  import opened RelaySafety
  import opened EndToEnd
  import RuntimeControl
  import Tdl

  /** A link's chain may only lead with a tdl, and a receiver has none
      (src/processing.cpp:100-138). */
  predicate Supported(configs: seq<seq<ModelStep>>, receiver: seq<ModelStep>) {
    && configs != [] && NoTdl(receiver)
    && forall k :: 0 <= k < |configs| ==> SaneChain(configs[k]) && OnlyLeads(configs[k])
  }

  /** What the CPU backend needs to run each chain as configured: taps that survive preparation. */
  ghost predicate Kept(configs: seq<seq<ModelStep>>, receiver: seq<ModelStep>) {
    && configs != [] && SaneChain(receiver) && KeepsTaps(receiver)
    && forall k :: 0 <= k < |configs| ==> SaneChain(configs[k]) && KeepsTaps(configs[k])
  }

  lemma SupportedIsKept(configs: seq<seq<ModelStep>>, receiver: seq<ModelStep>)
    requires Supported(configs, receiver)
    ensures Kept(configs, receiver)
  {
    hide KeepsTaps, SaneChain, OnlyLeads;
    NoTdlKeeps(receiver);
    forall k | 0 <= k < |configs| ensures KeepsTaps(configs[k]) {
      LeadKeeps(configs[k]);
    }
  }

  lemma NoTdlKeeps(chain: seq<ModelStep>)
    requires NoTdl(chain)
    ensures SaneChain(chain) && KeepsTaps(chain)
  {
  }

  lemma LeadKeeps(chain: seq<ModelStep>)
    requires OnlyLeads(chain)
    ensures KeepsTaps(chain)
  {
    forall k | 0 <= k < |chain| && chain[k].TdlStep? ensures Override(chain[k].taps, YamlParams(chain)) == chain[k].taps {
      assert k == 0;
      if chain[0].taps != [] {
        OverrideKeeps(chain[0].taps, YamlParams(chain));
      }
    }
  }

  // ---- Preparing shapes ---------------------------------------------------------------------------

  lemma FreshOfIsFresh(chain: seq<Step>)
    requires ShapedChain(chain)
    ensures FreshEdge(FreshOf(chain))
  {
    forall k | 0 <= k < |chain| ensures FreshStep(chain[k], FreshOf(chain).sts[k]) {
      if chain[k].Taps? {
        assert Tdl.Covers(chain[k].taps, Tdl.RingSize(chain[k].taps));
      }
    }
  }

  lemma FreshNodeOfIsFresh(chains: seq<seq<Step>>, rx: seq<Step>)
    requires ShapedChain(rx) && forall k :: 0 <= k < |chains| ==> ShapedChain(chains[k])
    ensures FreshNode(FreshNodeOf(chains, rx))
  {
    FreshOfIsFresh(rx);
    forall k | 0 <= k < |chains| ensures FreshEdge(FreshOf(chains[k])) {
      FreshOfIsFresh(chains[k]);
    }
  }

  lemma PreparedFresh(ph: Physics, rate: nat, configs: seq<seq<ModelStep>>, receiver: seq<ModelStep>)
    requires ph.Valid() && Kept(configs, receiver)
    ensures FreshNode(CpuPrepared(ph, rate, configs, receiver)) && FreshNode(CudaPrepared(ph, rate, configs, receiver))
    ensures CpuPrepared(ph, rate, configs, receiver).edges == CudaPrepared(ph, rate, configs, receiver).edges
    ensures forall k :: 0 <= k < |configs| ==> ShapedChain(LinkChain(ph, rate, configs[k]))
    ensures ShapedChain(BareChain(ph, rate, receiver)) && ShapedChain(LinkChain(ph, rate, receiver))
  {
    hide LinkChain, BareChain, FreshNode, ShapedChain, KeepsTaps;
    forall k | 0 <= k < |configs| ensures ShapedChain(LinkChain(ph, rate, configs[k])) {
      FreshResolvedShaped(ph, rate, configs[k]);
    }
    FreshResolvedShaped(ph, rate, receiver);
    FreshNodeOfIsFresh(LinkChains(ph, rate, configs), LinkChain(ph, rate, receiver));
    FreshNodeOfIsFresh(LinkChains(ph, rate, configs), BareChain(ph, rate, receiver));
    SameEdges(LinkChains(ph, rate, configs), LinkChain(ph, rate, receiver), BareChain(ph, rate, receiver));
  }

  lemma ReceiversPerSample(ph: Physics, rate: nat, receiver: seq<ModelStep>)
    requires NoTdl(receiver)
    ensures PerSample(LinkChain(ph, rate, receiver)) && PerSample(BareChain(ph, rate, receiver))
  {
    ResolvedPerSample(ph, rate, receiver, Untouched(YamlParams(receiver)));
    ResolvedPerSample(ph, rate, receiver, Untouched(RuntimeControl.DEFAULTS));
  }

  lemma SameEdges(chains: seq<seq<Step>>, rx: seq<Step>, rx': seq<Step>)
    ensures FreshNodeOf(chains, rx).edges == FreshNodeOf(chains, rx').edges
  {
  }

  /** What a freshly prepared CPU link runs before anything is written to it: its chain with its own
      taps over rings of their size. */
  lemma FreshLinkIs(ph: Physics, rate: nat, chain: seq<ModelStep>, c: RuntimeControl.View, n: nat)
    requires ph.Valid() && SaneChain(chain) && KeepsTaps(chain) && SaneView(c) && c.seqno == 0
    ensures SaneLink(ph, chain, FreshLink(ph, chain), c) && Quiet(FreshLink(ph, chain), c)
    ensures EdgeNow(ph, rate, chain, FreshLink(ph, chain), c, n) == FreshOf(LinkChain(ph, rate, chain))
  {
    var l := FreshLink(ph, chain);
    YamlSane(chain);
    QuietBegun(chain, l, c, n);
    SameChain(ph, rate, chain, Begun(chain, l, c, n).vars, Untouched(YamlParams(chain)));
    forall k | 0 <= k < |chain| ensures FreshStepState(ph, chain[k]) == FreshState(LinkChain(ph, rate, chain)[k]) {
      if chain[k].TdlStep? {
        assert Override(chain[k].taps, YamlParams(chain)) == chain[k].taps;
      }
    }
  }

  // ---- What enters the receiver -----------------------------------------------------------------------

  /** The sums a node's receiver is given over a log of serves, end to end. */
  ghost function Sums(tr: Trig, node: Node, log: seq<Serve>): (x: seq<Sample>)
    requires tr.turn > 0.0 && node.Shaped() && LogFits(node, log)
    decreases |log|
  {
    if log == [] then []
    else
      var rest, last := log[..|log| - 1], log[|log| - 1];
      Sums(tr, node, rest) + Mix(EdgeOuts(tr, NodeAfter(tr, node, rest), last.inputs, last.count), last.count)
  }

  lemma PerSampleCausal(chain: seq<Step>)
    requires PerSample(chain)
    ensures ShapedChain(chain) && CausalChain(chain)
  {
  }

  /** Whatever the edges do, a node's replies are its receiver's chain on the whole stream of sums. */
  lemma {:induction false} RepliesThroughReceiver(tr: Trig, node: Node, log: seq<Serve>)
    requires tr.Periodic() && node.Shaped() && FreshEdge(node.rx) && PerSample(node.rx.chain) && LogFits(node, log)
    ensures Replies(tr, node, log) == WholeChain(tr, node.rx.chain, Sums(tr, node, log))
    ensures CaughtUp(tr, node.rx.chain, NodeAfter(tr, node, log).rx.sts, Sums(tr, node, log))
    decreases |log|
  {
    assert tr.turn > 0.0;
    hide Trig.Periodic, WholeChain, CaughtUp, ChainOut, ChainNext, EdgeOuts, Mix, FreshStep, PerSample, Node.Shaped;
    if log == [] {
      FreshIsCaughtUp(tr, node.rx.chain, node.rx.sts);
      NothingOut(tr, node.rx.chain);
    } else {
      var rest, last := log[..|log| - 1], log[|log| - 1];
      RepliesThroughReceiver(tr, node, rest);
      var now := NodeAfter(tr, node, rest);
      PerSampleCausal(node.rx.chain);
      ChainContinues(tr, node.rx.chain, now.rx.sts, Sums(tr, node, rest),
                     Mix(EdgeOuts(tr, now, last.inputs, last.count), last.count));
    }
  }

  lemma NothingOut(tr: Trig, chain: seq<Step>)
    requires ShapedChain(chain)
    ensures WholeChain(tr, chain, []) == []
  {
    assert |WholeChain(tr, chain, [])| == 0;
  }

  lemma {:induction false} SumsAgree(tr: Trig, a: Node, b: Node, log: seq<Serve>)
    requires tr.turn > 0.0 && a.Shaped() && b.Shaped() && LogFits(a, log) && LogFits(b, log) && a.edges == b.edges
    ensures NodeAfter(tr, a, log).edges == NodeAfter(tr, b, log).edges && Sums(tr, a, log) == Sums(tr, b, log)
    decreases |log|
  {
    hide ChainOut, ChainNext, Mix, Node.Shaped;
    if log != [] {
      var rest, last := log[..|log| - 1], log[|log| - 1];
      SumsAgree(tr, a, b, rest);
      SameOuts(tr, NodeAfter(tr, a, rest), NodeAfter(tr, b, rest), last.inputs, last.count);
    }
  }

  lemma SameOuts(tr: Trig, a: Node, b: Node, inputs: seq<seq<Sample>>, count: nat)
    requires tr.turn > 0.0 && a.Shaped() && b.Shaped() && a.edges == b.edges && Aligned(a, inputs, count)
    ensures EdgeOuts(tr, a, inputs, count) == EdgeOuts(tr, b, inputs, count)
    ensures NodeNext(tr, a, inputs, count).edges == NodeNext(tr, b, inputs, count).edges
  {
    hide ChainOut, ChainNext, Mix;
  }

  // ---- The two backends from one configuration ------------------------------------------------------------

  lemma FitsBoth(ph: Physics, rate: nat, configs: seq<seq<ModelStep>>, receiver: seq<ModelStep>, log: seq<Serve>)
    requires LogFits(CpuPrepared(ph, rate, configs, receiver), log) || LogFits(CudaPrepared(ph, rate, configs, receiver), log)
    ensures LogFits(CpuPrepared(ph, rate, configs, receiver), log) && LogFits(CudaPrepared(ph, rate, configs, receiver), log)
  {
    hide LinkChain, BareChain;
    SameEdges(LinkChains(ph, rate, configs), LinkChain(ph, rate, receiver), BareChain(ph, rate, receiver));
    assert forall n :: 0 <= n < |log| ==>
        (Aligned(CpuPrepared(ph, rate, configs, receiver), log[n].inputs, log[n].count) <==>
         Aligned(CudaPrepared(ph, rate, configs, receiver), log[n].inputs, log[n].count));
  }

  /** Over any log, both nodes' replies are their own receiver on the same stream of sums. */
  lemma BothThroughReceivers(ph: Physics, rate: nat, configs: seq<seq<ModelStep>>, receiver: seq<ModelStep>, log: seq<Serve>)
      returns (x: seq<Sample>)
    requires ph.Valid() && ph.tr.Periodic() && Supported(configs, receiver)
    requires LogFits(CudaPrepared(ph, rate, configs, receiver), log)
    ensures FreshNode(CpuPrepared(ph, rate, configs, receiver)) && FreshNode(CudaPrepared(ph, rate, configs, receiver))
    ensures LogFits(CpuPrepared(ph, rate, configs, receiver), log)
    ensures ShapedChain(LinkChain(ph, rate, receiver)) && ShapedChain(BareChain(ph, rate, receiver))
    ensures x == Sums(ph.tr, CpuPrepared(ph, rate, configs, receiver), log)
    ensures Replies(ph.tr, CpuPrepared(ph, rate, configs, receiver), log) == WholeChain(ph.tr, LinkChain(ph, rate, receiver), x)
    ensures Replies(ph.tr, CudaPrepared(ph, rate, configs, receiver), log) == WholeChain(ph.tr, BareChain(ph, rate, receiver), x)
  {
    hide LinkChain, BareChain, LinkChains, Replies, Sums, WholeChain, Trig.Periodic, LogFits, FreshEdge, Kept;
    SupportedIsKept(configs, receiver);
    ReceiversPerSample(ph, rate, receiver);
    PreparedFresh(ph, rate, configs, receiver);
    FitsBoth(ph, rate, configs, receiver, log);
    Turning(ph.tr);
    var cpu, cuda := CpuPrepared(ph, rate, configs, receiver), CudaPrepared(ph, rate, configs, receiver);
    FreshShaped(cpu);
    FreshShaped(cuda);
    RepliesThroughReceiver(ph.tr, cpu, log);
    RepliesThroughReceiver(ph.tr, cuda, log);
    SumsAgree(ph.tr, cpu, cuda, log);
    x := Sums(ph.tr, cpu, log);
  }

  lemma FreshShaped(node: Node)
    requires FreshNode(node)
    ensures node.Shaped() && FreshEdge(node.rx)
  {
    assert forall k :: 0 <= k < |node.edges| ==> FreshEdge(node.edges[k]);
  }

  lemma RotatesPeriodically(tr: Trig)
    requires Circular(tr)
    ensures tr.Periodic() && tr.turn > 0.0
  {
  }

  /** One plain link, one serve: the receiver is given exactly the window. */
  lemma WireSums(ph: Physics, rate: nat, receiver: seq<ModelStep>, x: seq<Sample>)
    requires ph.Valid() && NoTdl(receiver)
    ensures var cpu, cuda, log := CpuPrepared(ph, rate, [[]], receiver), CudaPrepared(ph, rate, [[]], receiver), [Serve(|x|, [x])];
      && Supported([[]], receiver) && cpu.Shaped() && cuda.Shaped() && LogFits(cpu, log) && LogFits(cuda, log)
      && Sums(ph.tr, cpu, log) == x
  {
    var log, cpu, cuda := [Serve(|x|, [x])], CpuPrepared(ph, rate, [[]], receiver), CudaPrepared(ph, rate, [[]], receiver);
    SupportedIsKept([[]], receiver);
    PreparedFresh(ph, rate, [[]], receiver);
    FreshShaped(cpu);
    FreshShaped(cuda);
    hide LinkChain, BareChain, FreshNode, PerSample;
    assert cpu.edges[0].chain == [] && LogFits(cpu, log) && LogFits(cuda, log);
    var outs := EdgeOuts(ph.tr, cpu, [x], |x|);
    assert outs == [x] && outs[..0] == [] && log[..0] == [];
    assert Sums(ph.tr, cpu, []) == [] && NodeAfter(ph.tr, cpu, []) == cpu;
    MixOne(x);
  }

  lemma MixOne(x: seq<Sample>)
    ensures Mix([x], |x|) == x
  {
    assert [x][..0] == [];
    assert Mix([], |x|) == Zeros(|x|);
  }
}

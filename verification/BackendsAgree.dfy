/** The two backends' objects behind the same relay send the same signal. */
module BackendsAgree {
  import opened Iq
  import opened Phase
  import opened Chain
  import opened Relay
  import opened RelaySafety
  import opened EndToEnd
  import opened Fused
  import opened FusedProof
  import opened FusedEndToEnd
  import opened FusedRun
  import CudaBackend
  import opened CpuLinks
  import FreshParams
  import opened Receiver
  import opened Configured
  import opened CpuBackend
  import opened CpuNodes
  import opened CpuEndToEnd
  import Tdl

  // ---- The CUDA node over a run of serves ------------------------------------------------------

  /** A run of serves by the CUDA node: its state at the end, and everything replied. */
  ghost predicate CudaRuns(tr: Trig, g: GpuNode, log: seq<Serve>, g': GpuNode, y: seq<Sample>)
    decreases |log|
  {
    if log == [] then g' == g && y == []
    else
      var last := log[|log| - 1];
      exists mid, before, now ::
        && CudaRuns(tr, g, log[..|log| - 1], mid, before) && y == before + now && |now| == last.count
        && CudaBackend.Serves(tr, mid, g', last.inputs, now)
  }

  lemma {:induction false} CudaRunIsFused(tr: Trig, g: GpuNode, log: seq<Serve>, g': GpuNode, y: seq<Sample>)
    requires tr.turn > 0.0 && g.Shaped() && CudaRuns(tr, g, log, g', y)
    ensures FusedFits(g, log) && g' == FusedAfter(tr, g, log) && y == FusedReplies(tr, g, log)
    decreases |log|
  {
    hide FusedOut, FusedNext;
    if log != [] {
      var rest, last := log[..|log| - 1], log[|log| - 1];
      var mid, before, now :| CudaRuns(tr, g, rest, mid, before) && y == before + now && |now| == last.count
                              && CudaBackend.Serves(tr, mid, g', last.inputs, now);
      CudaRunIsFused(tr, g, rest, mid, before);
    }
  }

  /** A run exists for every log whose serves fit. */
  lemma {:induction false} CudaRunExists(tr: Trig, g: GpuNode, log: seq<Serve>) returns (g': GpuNode, y: seq<Sample>)
    requires tr.turn > 0.0 && g.Shaped() && FusedFits(g, log)
    ensures g'.Shaped() && |g'.edges| == |g.edges| && CudaRuns(tr, g, log, g', y)
    decreases |log|
  {
    hide FusedOut, FusedNext, GpuNode.Shaped;
    if log == [] {
      g', y := g, [];
    } else {
      var rest, last := log[..|log| - 1], log[|log| - 1];
      var mid, before := CudaRunExists(tr, g, rest);
      assert Fitting(g, last.inputs, last.count);
      var now := FusedOut(tr, mid, last.inputs, last.count);
      g', y := FusedNext(tr, mid, last.inputs, last.count), before + now;
      assert CudaBackend.Serves(tr, mid, g', last.inputs, now);
    }
  }

  // ---- From preparation to the radio --------------------------------------------------------------

  /** The source of each of the node's edges, in order. */
  function Sources(t: Topology, d: nat): (from: seq<nat>)
    requires t.Valid() && d < |t.batch|
    ensures |from| == |t.Incoming(d)| && forall j :: 0 <= j < |from| ==> from[j] == t.Source(d, j)
  {
    seq(|t.Incoming(d)|, j requires 0 <= j < |t.Incoming(d)| => t.Source(d, j))
  }

  /** The source map prepared from a node's edges is its source table. */
  lemma MapIsTable(t: Topology, d: nat, src: seq<nat>, firstEdge: seq<nat>)
    requires t.Valid() && d < |t.batch| && FirstOccurrences(Sources(t, d), src, firstEdge)
    ensures SourceTable(t, d, src, firstEdge)
  {
  }

  /** Node `d` of the relay as the CUDA backend prepares it (module CudaBackend, constructor):
      `configs` for its links, `receiver` for itself, and a struct that holds each leading tdl. */
  ghost predicate CudaSetUp(t: Topology, d: nat, ph: Physics, rate: nat, configs: seq<seq<ModelStep>>, receiver: seq<ModelStep>,
                            src: seq<nat>, firstEdge: seq<nat>)
    requires t.Valid() && d < |t.batch|
  {
    && ph.Valid() && ph.tr.Periodic() && Supported(configs, receiver) && |configs| == |t.Incoming(d)|
    && FirstOccurrences(Sources(t, d), src, firstEdge)
    && CudaPrepared(ph, rate, configs, receiver).Shaped() && RunsOnDevice(CudaPrepared(ph, rate, configs, receiver))
  }

  lemma SetUpShape(t: Topology, d: nat, ph: Physics, rate: nat, configs: seq<seq<ModelStep>>, receiver: seq<ModelStep>,
                   src: seq<nat>, firstEdge: seq<nat>)
    requires t.Valid() && d < |t.batch| && CudaSetUp(t, d, ph, rate, configs, receiver, src, firstEdge)
    ensures FusedShape(t, d, CudaPrepared(ph, rate, configs, receiver), src, firstEdge)
    ensures ph.tr.turn > 0.0 && Kept(configs, receiver) && FreshNode(CpuPrepared(ph, rate, configs, receiver))
    ensures CpuPrepared(ph, rate, configs, receiver).Shaped() && NoTdl(receiver)
    ensures ph.Valid() && ph.tr.Periodic() && CudaPrepared(ph, rate, configs, receiver).Shaped()
    ensures |CudaPrepared(ph, rate, configs, receiver).edges| == |configs|
  {
    hide RunsOnDevice, SourceTable, FreshNode, LinkChain, BareChain, FreshParams.KeepsTaps;
    SupportedIsKept(configs, receiver);
    PreparedFresh(ph, rate, configs, receiver);
    FreshShaped(CpuPrepared(ph, rate, configs, receiver));
    MapIsTable(t, d, src, firstEdge);
  }

  /** What a radio receives from a freshly prepared CUDA node, over every interleaving of the
      relay: the first `served` samples of the configured links' channels on whole streams, through
      the receiver under default parameters. */
  lemma CudaRelayedSignal(t: Topology, s: State, d: nat, ph: Physics, rate: nat, configs: seq<seq<ModelStep>>,
                          receiver: seq<ModelStep>, src: seq<nat>, firstEdge: seq<nat>, g': GpuNode, y: seq<Sample>,
                          xs: seq<seq<Sample>>, n: nat)
    requires t.Valid() && Reachable(t, s) && d < |t.batch| && CudaSetUp(t, d, ph, rate, configs, receiver, src, firstEdge)
    requires |src| == |configs| && CausalNode(CudaPrepared(ph, rate, configs, receiver))
    requires CudaRuns(ph.tr, Prepared(CudaPrepared(ph, rate, configs, receiver), src, firstEdge), s.rx[d].log, g', y)
    requires Aligned(CudaPrepared(ph, rate, configs, receiver), xs, n) && s.rx[d].served <= n
    requires forall j :: 0 <= j < |xs| ==>
               s.rx[d].served <= |s.tx[t.Source(d, j)].sent| && s.tx[t.Source(d, j)].sent[..s.rx[d].served] <= xs[j]
    ensures y == WholeNode(ph.tr, CudaPrepared(ph, rate, configs, receiver), xs, n)[..s.rx[d].served]
  {
    hide Reachable, CausalNode, WholeNode, CudaSetUp, CudaRuns, FusedShape, CudaPrepared, CpuPrepared;
    Sized(t, s);
    SetUpShape(t, d, ph, rate, configs, receiver, src, firstEdge);
    var node := CudaPrepared(ph, rate, configs, receiver);
    FusedRelayedSignal(t, s, d, ph.tr, node, src, firstEdge, xs, n);
    CudaRunIsFused(ph.tr, Prepared(node, src, firstEdge), s.rx[d].log, g', y);
  }

  /** The same streams through the two nodes prepared from one configuration. */
  lemma SameWholeNodes(ph: Physics, rate: nat, configs: seq<seq<ModelStep>>, receiver: seq<ModelStep>, xs: seq<seq<Sample>>, n: nat)
    requires CudaPrepared(ph, rate, configs, receiver).Shaped() && CpuPrepared(ph, rate, configs, receiver).Shaped()
    requires Aligned(CudaPrepared(ph, rate, configs, receiver), xs, n)
    requires SameOnStreams(ph.tr, LinkChain(ph, rate, receiver), BareChain(ph, rate, receiver))
    ensures Aligned(CpuPrepared(ph, rate, configs, receiver), xs, n)
    ensures WholeNode(ph.tr, CpuPrepared(ph, rate, configs, receiver), xs, n) ==
            WholeNode(ph.tr, CudaPrepared(ph, rate, configs, receiver), xs, n)
  {
    hide LinkChain, BareChain, WholeChain, Mix, ShapedChain;
    var cpu, cuda := CpuPrepared(ph, rate, configs, receiver), CudaPrepared(ph, rate, configs, receiver);
    SameEdges(LinkChains(ph, rate, configs), LinkChain(ph, rate, receiver), BareChain(ph, rate, receiver));
    assert WholeEdges(ph.tr, cpu, xs, n) == WholeEdges(ph.tr, cuda, xs, n);
    var sum := Mix(WholeEdges(ph.tr, cuda, xs, n), n);
    assert WholeChain(ph.tr, LinkChain(ph, rate, receiver), sum) == WholeChain(ph.tr, BareChain(ph, rate, receiver), sum);
  }

  /** ... which is the configured channel, receiver and all, when the receiver asks for nothing that
      the CUDA backend leaves out. */
  lemma CudaRelaysConfigured(t: Topology, s: State, d: nat, ph: Physics, rate: nat, configs: seq<seq<ModelStep>>,
                             receiver: seq<ModelStep>, src: seq<nat>, firstEdge: seq<nat>, g': GpuNode, y: seq<Sample>,
                             xs: seq<seq<Sample>>, n: nat)
    requires t.Valid() && Reachable(t, s) && d < |t.batch| && CudaSetUp(t, d, ph, rate, configs, receiver, src, firstEdge)
    requires Physical(ph) && AsksNothing(rate, receiver)
    requires |src| == |configs| && CausalNode(CudaPrepared(ph, rate, configs, receiver))
    requires CudaRuns(ph.tr, Prepared(CudaPrepared(ph, rate, configs, receiver), src, firstEdge), s.rx[d].log, g', y)
    requires Aligned(CudaPrepared(ph, rate, configs, receiver), xs, n) && s.rx[d].served <= n
    requires forall j :: 0 <= j < |xs| ==>
               s.rx[d].served <= |s.tx[t.Source(d, j)].sent| && s.tx[t.Source(d, j)].sent[..s.rx[d].served] <= xs[j]
    ensures CpuPrepared(ph, rate, configs, receiver).Shaped() && Aligned(CpuPrepared(ph, rate, configs, receiver), xs, n)
    ensures y == WholeNode(ph.tr, CpuPrepared(ph, rate, configs, receiver), xs, n)[..s.rx[d].served]
  {
    hide Reachable, CausalNode, WholeNode, CudaSetUp, CudaRuns, FusedShape, CudaPrepared, CpuPrepared, AsksNothing, Physical,
         LinkChain, BareChain, NoTdl;
    Sized(t, s);
    SetUpShape(t, d, ph, rate, configs, receiver, src, firstEdge);
    CudaRelayedSignal(t, s, d, ph, rate, configs, receiver, src, firstEdge, g', y, xs, n);
    ReceiversAgreeExactly(ph, rate, receiver);
    SameWholeNodes(ph, rate, configs, receiver, xs, n);
  }

  /** A CUDA run exists for the log of every reachable state. */
  lemma CudaRelayedRunExists(t: Topology, s: State, d: nat, ph: Physics, rate: nat, configs: seq<seq<ModelStep>>,
                             receiver: seq<ModelStep>, src: seq<nat>, firstEdge: seq<nat>) returns (g': GpuNode, y: seq<Sample>)
    requires t.Valid() && Reachable(t, s) && d < |t.batch| && CudaSetUp(t, d, ph, rate, configs, receiver, src, firstEdge)
    requires |src| == |configs|
    ensures CudaRuns(ph.tr, Prepared(CudaPrepared(ph, rate, configs, receiver), src, firstEdge), s.rx[d].log, g', y)
  {
    hide Reachable, CudaRuns, FusedShape, CpuPrepared, Prepared, Matches, SharedThroughout, LinkChain, BareChain;
    Sized(t, s);
    SetUpShape(t, d, ph, rate, configs, receiver, src, firstEdge);
    var node := CudaPrepared(ph, rate, configs, receiver);
    PreparedRuns(t, s, d, ph.tr, node, src, firstEdge);
    ShapedMatch(ph.tr, node, Prepared(node, src, firstEdge));
    LogServes(t, s, d);
    assert forall k :: 0 <= k < |s.rx[d].log| ==> ServeOk(t, s.rx[d].log[k], d);
    g', y := CudaRunExists(ph.tr, Prepared(node, src, firstEdge), s.rx[d].log);
  }

  // ---- Side by side --------------------------------------------------------------------------------

  /** `cuda` is everything a freshly prepared CUDA node of the configuration replies to `log`, whose
      edges with one source are handed one window.  Taps need not be causal. */
  ghost predicate CudaAnswers(ph: Physics, rate: nat, configs: seq<seq<ModelStep>>, receiver: seq<ModelStep>, log: seq<Serve>,
                              cuda: seq<Sample>)
  {
    var node := CudaPrepared(ph, rate, configs, receiver);
    && ph.Valid() && ph.tr.Periodic() && Supported(configs, receiver) && node.Shaped() && RunsOnDevice(node)
    && exists src, firstEdge, g' :: SourcesMapped(configs, src, firstEdge) && AnswersWith(ph.tr, node, src, firstEdge, log, g', cuda)
  }

  predicate SourcesMapped(configs: seq<seq<ModelStep>>, src: seq<nat>, firstEdge: seq<nat>) {
    && |src| == |configs| && (forall k :: 0 <= k < |src| ==> src[k] < |firstEdge|)
    && forall m :: 0 <= m < |firstEdge| ==> firstEdge[m] < |src|
  }

  ghost predicate AnswersWith(tr: Trig, node: Node, src: seq<nat>, firstEdge: seq<nat>, log: seq<Serve>, g': GpuNode, cuda: seq<Sample>)
  {
    && node.Shaped() && |src| == |node.edges|
    && var g := Prepared(node, src, firstEdge);
       g.Shaped() && SharedThroughout(g, log) && CudaRuns(tr, g, log, g', cuda)
  }

  /** `cpu` is everything a freshly prepared CPU node of the configuration replies to `log`. */
  ghost predicate CpuAnswers(ph: Physics, rate: nat, configs: seq<seq<ModelStep>>, receiver: seq<ModelStep>, b: CpuNode,
                             log: seq<Serve>, cpu: seq<Sample>)
  {
    && (forall k :: 0 <= k < |log| ==> log[k].count > 0)
    && exists hs, hs' :: FreshlyPrepared(b, ph, rate, configs, [receiver], hs) && Runs(b, hs, log, hs', cpu)
  }

  lemma CpuAnswersReplies(ph: Physics, rate: nat, configs: seq<seq<ModelStep>>, receiver: seq<ModelStep>, b: CpuNode,
                          log: seq<Serve>, cpu: seq<Sample>)
    requires ph.Valid() && Kept(configs, receiver) && CpuAnswers(ph, rate, configs, receiver, b, log, cpu)
    ensures var node := CpuPrepared(ph, rate, configs, receiver);
      ph.tr.turn > 0.0 && node.Shaped() && LogFits(node, log) && cpu == Replies(ph.tr, node, log)
  {
    hide Runs, AllQuiet, CpuNode.NodeOf, FreshlyPrepared, Kept, Replies, LogFits, CpuPrepared, Node.Shaped, FreshNode, SaneLink;
    var hs, hs' :| FreshlyPrepared(b, ph, rate, configs, [receiver], hs) && Runs(b, hs, log, hs', cpu);
    PreparedFresh(ph, rate, configs, receiver);
    FreshShaped(CpuPrepared(ph, rate, configs, receiver));
    FreshNodeRuns(b, ph, rate, configs, [receiver], hs, 1);
    QuietRun(b, hs, log, hs', cpu);
  }

  lemma CudaAnswersReplies(ph: Physics, rate: nat, configs: seq<seq<ModelStep>>, receiver: seq<ModelStep>, log: seq<Serve>,
                           cuda: seq<Sample>)
    requires CudaAnswers(ph, rate, configs, receiver, log, cuda) && LogFits(CudaPrepared(ph, rate, configs, receiver), log)
    ensures ph.tr.turn > 0.0 && cuda == Replies(ph.tr, CudaPrepared(ph, rate, configs, receiver), log)
  {
    hide SourcesMapped, AnswersWith, Replies, LogFits, RunsOnDevice, CudaPrepared, Trig.Periodic, Kept, FreshNode;
    var node := CudaPrepared(ph, rate, configs, receiver);
    var src, firstEdge, g' :| SourcesMapped(configs, src, firstEdge) && AnswersWith(ph.tr, node, src, firstEdge, log, g', cuda);
    Turning(ph.tr);
    SupportedIsKept(configs, receiver);
    PreparedFresh(ph, rate, configs, receiver);
    PreparedReplies(ph.tr, configs, node, src, firstEdge, log, g', cuda);
  }

  /** Any node set up on the device answers with the plain node's replies. */
  lemma PreparedReplies(tr: Trig, configs: seq<seq<ModelStep>>, node: Node, src: seq<nat>, firstEdge: seq<nat>, log: seq<Serve>,
                        g': GpuNode, cuda: seq<Sample>)
    requires tr.Periodic() && tr.turn > 0.0 && node.Shaped() && RunsOnDevice(node) && FreshNode(node) && LogFits(node, log)
    requires SourcesMapped(configs, src, firstEdge) && AnswersWith(tr, node, src, firstEdge, log, g', cuda)
    ensures cuda == Replies(tr, node, log)
  {
    hide Matches, SharedThroughout, Trig.Periodic, RunsOnDevice, Replies, FusedReplies, LogFits, FreshNode, CudaRuns, Prepared;
    FusedEndToEnd.AtZero(node);
    PreparedMatches(tr, node, src, firstEdge);
    FusedRepliesAreReplies(tr, node, Prepared(node, src, firstEdge), log);
    CudaRunIsFused(tr, Prepared(node, src, firstEdge), log, g', cuda);
  }

  /** Fed the same log, two nodes of one configuration - prepared by either backend - send one stream
      of sums through either receiver. */
  lemma RepliesSideBySide(ph: Physics, rate: nat, configs: seq<seq<ModelStep>>, receiver: seq<ModelStep>, b: CpuNode,
                          log: seq<Serve>, cpu: seq<Sample>, cuda: seq<Sample>) returns (x: seq<Sample>)
    requires CudaAnswers(ph, rate, configs, receiver, log, cuda) && CpuAnswers(ph, rate, configs, receiver, b, log, cpu)
    ensures ShapedChain(LinkChain(ph, rate, receiver)) && ShapedChain(BareChain(ph, rate, receiver))
    ensures cpu == WholeChain(ph.tr, LinkChain(ph, rate, receiver), x) && cuda == WholeChain(ph.tr, BareChain(ph, rate, receiver), x)
  {
    SupportedIsKept(configs, receiver);
    hide *;
    AnswerFacts(ph, rate, configs, receiver, log, cuda);
    CpuAnswersReplies(ph, rate, configs, receiver, b, log, cpu);
    FitsBoth(ph, rate, configs, receiver, log);
    CudaAnswersReplies(ph, rate, configs, receiver, log, cuda);
    x := BothThroughReceivers(ph, rate, configs, receiver, log);
  }

  lemma AnswerFacts(ph: Physics, rate: nat, configs: seq<seq<ModelStep>>, receiver: seq<ModelStep>, log: seq<Serve>, cuda: seq<Sample>)
    requires CudaAnswers(ph, rate, configs, receiver, log, cuda)
    ensures ph.Valid() && ph.tr.Periodic() && ph.tr.turn > 0.0 && Supported(configs, receiver) && NoTdl(receiver)
  {
  }

  /** The two reply the same, sample for sample, when the receiver asks for no loss and its offsets
      add up to a multiple of the sample rate. */
  lemma SameReplies(ph: Physics, rate: nat, configs: seq<seq<ModelStep>>, receiver: seq<ModelStep>, b: CpuNode,
                    log: seq<Serve>, cpu: seq<Sample>, cuda: seq<Sample>)
    requires CudaAnswers(ph, rate, configs, receiver, log, cuda) && CpuAnswers(ph, rate, configs, receiver, b, log, cpu)
    requires Physical(ph) && AsksNothing(rate, receiver)
    ensures cpu == cuda
  {
    hide CudaAnswers, CpuAnswers, LinkChain, BareChain, WholeChain, AsksNothing, Physical, ShapedChain;
    AnswerFacts(ph, rate, configs, receiver, log, cuda);
    ReceiversAgreeExactly(ph, rate, receiver);
    var x := RepliesSideBySide(ph, rate, configs, receiver, b, log, cpu, cuda);
    assert WholeChain(ph.tr, LinkChain(ph, rate, receiver), x) == WholeChain(ph.tr, BareChain(ph, rate, receiver), x);
  }

  /** With a path loss of 20 dB in the receiver they differ wherever the CUDA backend sends anything. */
  lemma LossyRepliesDiffer(ph: Physics, rate: nat, configs: seq<seq<ModelStep>>, b: CpuNode, log: seq<Serve>,
                           cpu: seq<Sample>, cuda: seq<Sample>, n: nat)
    requires CudaAnswers(ph, rate, configs, [PathLossStep(20.0)], log, cuda)
    requires CpuAnswers(ph, rate, configs, [PathLossStep(20.0)], b, log, cpu)
    requires Physical(ph) && n < |cuda| && cuda[n] != ZERO
    ensures cpu != cuda
  {
    hide CudaAnswers, CpuAnswers, LinkChain, BareChain, WholeChain, Physical, ShapedChain;
    var x := RepliesSideBySide(ph, rate, configs, [PathLossStep(20.0)], b, log, cpu, cuda);
    LossyPasses(ph, rate, x);
    LossyReceiverDiffers(ph, rate, x, n);
  }

  // ---- Every configuration, every log ----------------------------------------------------------------

  /** A configuration whose CUDA node runs on the device or is staged on the host, a source map for it,
      and a log both backends accept that hands edges of one packed source one window. */
  ghost predicate Comparable(ph: Physics, rate: nat, configs: seq<seq<ModelStep>>, receiver: seq<ModelStep>,
                             src: seq<nat>, firstEdge: seq<nat>, log: seq<Serve>)
  {
    var cpu, cuda := CpuPrepared(ph, rate, configs, receiver), CudaPrepared(ph, rate, configs, receiver);
    && Supported(configs, receiver) && SourcesMapped(configs, src, firstEdge)
    && cpu.Shaped() && LogFits(cpu, log) && cuda.Shaped() && RunsOnDevice(cuda)
    && var g := Prepared(cuda, src, firstEdge);
       g.Shaped() && FusedFits(g, log) && SharedThroughout(g, log)
  }

  /** What the prepared CUDA node sends is what the CPU node sends. */
  ghost predicate Alike(ph: Physics, rate: nat, configs: seq<seq<ModelStep>>, receiver: seq<ModelStep>,
                        src: seq<nat>, firstEdge: seq<nat>, log: seq<Serve>)
    requires ph.tr.turn > 0.0 && Comparable(ph, rate, configs, receiver, src, firstEdge, log)
  {
    FusedReplies(ph.tr, Prepared(CudaPrepared(ph, rate, configs, receiver), src, firstEdge), log) ==
    Replies(ph.tr, CpuPrepared(ph, rate, configs, receiver), log)
  }

  /** One stream of sums reaches either receiver. */
  lemma ComparableReplies(ph: Physics, rate: nat, configs: seq<seq<ModelStep>>, receiver: seq<ModelStep>,
                          src: seq<nat>, firstEdge: seq<nat>, log: seq<Serve>) returns (x: seq<Sample>)
    requires ph.Valid() && ph.tr.Periodic() && ph.tr.turn > 0.0 && Comparable(ph, rate, configs, receiver, src, firstEdge, log)
    ensures ShapedChain(LinkChain(ph, rate, receiver)) && ShapedChain(BareChain(ph, rate, receiver))
    ensures x == Sums(ph.tr, CpuPrepared(ph, rate, configs, receiver), log)
    ensures Replies(ph.tr, CpuPrepared(ph, rate, configs, receiver), log) == WholeChain(ph.tr, LinkChain(ph, rate, receiver), x)
    ensures FusedReplies(ph.tr, Prepared(CudaPrepared(ph, rate, configs, receiver), src, firstEdge), log) ==
            WholeChain(ph.tr, BareChain(ph, rate, receiver), x)
  {
    hide Matches, SharedThroughout, Trig.Periodic, RunsOnDevice, LinkChain, BareChain, Kept, Supported, Replies, FusedReplies, LogFits,
         FusedFits, FreshNode, WholeChain, Sums, Prepared, CpuPrepared, CudaPrepared, Node.Shaped, GpuNode.Shaped;
    FitsBoth(ph, rate, configs, receiver, log);
    x := BothThroughReceivers(ph, rate, configs, receiver, log);
    OneEdgeEach(ph, rate, configs, receiver);
    FusedIsItsNode(ph.tr, CudaPrepared(ph, rate, configs, receiver), src, firstEdge, log);
  }

  lemma OneEdgeEach(ph: Physics, rate: nat, configs: seq<seq<ModelStep>>, receiver: seq<ModelStep>)
    ensures |CudaPrepared(ph, rate, configs, receiver).edges| == |CpuPrepared(ph, rate, configs, receiver).edges| == |configs|
  {
  }

  lemma FusedIsItsNode(tr: Trig, node: Node, src: seq<nat>, firstEdge: seq<nat>, log: seq<Serve>)
    requires tr.Periodic() && tr.turn > 0.0 && node.Shaped() && RunsOnDevice(node) && FreshNode(node) && LogFits(node, log)
    requires |src| == |node.edges| && (forall k :: 0 <= k < |src| ==> src[k] < |firstEdge|)
    requires forall m :: 0 <= m < |firstEdge| ==> firstEdge[m] < |src|
    requires Prepared(node, src, firstEdge).Shaped() && SharedThroughout(Prepared(node, src, firstEdge), log)
    ensures FusedFits(Prepared(node, src, firstEdge), log)
    ensures FusedReplies(tr, Prepared(node, src, firstEdge), log) == Replies(tr, node, log)
  {
    hide Matches, SharedThroughout, Trig.Periodic, RunsOnDevice, Replies, FusedReplies, LogFits, FreshNode, Prepared;
    FusedEndToEnd.AtZero(node);
    PreparedMatches(tr, node, src, firstEdge);
    FusedRepliesAreReplies(tr, node, Prepared(node, src, firstEdge), log);
  }

  ghost predicate AlwaysAlike(ph: Physics, rate: nat, receiver: seq<ModelStep>)
    requires ph.tr.turn > 0.0
  {
    forall configs, src, firstEdge, log ::
      Comparable(ph, rate, configs, receiver, src, firstEdge, log) ==> Alike(ph, rate, configs, receiver, src, firstEdge, log)
  }

  /** The nodes the two backends prepare reply alike - whatever links lead to them that the device can
      run, however their sources are packed and whatever they are served - precisely when the receiver
      asks for no loss and its offsets add up to a multiple of the sample rate. */
  lemma PreparedAlikeExactly(ph: Physics, rate: nat, receiver: seq<ModelStep>)
    requires ph.Valid() && Physical(ph) && NoTdl(receiver) && ph.tr.turn > 0.0
    ensures AlwaysAlike(ph, rate, receiver) <==> AsksNothing(rate, receiver)
  {
    hide AsksNothing, Physical, LinkChain, BareChain, WholeChain, Comparable, NoTdl, Alike, Trig.Periodic, ShapedChain;
    Parts(ph);
    RotatesPeriodically(ph.tr);
    ReceiversAgreeExactly(ph, rate, receiver);
    if AsksNothing(rate, receiver) {
      forall configs, src, firstEdge, log | Comparable(ph, rate, configs, receiver, src, firstEdge, log)
        ensures Alike(ph, rate, configs, receiver, src, firstEdge, log)
      {
        AlikeUnder(ph, rate, configs, receiver, src, firstEdge, log);
      }
    }
    if AlwaysAlike(ph, rate, receiver) {
      forall x ensures WholeChain(ph.tr, LinkChain(ph, rate, receiver), x) == WholeChain(ph.tr, BareChain(ph, rate, receiver), x) {
        OneWire(ph, rate, receiver, x);
      }
    }
  }

  lemma AlikeUnder(ph: Physics, rate: nat, configs: seq<seq<ModelStep>>, receiver: seq<ModelStep>,
                   src: seq<nat>, firstEdge: seq<nat>, log: seq<Serve>)
    requires ph.Valid() && ph.tr.Periodic() && ph.tr.turn > 0.0 && Comparable(ph, rate, configs, receiver, src, firstEdge, log)
    requires ShapedChain(LinkChain(ph, rate, receiver)) && ShapedChain(BareChain(ph, rate, receiver))
    requires SameOnStreams(ph.tr, LinkChain(ph, rate, receiver), BareChain(ph, rate, receiver))
    ensures Alike(ph, rate, configs, receiver, src, firstEdge, log)
  {
    hide LinkChain, BareChain, WholeChain, Comparable, Trig.Periodic, ShapedChain, Replies, FusedReplies, Prepared, Sums;
    var x := ComparableReplies(ph, rate, configs, receiver, src, firstEdge, log);
    assert WholeChain(ph.tr, LinkChain(ph, rate, receiver), x) == WholeChain(ph.tr, BareChain(ph, rate, receiver), x);
  }

  /** A single plain link: its CUDA node is staged on the host. */
  lemma WireComparable(ph: Physics, rate: nat, receiver: seq<ModelStep>, x: seq<Sample>)
    requires ph.Valid() && ph.tr.turn > 0.0 && NoTdl(receiver)
    ensures Comparable(ph, rate, [[]], receiver, [0], [0], [Serve(|x|, [x])])
  {
    WireSums(ph, rate, receiver, x);
    ReceiversPerSample(ph, rate, receiver);
    var node, log := CudaPrepared(ph, rate, [[]], receiver), [Serve(|x|, [x])];
    hide LinkChain, BareChain, PerSample, Supported, NoTdl;
    assert node.edges[0].chain == [];
    assert RunsOnDevice(node);
    var g := Prepared(node, [0], [0]);
    assert g.edges[0] == GpuEdge([], [], Fused.DevLink(false, [], [], [], 0), []);
    assert g.Shaped() && FusedFits(g, log) && SharedInputs(g, [x]);
  }

  lemma OneWire(ph: Physics, rate: nat, receiver: seq<ModelStep>, x: seq<Sample>)
    requires ph.Valid() && ph.tr.Periodic() && ph.tr.turn > 0.0 && NoTdl(receiver) && AlwaysAlike(ph, rate, receiver)
    ensures ShapedChain(LinkChain(ph, rate, receiver)) && ShapedChain(BareChain(ph, rate, receiver))
    ensures WholeChain(ph.tr, LinkChain(ph, rate, receiver), x) == WholeChain(ph.tr, BareChain(ph, rate, receiver), x)
  {
    hide Supported, Comparable, CpuPrepared, CudaPrepared, Sums, WholeChain, NoTdl, LogFits, Replies, FusedReplies, Trig.Periodic, Prepared;
    var log := [Serve(|x|, [x])];
    WireSums(ph, rate, receiver, x);
    WireComparable(ph, rate, receiver, x);
    assert Alike(ph, rate, [[]], receiver, [0], [0], log);
    var sums := ComparableReplies(ph, rate, [[]], receiver, [0], [0], log);
  }
}

/**
 How much of a tdl the device struct holds (include/ocudu_gpu_channel/device_channel.h:37-42,
 src/device_channel.cu:327-336), and how far back a prepared ring reaches (include/ocudu_gpu_channel/delay.h:78-96).
 */
module DeviceLimits {
  import opened Iq
  import opened Phase
  import opened Chain
  import opened RuntimeControl
  import opened CpuLinks
  import opened FreshParams
  import opened Receiver
  import opened Relay
  import opened EndToEnd
  import opened Fused
  import opened FusedProof
  import opened FusedEndToEnd
  import opened Configured
  import opened BackendsAgree
  import opened NodesAgree
  import opened ChannelFormula
  import opened FoldSignal
  import ControlledNode
  import Tdl
  import TdlResponse

  // ---- Rings and structs -------------------------------------------------------------------------------------

  /** The ring prepared for some taps: eight samples more than the largest delay, rounded up. */
  lemma {:induction false} RingReach(ph: Physics, specs: seq<TapSpec>)
    requires DelaysFit(specs)
    ensures var r := Tdl.RingSize(ph.TapsOf(specs));
      && 8 <= r && (forall k :: 0 <= k < |specs| ==> specs[k].delay + 8.0 <= r as real)
      && (r == 8 || exists k :: 0 <= k < |specs| && r as real < specs[k].delay + 9.0)
  {
    LargestDelay(ph, specs);
  }

  lemma {:induction false} LargestDelay(ph: Physics, specs: seq<TapSpec>)
    requires DelaysFit(specs)
    ensures var m := Tdl.MaxDelay(ph.TapsOf(specs));
      && m >= 0.0 && (forall k :: 0 <= k < |specs| ==> specs[k].delay <= m)
      && (m == 0.0 || exists k :: 0 <= k < |specs| && specs[k].delay == m)
  {
    var taps := ph.TapsOf(specs);
    if specs != [] {
      var n := |specs| - 1;
      assert taps[..n] == ph.TapsOf(specs[..n]);
      LargestDelay(ph, specs[..n]);
      assert taps[n].delay == specs[n].delay;
      assert forall k :: 0 <= k < n ==> specs[..n][k] == specs[k];
    }
  }

  /** A prepared edge's struct holds its leading tdl if and only if it has 1 to 32 taps and none of them is more
      than 120 samples late. */
  lemma HeldExactly(ph: Physics, rate: nat, chain: seq<ModelStep>, src: nat)
    requires ph.Valid() && SaneChain(chain) && Leads(chain)
    ensures FreshOf(LinkChain(ph, rate, chain)).Shaped()
    ensures var taps := chain[0].taps;
      && (PreparedEdge(FreshOf(LinkChain(ph, rate, chain)), src).dev.hasTdl <==>
            1 <= |taps| <= 32 && forall k :: 0 <= k < |taps| ==> taps[k].delay <= 120.0)
      && (ControlledNode.Held(ph, chain) <==> 1 <= |taps| <= 32 && forall k :: 0 <= k < |taps| ==> taps[k].delay <= 120.0)
  {
    hide Tdl.RingSize, Tdl.Polyphase, YamlParams;
    FreshResolvedShaped(ph, rate, chain);
    ControlledNode.LeadIs(ph, rate, chain);
    RingFits(ph, chain[0].taps);
    ControlledNode.FreshUsable(ph, rate, chain, src);
  }

  lemma RingFits(ph: Physics, specs: seq<TapSpec>)
    requires DelaysFit(specs)
    ensures Tdl.RingSize(ph.TapsOf(specs)) <= MAX_LINE <==> forall k :: 0 <= k < |specs| ==> specs[k].delay <= 120.0
  {
    hide Tdl.RingSize;
    RingReach(ph, specs);
  }

  // ---- A link that only delays ---------------------------------------------------------------------------------

  /** One unit tap, `d` samples late. */
  function Late(d: nat): seq<ModelStep> {
    [TdlStep([TapSpec(d as real, 0.0, 0.0, false, 0.0, 0.0)])]
  }

  lemma LateIs(ph: Physics, rate: nat, d: nat)
    requires Grounded(ph)
    ensures var taps := [Tdl.Tap(d as real, 1.0, TdlResponse.ONE)];
      && LinkChain(ph, rate, Late(d)) == [Taps(taps, [IMPULSE])] && Tdl.Shaped(taps, [IMPULSE])
      && FreshOf(LinkChain(ph, rate, Late(d))).sts[0].line == Zeros(d + 8)
  {
    hide YamlParams, Tdl.Polyphase, Tdl.MaxDelay;
    var specs := Late(d)[0].taps;
    FreshUsesOwnTaps(ph, rate, Late(d), Untouched(YamlParams(Late(d))));
    UnitSpec(ph, specs, d);
    assert LinkChain(ph, rate, Late(d)) == [ph.TdlOf(specs)];
    LateRing(d);
  }

  lemma LateRing(d: nat)
    ensures Tdl.RingSize([Tdl.Tap(d as real, 1.0, TdlResponse.ONE)]) == d + 8
  {
    var taps := [Tdl.Tap(d as real, 1.0, TdlResponse.ONE)];
    assert taps[..0] == [] && Tdl.MaxDelay([]) == 0.0;
  }

  /** A tap that is late is no wire. */
  lemma LateShows(d: nat)
    requires d > 0
    ensures var taps := [Tdl.Tap(d as real, 1.0, TdlResponse.ONE)];
      Tdl.Shaped(taps, [IMPULSE]) && !TdlResponse.Transparent(taps, [IMPULSE])
  {
    hide Tdl.Conv;
    var taps := [Tdl.Tap(d as real, 1.0, TdlResponse.ONE)];
    UnitTapOut(TdlResponse.Pulse(0, TdlResponse.ONE), taps, [IMPULSE], d, d);
    assert TdlResponse.Response(taps, [IMPULSE], d) == TdlResponse.ONE;
  }

  /** The device runs such a link exactly if it is no more than 120 samples late. */
  lemma LateRuns(ph: Physics, rate: nat, d: nat)
    requires Grounded(ph)
    ensures Supported([Late(d)], []) && CudaPrepared(ph, rate, [Late(d)], []).Shaped()
    ensures RunsOnDevice(CudaPrepared(ph, rate, [Late(d)], [])) <==> d <= 120
  {
    hide TdlResponse.Transparent, YamlParams, Tdl.RingSize;
    LateIs(ph, rate, d);
    SupportedIsKept([Late(d)], []);
    PreparedFresh(ph, rate, [Late(d)], []);
    FreshShaped(CudaPrepared(ph, rate, [Late(d)], []));
    var node := CudaPrepared(ph, rate, [Late(d)], []);
    assert node.edges[0] == FreshOf(LinkChain(ph, rate, Late(d)));
    if d > 0 {
      LateShows(d);
    }
  }

  /** So the two backends' nodes send the same, over every log, exactly if it is no more than 120 samples late. */
  lemma LateTells(ph: Physics, rate: nat, d: nat)
    requires Grounded(ph) && Physical(ph)
    ensures SetApart(ph, [Late(d)], [], [0], [0])
    ensures NodesAlike(ph, rate, [Late(d)], [], [0], [0]) <==> d <= 120
  {
    hide Physical, RunsOnDevice, NodesAlike, Late, CudaPrepared, Grounded, LinkChain, BareChain;
    LateRuns(ph, rate, d);
    GroundedValid(ph);
    assert AsksNothing(rate, []) by { AsksNone(rate); }
    DeviceTells(ph, rate, [Late(d)], [], [0], [0]);
  }

  lemma AsksNone(rate: nat)
    ensures AsksNothing(rate, [])
  {
    assert rate > 0 ==> Multiple(0, 0.0, rate, 0);
  }

  /** A log of windows for one edge. */
  ghost predicate OneEdge(log: seq<Serve>) {
    forall m :: 0 <= m < |log| ==> |log[m].inputs| == 1 && |log[m].inputs[0]| == log[m].count
  }

  /** The CUDA node answers every such log. */
  lemma LateAnswers(ph: Physics, rate: nat, d: nat, log: seq<Serve>) returns (cuda: seq<Sample>)
    requires Grounded(ph) && ph.tr.Periodic() && d <= 120 && OneEdge(log)
    ensures CudaAnswers(ph, rate, [Late(d)], [], log, cuda)
  {
    hide Grounded, Trig.Periodic, RunsOnDevice, CudaRuns, Late, LinkChain, BareChain, CudaPrepared;
    LateRuns(ph, rate, d);
    GroundedValid(ph);
    Turning(ph.tr);
    var node := CudaPrepared(ph, rate, [Late(d)], []);
    assert |node.edges| == 1 by { OneEdgeEach(ph, rate, [Late(d)], []); }
    PreparedShaped(node, [0], [0]);
    var g := Prepared(node, [0], [0]);
    LateFits(node, log);
    var g';
    g', cuda := CudaRunExists(ph.tr, g, log);
    assert SourcesMapped([Late(d)], [0], [0]) && AnswersWith(ph.tr, node, [0], [0], log, g', cuda);
  }

  lemma LateFits(node: Node, log: seq<Serve>)
    requires node.Shaped() && |node.edges| == 1 && OneEdge(log)
    ensures Prepared(node, [0], [0]).Shaped()
    ensures FusedFits(Prepared(node, [0], [0]), log) && SharedThroughout(Prepared(node, [0], [0]), log)
  {
    hide Node.Shaped, PreparedEdge;
    PreparedShaped(node, [0], [0]);
  }

  /** What it replies is the stream, `d` samples late, however it was cut. */
  lemma LateReplies(ph: Physics, rate: nat, d: nat, log: seq<Serve>, cuda: seq<Sample>, m: nat, i: nat)
    requires Grounded(ph) && CudaAnswers(ph, rate, [Late(d)], [], log, cuda) && m < |log| && i < log[m].count
    ensures var n, x := TotalServed(log[..m]) + i, Column(log[..m + 1], 0);
      n < |cuda| && (d <= n ==> n - d < |x|) && cuda[n] == if n < d then Sample(0.0, 0.0) else x[n - d]
  {
    hide CudaAnswers, CudaPrepared, Reply, Channel, Supported, LogFits, TotalServed, Grounded;
    AnswerFacts(ph, rate, [Late(d)], [], log, cuda);
    CudaLogFits(ph, rate, [Late(d)], [], log, cuda);
    FitsOne(ph, rate, Late(d), log, m);
    CudaReply(ph, rate, [Late(d)], [], log, cuda, m, i);
    OneIs(ph, rate, Late(d), log, m, i);
    var n, xs := TotalServed(log[..m]) + i, HeardBy(log[..m + 1], 1);
    assert |[Late(d)]| == 1;
    LateChannel(ph, rate, d, xs[0], n);
  }

  lemma LateChannel(ph: Physics, rate: nat, d: nat, x: seq<Sample>, n: nat)
    requires Grounded(ph)
    ensures Channel(ph, rate, Late(d), x, n) == ChannelFormula.Heard(x, n - d)
  {
    hide Plus, Weigh, Turned, Filtered, ChannelFormula.Heard, LossOf, OffsetOf, Swept;
    var chain, t := Late(d), Late(d)[0].taps[0];
    assert t.delay.Floor == d && t.delay - d as real == 0.0;
    var v := ChannelFormula.Heard(x, n - d);
    ImpulsePasses(ph.sinc(0.0), x, n - d, 8);
    UnitTap(v);
    assert Echoes(ph, chain[0].taps, x, n, 0) == Sample(0.0, 0.0);
    assert Echoes(ph, chain[0].taps, x, n, 1) == v;
    assert chain[1..] == [];
    assert Stepped(ph, [], LossOf(chain), Swept(ph, rate, OffsetOf(chain), n), v) == v;
  }

  lemma UnitTap(v: Sample)
    ensures Weigh(1.0, Turned(v, TdlResponse.ONE)) == v && Plus(Sample(0.0, 0.0), v) == v
  {
  }

  lemma {:induction false} ImpulsePasses(h: seq<real>, x: seq<Sample>, pos: int, count: nat)
    requires h == [0.0, 0.0, 0.0, 1.0, 0.0, 0.0, 0.0, 0.0] && count <= 8
    ensures Filtered(h, x, pos, count) == if count <= 3 then Sample(0.0, 0.0) else ChannelFormula.Heard(x, pos)
  {
    hide Plus, Weigh;
    if count > 0 {
      ImpulsePasses(h, x, pos, count - 1);
      UnitWeights(ChannelFormula.Heard(x, pos + 4 - count));
      UnitWeights(ChannelFormula.Heard(x, pos));
      UnitWeights(Sample(0.0, 0.0));
    }
  }

  lemma UnitWeights(v: Sample)
    ensures Weigh(1.0, v) == v && Weigh(0.0, v) == Sample(0.0, 0.0)
    ensures Plus(v, Sample(0.0, 0.0)) == v && Plus(Sample(0.0, 0.0), v) == v
  {
  }
}

/**
 What a freshly prepared node sends, sample by sample and in numbers: the channel of
 include/ocudu_gpu_channel/delay.h:109-175 and src/cpu_backend.cpp:272-330 written out on its own, with
 neither backend's steps, states nor tables, and proved of both.
 */
module ChannelFormula {
  import opened Iq
  import opened Phase
  import opened Chain
  import opened CpuLinks
  import opened FreshParams
  import opened Receiver
  import opened Relay
  import opened EndToEnd
  import opened Fused
  import opened FusedProof
  import opened FusedEndToEnd
  import opened Configured
  import opened LeadChains
  import opened CpuNodes
  import opened BackendsAgree
  import RuntimeControl
  import Tdl
  import TdlStream

  // ---- The formula -------------------------------------------------------------------------------------

  function Plus(a: Sample, b: Sample): Sample {
    Sample(a.i + b.i, a.q + b.q)
  }

  function Weigh(f: real, v: Sample): Sample {
    Sample(f * v.i, f * v.q)
  }

  /** `v` turned by the angle whose cosine and sine are `r.i` and `r.q`. */
  function Turned(v: Sample, r: Sample): Sample {
    Sample(v.i * r.i - v.q * r.q, v.i * r.q + v.q * r.i)
  }

  /** Sample `n` of a stream, silent before and after it. */
  function Heard(x: seq<Sample>, n: int): Sample {
    if 0 <= n < |x| then x[n] else Sample(0.0, 0.0)
  }

  /** The first `count` terms of a filter around position `pos`: its first coefficient weighs the sample three
      positions ahead. */
  function Filtered(h: seq<real>, x: seq<Sample>, pos: int, count: nat): Sample
    requires count <= |h|
  {
    if count == 0 then Sample(0.0, 0.0)
    else Plus(Filtered(h, x, pos, count - 1), Weigh(h[count - 1], Heard(x, pos + 4 - count)))
  }

  /** The first `k` taps' echoes in sample `n`: each the stream a whole number of samples earlier, filtered
      for the rest of the delay, turned by the tap's phase and weighed by its gain. */
  function Echoes(ph: Physics, taps: seq<RuntimeControl.TapSpec>, x: seq<Sample>, n: int, k: nat): Sample
    requires (forall f :: |ph.sinc(f)| == 8) && k <= |taps|
  {
    if k == 0 then Sample(0.0, 0.0)
    else
      var t := taps[k - 1];
      var whole := t.delay.Floor;
      var v := Filtered(ph.sinc(t.delay - whole as real), x, n - whole, 8);
      Plus(Echoes(ph, taps, x, n, k - 1), Weigh(ph.linear(t.gainDb), Turned(v, ph.tr.rot(t.phaseRad))))
  }

  /** The angle an offset of `cfoHz` sweeps in `n` samples. */
  function Swept(ph: Physics, rate: nat, cfoHz: real, n: nat): real {
    if rate == 0 then 0.0 else n as real * (ph.tr.turn * cfoHz / rate as real)
  }

  /** The other steps, on one sample, when offsets have swept `angle`. */
  function Stepped(ph: Physics, chain: seq<ModelStep>, lossDb: real, angle: real, v: Sample): Sample {
    if chain == [] then v
    else
      match chain[0]
      case PathLossStep(_) => Stepped(ph, chain[1..], lossDb, angle, Weigh(ph.linear(-lossDb), v))
      case TurnStep(phaseRad, _) => Stepped(ph, chain[1..], lossDb, angle, Turned(v, ph.tr.rot(phaseRad + angle)))
      case TdlStep(_) => Stepped(ph, chain[1..], lossDb, angle, v)
  }

  /** A chain's last path loss and last offset, or none. */
  function LossOf(chain: seq<ModelStep>): real {
    if chain == [] then 0.0
    else
      var last := chain[|chain| - 1];
      if last.PathLossStep? then last.lossDb else LossOf(chain[..|chain| - 1])
  }

  function OffsetOf(chain: seq<ModelStep>): real {
    if chain == [] then 0.0
    else
      var last := chain[|chain| - 1];
      if last.TurnStep? then last.cfoHz else OffsetOf(chain[..|chain| - 1])
  }

  /** Sample `n` behind a leading tdl, when `x` is all that has been heard so far. */
  function Lead(ph: Physics, chain: seq<ModelStep>, x: seq<Sample>, n: nat): Sample
    requires forall f :: |ph.sinc(f)| == 8
  {
    if chain != [] && chain[0].TdlStep? then Echoes(ph, chain[0].taps, x, n, |chain[0].taps|) else Heard(x, n)
  }

  /** Sample `n` of the configured channel. */
  function Channel(ph: Physics, rate: nat, chain: seq<ModelStep>, x: seq<Sample>, n: nat): Sample
    requires forall f :: |ph.sinc(f)| == 8
  {
    Stepped(ph, chain, LossOf(chain), Swept(ph, rate, OffsetOf(chain), n), Lead(ph, chain, x, n))
  }

  /** The first `k` links' channels, superposed. */
  function Superposed(ph: Physics, rate: nat, configs: seq<seq<ModelStep>>, xs: seq<seq<Sample>>, n: nat, k: nat): Sample
    requires (forall f :: |ph.sinc(f)| == 8) && k <= |configs| == |xs|
  {
    if k == 0 then Sample(0.0, 0.0)
    else Plus(Superposed(ph, rate, configs, xs, n, k - 1), Channel(ph, rate, configs[k - 1], xs[k - 1], n))
  }

  lemma PlusIs(a: Sample, b: Sample)
    ensures Plus(a, b) == Add(a, b)
  {
  }

  lemma WeighIs(f: real, v: Sample)
    ensures Weigh(f, v) == Scale(v, f)
  {
  }

  lemma TurnedIs(v: Sample, r: Sample)
    ensures Turned(v, r) == Rotate(v, r)
  {
  }

  // ---- One tdl -----------------------------------------------------------------------------------------

  lemma {:induction false} FilterIs(h: seq<real>, x: seq<Sample>, pos: int, i: nat)
    requires i <= |h|
    ensures Tdl.Filter(m => At(x, m), h, pos, i) == Filtered(h, x, pos, i)
  {
    hide Plus, Weigh, Add, Scale;
    if i > 0 {
      FilterIs(h, x, pos, i - 1);
      var v := Heard(x, pos + 4 - i);
      WeighIs(h[i - 1], v);
      PlusIs(Filtered(h, x, pos, i - 1), Weigh(h[i - 1], v));
      assert pos + 4 - i == pos + 3 - (i - 1) && v == At(x, pos + 3 - (i - 1));
    }
  }

  lemma {:induction false} EchoesAre(ph: Physics, specs: seq<RuntimeControl.TapSpec>, x: seq<Sample>, n: int, k: nat)
    requires ph.Valid() && DelaysFit(specs) && k <= |specs|
    ensures ph.TdlOf(specs).Shaped()
    ensures Tdl.Conv(m => At(x, m), ph.TdlOf(specs).taps, ph.TdlOf(specs).poly, n, k) == Echoes(ph, specs, x, n, k)
  {
    hide Tdl.Filter, Filtered, Plus, Weigh, Turned, Add, Scale, Rotate;
    SpecsShaped(ph, specs);
    if k > 0 {
      EchoesAre(ph, specs, x, n, k - 1);
      EchoIs(ph, specs, x, n, k);
    }
  }

  lemma EchoIs(ph: Physics, specs: seq<RuntimeControl.TapSpec>, x: seq<Sample>, n: int, k: nat)
    requires ph.Valid() && 0 < k <= |specs| && ph.TdlOf(specs).Shaped()
    requires Tdl.Conv(m => At(x, m), ph.TdlOf(specs).taps, ph.TdlOf(specs).poly, n, k - 1) == Echoes(ph, specs, x, n, k - 1)
    ensures Tdl.Conv(m => At(x, m), ph.TdlOf(specs).taps, ph.TdlOf(specs).poly, n, k) == Echoes(ph, specs, x, n, k)
  {
    hide Tdl.Filter, Filtered, Plus, Weigh, Turned, Add, Scale, Rotate, Tdl.Conv, At;
    var s, taps, poly := specs[k - 1], ph.TdlOf(specs).taps, ph.TdlOf(specs).poly;
    var h, whole := ph.sinc(s.delay - s.delay.Floor as real), s.delay.Floor;
    assert taps[k - 1] == ph.TapOf(s) && poly[k - 1] == h && taps[k - 1].Whole() == whole;
    ConvLast(m => At(x, m), taps, poly, n, k);
    FilterIs(h, x, n - whole, 8);
    var v := Filtered(h, x, n - whole, 8);
    TurnedIs(v, ph.tr.rot(s.phaseRad));
    WeighIs(ph.linear(s.gainDb), Turned(v, ph.tr.rot(s.phaseRad)));
    PlusIs(Echoes(ph, specs, x, n, k - 1), Weigh(ph.linear(s.gainDb), Turned(v, ph.tr.rot(s.phaseRad))));
  }

  lemma ConvLast(f: Tdl.Signal, taps: seq<Tdl.Tap>, poly: seq<seq<real>>, n: int, k: nat)
    requires Tdl.Shaped(taps, poly) && 0 < k <= |taps|
    ensures var t := taps[k - 1];
      Tdl.Conv(f, taps, poly, n, k) ==
      Add(Tdl.Conv(f, taps, poly, n, k - 1), Scale(Rotate(Tdl.Filter(f, poly[k - 1], n - t.Whole(), Tdl.FILTER), t.rotation), t.gain))
  {
  }

  lemma SpecsShaped(ph: Physics, specs: seq<RuntimeControl.TapSpec>)
    requires ph.Valid() && DelaysFit(specs)
    ensures ph.TdlOf(specs).Shaped()
  {
    assert forall k :: 0 <= k < |specs| ==> ph.TapsOf(specs)[k].delay == specs[k].delay;
  }

  /** A slot over the ring of everything heard before. */
  lemma SlotEchoes(ph: Physics, specs: seq<RuntimeControl.TapSpec>, past: seq<Sample>, x: seq<Sample>, r: nat, i: nat)
    requires ph.Valid() && DelaysFit(specs) && Tdl.Covers(ph.TapsOf(specs), r) && i < |x|
    ensures ph.TdlOf(specs).Shaped()
    ensures Tdl.SlotOut(ph.TdlOf(specs).taps, ph.TdlOf(specs).poly, TdlStream.Tail(past, r), x)[i] ==
            Echoes(ph, specs, past + x, |past| + i, |specs|)
  {
    hide Tdl.Conv, Echoes, Tdl.SlotOut, Tdl.Covers;
    SpecsShaped(ph, specs);
    TdlStream.SlotSample(ph.TdlOf(specs).taps, ph.TdlOf(specs).poly, past, x, r, i);
    EchoesAre(ph, specs, past + x, |past| + i, |specs|);
  }

  // ---- Per-sample steps ----------------------------------------------------------------------------------

  /** One step on a whole stream. */
  lemma StepIs(ph: Physics, rate: nat, step: ModelStep, v: RuntimeControl.LinkVars, x: seq<Sample>, n: nat)
    requires !step.TdlStep? && n < |x|
    ensures WholeStep(ph.tr, Resolve(ph, rate, step, v), x)[n] ==
            if step.PathLossStep? then Weigh(ph.linear(-v.live.pathLossDb), x[n])
            else Turned(x[n], ph.tr.rot(step.phaseRad + Swept(ph, rate, v.live.cfoHz, n)))
  {
    hide Turned, Weigh, Scale, Rotate;
    if step.PathLossStep? {
      WeighIs(ph.linear(-v.live.pathLossDb), x[n]);
    } else {
      SweptIs(ph, rate, v.live.cfoHz, n);
      TurnedIs(x[n], ph.tr.rot(step.phaseRad + Swept(ph, rate, v.live.cfoHz, n)));
    }
  }

  lemma SweptIs(ph: Physics, rate: nat, cfoHz: real, n: nat)
    ensures Swept(ph, rate, cfoHz, n) == Angle(n, ph.Increment(cfoHz, rate))
  {
  }

  lemma {:induction false} SteppedWhole(ph: Physics, rate: nat, chain: seq<ModelStep>, v: RuntimeControl.LinkVars, x: seq<Sample>, n: nat)
    requires NoTdl(chain) && n < |x|
    ensures ShapedChain(ResolveAll(ph, rate, chain, v))
    ensures WholeChain(ph.tr, ResolveAll(ph, rate, chain, v), x)[n] ==
            Stepped(ph, chain, v.live.pathLossDb, Swept(ph, rate, v.live.cfoHz, n), x[n])
  {
    hide Turned, Weigh, Swept, Resolve, WholeStep;
    ResolvedPerSample(ph, rate, chain, v);
    if chain != [] {
      ResolvedTail(ph, rate, chain, v);
      var c := ResolveAll(ph, rate, chain, v);
      StepIs(ph, rate, chain[0], v, x, n);
      SteppedWhole(ph, rate, chain[1..], v, WholeStep(ph.tr, c[0], x), n);
    }
  }

  /** All the parameters a link starts with. */
  lemma FreshNumbers(chain: seq<ModelStep>)
    ensures YamlParams(chain) ==
            if chain != [] && chain[0].TdlStep? && chain[0].taps != [] then
              var t := chain[0].taps[0];
              RuntimeControl.Mutable(LossOf(chain), 60.0, t.losKDb, OffsetOf(chain), t.delay, t.gainDb, t.phaseRad)
            else RuntimeControl.Mutable(LossOf(chain), 60.0, 0.0, OffsetOf(chain), 0.0, 0.0, 0.0)
  {
    ScanIs(chain);
    ScanLeavesTaps(chain);
    ScanLeavesNoise(chain);
  }

  lemma {:induction false} ScanLeavesNoise(chain: seq<ModelStep>)
    ensures Scanned(chain).awgnSnrDb == 60.0
  {
    if chain != [] {
      ScanLeavesNoise(chain[..|chain| - 1]);
    }
  }

  lemma NumbersAre(chain: seq<ModelStep>)
    ensures YamlParams(chain).pathLossDb == LossOf(chain) && YamlParams(chain).cfoHz == OffsetOf(chain)
  {
    ScanIs(chain);
  }

  lemma {:induction false} ScanIs(chain: seq<ModelStep>)
    ensures Scanned(chain).pathLossDb == LossOf(chain) && Scanned(chain).cfoHz == OffsetOf(chain)
  {
    if chain != [] {
      ScanIs(chain[..|chain| - 1]);
    }
  }

  // ---- One edge, slot by slot ------------------------------------------------------------------------------

  /** What steps make of `y` behind `past`. */
  ghost function Carried(tr: Trig, chain: seq<Step>, past: seq<Sample>, y: seq<Sample>): seq<Sample> {
    if ShapedChain(chain) then WholeChain(tr, chain, past + y)[|past|..] else []
  }

  /** A slot after history `past`: per-sample steps carry on behind whatever the tdl makes of it. */
  lemma EdgeSlot(tr: Trig, chain: seq<Step>, sts: seq<StepState>, past: seq<Sample>, x: seq<Sample>)
    requires ShapedChain(chain) && |chain| == |sts| && tr.turn > 0.0 && tr.Periodic() && LeadingOnly(chain) && After(tr, chain, sts, past)
    ensures After(tr, chain, ChainNext(tr, chain, sts, x), past + x)
    ensures ChainOut(tr, chain, sts, x) == Carried(tr, Back(chain), past, Front(chain, sts, x))
  {
    hide *;
    BackIsPerSample(chain);
    AfterBack(tr, chain, sts, past);
    BackContinues(tr, Back(chain), BackStates(chain, sts), past, Front(chain, sts, x));
    CarriedIs(tr, Back(chain), past, Front(chain, sts, x));
    if LeadsWithTaps(chain) {
      LedOut(tr, chain, sts, x);
      LedAfter(tr, chain, sts, ChainNext(tr, chain, sts, x), past, x);
    } else {
      Bare(chain, sts, x);
      BareAfter(tr, chain, ChainNext(tr, chain, sts, x), past + x);
    }
  }

  lemma CarriedIs(tr: Trig, chain: seq<Step>, past: seq<Sample>, y: seq<Sample>)
    requires ShapedChain(chain)
    ensures Carried(tr, chain, past, y) == WholeChain(tr, chain, past + y)[|past|..]
  {
  }

  lemma Bare(chain: seq<Step>, sts: seq<StepState>, x: seq<Sample>)
    requires ShapedChain(chain) && |sts| == |chain| && !LeadsWithTaps(chain)
    ensures Back(chain) == chain && BackStates(chain, sts) == sts && Front(chain, sts, x) == x
  {
  }

  lemma AfterBack(tr: Trig, chain: seq<Step>, sts: seq<StepState>, past: seq<Sample>)
    requires After(tr, chain, sts, past)
    ensures |sts| == |chain| && Advanced(tr, Back(chain), BackStates(chain, sts), |past|)
  {
  }

  lemma BareAfter(tr: Trig, chain: seq<Step>, sts: seq<StepState>, past: seq<Sample>)
    requires !LeadsWithTaps(chain) && |sts| == |chain| && Advanced(tr, chain, sts, |past|)
    ensures After(tr, chain, sts, past)
  {
  }

  lemma LedAfter(tr: Trig, chain: seq<Step>, sts: seq<StepState>, next: seq<StepState>, past: seq<Sample>, x: seq<Sample>)
    requires LeadsWithTaps(chain) && |next| == |chain| && After(tr, chain, sts, past)
    requires |sts| == |chain| > 0 && next[0].line == Tdl.Roll(sts[0].line, x) && Advanced(tr, chain[1..], next[1..], |past| + |x|)
    ensures After(tr, chain, next, past + x)
  {
    hide Advanced, Tdl.Roll, Tdl.RingSize;
    TdlStream.RollIsTail(past, x, |sts[0].line|);
  }

  lemma LedOut(tr: Trig, chain: seq<Step>, sts: seq<StepState>, x: seq<Sample>)
    requires tr.turn > 0.0 && ShapedChain(chain) && LeadsWithTaps(chain) && |sts| == |chain|
    ensures chain != [] && Back(chain) == chain[1..] && BackStates(chain, sts) == sts[1..] && ShapedChain(chain[1..])
    ensures var y, next := Front(chain, sts, x), ChainNext(tr, chain, sts, x);
      && ChainOut(tr, chain, sts, x) == ChainOut(tr, chain[1..], sts[1..], y)
      && next[0].line == Tdl.Roll(sts[0].line, x) && next[1..] == ChainNext(tr, chain[1..], sts[1..], y)
  {
    hide Tdl.SlotOut, Tdl.Roll;
    assert chain[0].Shaped();
  }

  /** What a configured edge sends in a slot, in numbers. */
  lemma EdgeSample(ph: Physics, rate: nat, chain: seq<ModelStep>, sts: seq<StepState>, past: seq<Sample>, x: seq<Sample>, i: nat)
    requires ph.Valid() && ph.tr.Periodic() && SaneChain(chain) && OnlyLeads(chain) && i < |x| && |sts| == |chain|
    requires ShapedChain(LinkChain(ph, rate, chain)) && After(ph.tr, LinkChain(ph, rate, chain), sts, past)
    ensures ChainOut(ph.tr, LinkChain(ph, rate, chain), sts, x)[i] == Channel(ph, rate, chain, past + x, |past| + i)
  {
    hide Trig.Periodic, After, Tdl.SlotOut, WholeChain, ShapedChain, LinkChain, Stepped, Swept, LossOf, OffsetOf, SaneChain, OnlyLeads,
         ChainOut, ChainNext, YamlParams, Front, Lead;
    var c, v, n := LinkChain(ph, rate, chain), Untouched(YamlParams(chain)), |past| + i;
    LeadingLink(ph, rate, chain);
    EdgeSlot(ph.tr, c, sts, past, x);
    BackIsPerSample(c);
    BackIs(ph, rate, chain);
    SteppedWhole(ph, rate, Behind(chain), v, past + Front(c, sts, x), n);
    NumbersAre(chain);
    SkipsLead(ph, chain, LossOf(chain), Swept(ph, rate, OffsetOf(chain), n), Front(c, sts, x)[i]);
    FrontIs(ph, rate, chain, sts, past, x, i);
  }

  /** The steps behind a leading tdl. */
  function Behind(chain: seq<ModelStep>): seq<ModelStep> {
    if Leads(chain) then chain[1..] else chain
  }

  lemma LeadingLink(ph: Physics, rate: nat, chain: seq<ModelStep>)
    requires OnlyLeads(chain)
    ensures LeadingOnly(LinkChain(ph, rate, chain))
  {
  }

  lemma BackIs(ph: Physics, rate: nat, chain: seq<ModelStep>)
    requires OnlyLeads(chain)
    ensures Back(LinkChain(ph, rate, chain)) == ResolveAll(ph, rate, Behind(chain), Untouched(YamlParams(chain))) && NoTdl(Behind(chain))
  {
    hide YamlParams;
    var v := Untouched(YamlParams(chain));
    if Leads(chain) {
      ResolvedTail(ph, rate, chain, v);
    }
    assert LinkChain(ph, rate, chain) == ResolveAll(ph, rate, chain, v);
  }

  lemma SkipsLead(ph: Physics, chain: seq<ModelStep>, lossDb: real, angle: real, v: Sample)
    ensures Stepped(ph, chain, lossDb, angle, v) == Stepped(ph, Behind(chain), lossDb, angle, v)
  {
  }

  lemma FrontIs(ph: Physics, rate: nat, chain: seq<ModelStep>, sts: seq<StepState>, past: seq<Sample>, x: seq<Sample>, i: nat)
    requires ph.Valid() && SaneChain(chain) && i < |x| && |sts| == |chain|
    requires ShapedChain(LinkChain(ph, rate, chain)) && After(ph.tr, LinkChain(ph, rate, chain), sts, past)
    ensures Front(LinkChain(ph, rate, chain), sts, x)[i] == Lead(ph, chain, past + x, |past| + i)
  {
    hide Advanced, Tdl.SlotOut, ShapedChain, Echoes, Tdl.Covers, Tdl.RingSize, YamlParams;
    var c := LinkChain(ph, rate, chain);
    if Leads(chain) {
      FreshUsesOwnTaps(ph, rate, chain, Untouched(YamlParams(chain)));
      assert c[0] == ph.TdlOf(chain[0].taps);
      Covering(ph.TapsOf(chain[0].taps));
      SlotEchoes(ph, chain[0].taps, past, x, |sts[0].line|, i);
    } else if chain != [] {
      assert !c[0].Taps?;
    }
  }

  // ---- A node, serve by serve --------------------------------------------------------------------------------

  /** Every edge has heard its column of the log. */
  lemma {:induction false} EdgesAfter(tr: Trig, node: Node, log: seq<Serve>, k: nat)
    requires tr.Periodic() && tr.turn > 0.0 && node.Shaped() && LogFits(node, log) && k < |node.edges|
    requires node.edges[k] == FreshOf(node.edges[k].chain) && LeadingOnly(node.edges[k].chain)
    ensures After(tr, node.edges[k].chain, NodeAfter(tr, node, log).edges[k].sts, Column(log, k))
    ensures |Column(log, k)| == TotalServed(log)
    decreases |log|
  {
    hide Trig.Periodic, After, ChainOut, ChainNext, Mix, LeadingOnly, ShapedChain, FreshOf;
    var chain := node.edges[k].chain;
    if log == [] {
      FreshIsAfter(tr, chain);
    } else {
      var rest, last := log[..|log| - 1], log[|log| - 1];
      EdgesAfter(tr, node, rest, k);
      assert Aligned(node, last.inputs, last.count);
      EdgeSlot(tr, chain, NodeAfter(tr, node, rest).edges[k].sts, Column(rest, k), last.inputs[k]);
    }
  }

  /** Sample `i` of serve `m` among all that the receiver was handed. */
  lemma {:induction false} SumsAt(tr: Trig, node: Node, log: seq<Serve>, m: nat, i: nat)
    requires tr.turn > 0.0 && node.Shaped() && LogFits(node, log) && m < |log| && i < log[m].count
    ensures TotalServed(log[..m]) + i < |Sums(tr, node, log)| == TotalServed(log)
    ensures Aligned(node, log[m].inputs, log[m].count) && LogFits(node, log[..m])
    ensures Sums(tr, node, log)[TotalServed(log[..m]) + i] ==
            Mix(EdgeOuts(tr, NodeAfter(tr, node, log[..m]), log[m].inputs, log[m].count), log[m].count)[i]
    decreases |log|
  {
    hide Mix, EdgeOuts, NodeNext, Node.Shaped, Aligned;
    var rest, last := log[..|log| - 1], log[|log| - 1];
    SumsLength(tr, node, rest);
    if m < |rest| {
      SumsAt(tr, node, rest, m, i);
      assert rest[..m] == log[..m];
    } else {
      assert log[..m] == rest;
    }
  }

  lemma {:induction false} SumsLength(tr: Trig, node: Node, log: seq<Serve>)
    requires tr.turn > 0.0 && node.Shaped() && LogFits(node, log)
    ensures |Sums(tr, node, log)| == TotalServed(log)
    decreases |log|
  {
    hide Mix, EdgeOuts, NodeNext, Node.Shaped, Aligned;
    if log != [] {
      SumsLength(tr, node, log[..|log| - 1]);
    }
  }

  /** All that each edge has heard by the end of a log. */
  function HeardBy(log: seq<Serve>, n: nat): (xs: seq<seq<Sample>>)
    ensures |xs| == n && forall k :: 0 <= k < n ==> xs[k] == Column(log, k)
  {
    seq(n, k requires 0 <= k < n => Column(log, k))
  }

  /** One serve's superposition. */
  lemma {:induction false} MixIs(ph: Physics, rate: nat, configs: seq<seq<ModelStep>>, ys: seq<seq<Sample>>, count: nat,
                                 xs: seq<seq<Sample>>, i: nat, n: nat, k: nat)
    requires ph.Valid() && |ys| == |configs| == |xs| && k <= |ys| && i < count && forall j :: 0 <= j < |ys| ==> |ys[j]| == count
    requires forall j :: 0 <= j < |ys| ==> ys[j][i] == Channel(ph, rate, configs[j], xs[j], n)
    ensures Mix(ys[..k], count)[i] == Superposed(ph, rate, configs, xs, n, k)
  {
    hide Channel, Add, Plus;
    if k > 0 {
      MixIs(ph, rate, configs, ys, count, xs, i, n, k - 1);
      assert ys[..k][..k - 1] == ys[..k - 1];
      PlusIs(Superposed(ph, rate, configs, xs, n, k - 1), ys[k - 1][i]);
    }
  }

  /** What the receiver is handed, in numbers. */
  lemma SumIs(ph: Physics, rate: nat, configs: seq<seq<ModelStep>>, receiver: seq<ModelStep>, log: seq<Serve>, m: nat, i: nat)
    requires ph.Valid() && ph.tr.Periodic() && ph.tr.turn > 0.0 && Supported(configs, receiver)
    requires CpuPrepared(ph, rate, configs, receiver).Shaped() && LogFits(CpuPrepared(ph, rate, configs, receiver), log)
    requires m < |log| && i < log[m].count
    ensures TotalServed(log[..m]) + i < |Sums(ph.tr, CpuPrepared(ph, rate, configs, receiver), log)|
    ensures Sums(ph.tr, CpuPrepared(ph, rate, configs, receiver), log)[TotalServed(log[..m]) + i] ==
            Superposed(ph, rate, configs, HeardBy(log[..m + 1], |configs|), TotalServed(log[..m]) + i, |configs|)
  {
    hide Trig.Periodic, Channel, Mix, ChainOut, ChainNext, NodeAfter, LinkChain, Sums, After, SaneChain, OnlyLeads, NoTdl, ShapedChain;
    var node, before := CpuPrepared(ph, rate, configs, receiver), log[..m];
    var xs, n := HeardBy(log[..m + 1], |configs|), TotalServed(before) + i;
    SumsAt(ph.tr, node, log, m, i);
    var ys := EdgeOuts(ph.tr, NodeAfter(ph.tr, node, before), log[m].inputs, log[m].count);
    forall k | 0 <= k < |configs| ensures ys[k][i] == Channel(ph, rate, configs[k], xs[k], n) {
      LeadingLink(ph, rate, configs[k]);
      assert node.edges[k] == FreshOf(LinkChain(ph, rate, configs[k])) && node.edges[k].Shaped();
      EdgesAfter(ph.tr, node, before, k);
      assert log[..m + 1][..m] == before && log[..m + 1][m] == log[m];
      assert xs[k] == Column(before, k) + log[m].inputs[k];
      EdgeSample(ph, rate, configs[k], NodeAfter(ph.tr, node, before).edges[k].sts, Column(before, k), log[m].inputs[k], i);
    }
    MixIs(ph, rate, configs, ys, log[m].count, xs, i, n, |configs|);
    assert ys[..|ys|] == ys;
  }

  // ---- What either backend's node sends ------------------------------------------------------------------------

  /** Sample `n` of a node's reply when its edges have heard `xs`, its receiver running with a loss and an
      offset of its own. */
  function Reply(ph: Physics, rate: nat, configs: seq<seq<ModelStep>>, receiver: seq<ModelStep>, lossDb: real, cfoHz: real,
                 xs: seq<seq<Sample>>, n: nat): Sample
    requires (forall f :: |ph.sinc(f)| == 8) && |configs| == |xs|
  {
    Stepped(ph, receiver, lossDb, Swept(ph, rate, cfoHz, n), Superposed(ph, rate, configs, xs, n, |configs|))
  }

  lemma WholeReply(ph: Physics, rate: nat, configs: seq<seq<ModelStep>>, receiver: seq<ModelStep>, v: RuntimeControl.LinkVars,
                   log: seq<Serve>, y: seq<Sample>, m: nat, i: nat)
    requires ph.Valid() && ph.tr.Periodic() && ph.tr.turn > 0.0 && Supported(configs, receiver)
    requires CpuPrepared(ph, rate, configs, receiver).Shaped() && LogFits(CpuPrepared(ph, rate, configs, receiver), log)
    requires ShapedChain(ResolveAll(ph, rate, receiver, v)) && m < |log| && i < log[m].count
    requires y == WholeChain(ph.tr, ResolveAll(ph, rate, receiver, v), Sums(ph.tr, CpuPrepared(ph, rate, configs, receiver), log))
    ensures TotalServed(log[..m]) + i < |y|
    ensures y[TotalServed(log[..m]) + i] ==
            Reply(ph, rate, configs, receiver, v.live.pathLossDb, v.live.cfoHz, HeardBy(log[..m + 1], |configs|), TotalServed(log[..m]) + i)
  {
    hide Trig.Periodic, Sums, WholeChain, Superposed, Stepped, Swept, LogFits, CpuPrepared, ShapedChain, SaneChain, OnlyLeads;
    SumIs(ph, rate, configs, receiver, log, m, i);
    SteppedWhole(ph, rate, receiver, v, Sums(ph.tr, CpuPrepared(ph, rate, configs, receiver), log), TotalServed(log[..m]) + i);
  }

  /** Every sample a freshly prepared CPU node replies, over every log: each edge's channel on all it has
      heard by the end of the serve, superposed, through the receiver. */
  lemma CpuReply(ph: Physics, rate: nat, configs: seq<seq<ModelStep>>, receiver: seq<ModelStep>, b: CpuNode,
                 log: seq<Serve>, cpu: seq<Sample>, m: nat, i: nat)
    requires ph.Valid() && ph.tr.Periodic() && Supported(configs, receiver) && CpuAnswers(ph, rate, configs, receiver, b, log, cpu)
    requires m < |log| && i < log[m].count
    ensures TotalServed(log[..m]) + i < |cpu|
    ensures cpu[TotalServed(log[..m]) + i] ==
            Reply(ph, rate, configs, receiver, LossOf(receiver), OffsetOf(receiver), HeardBy(log[..m + 1], |configs|),
                  TotalServed(log[..m]) + i)
  {
    hide Trig.Periodic, Sums, WholeChain, Replies, LogFits, CpuPrepared, CudaPrepared, CpuAnswers, Supported, Reply, ShapedChain, Kept,
         FreshNode, PerSample, FreshEdge, NoTdl, Node.Shaped;
    SupportedIsKept(configs, receiver);
    CpuAnswersReplies(ph, rate, configs, receiver, b, log, cpu);
    PreparedFresh(ph, rate, configs, receiver);
    FreshShaped(CpuPrepared(ph, rate, configs, receiver));
    PreparedRx(ph, rate, configs, receiver);
    RepliesThroughReceiver(ph.tr, CpuPrepared(ph, rate, configs, receiver), log);
    NumbersAre(receiver);
    WholeReply(ph, rate, configs, receiver, Untouched(YamlParams(receiver)), log, cpu, m, i);
  }

  lemma PreparedRx(ph: Physics, rate: nat, configs: seq<seq<ModelStep>>, receiver: seq<ModelStep>)
    requires Supported(configs, receiver)
    ensures PerSample(LinkChain(ph, rate, receiver)) && CpuPrepared(ph, rate, configs, receiver).rx.chain == LinkChain(ph, rate, receiver)
    ensures LinkChain(ph, rate, receiver) == ResolveAll(ph, rate, receiver, Untouched(YamlParams(receiver)))
    ensures BareChain(ph, rate, receiver) == ResolveAll(ph, rate, receiver, Untouched(RuntimeControl.DEFAULTS))
  {
    hide YamlParams;
    ReceiversPerSample(ph, rate, receiver);
  }

  /** Every sample a freshly prepared CUDA node replies: the same, but for a receiver that runs without
      loss and without offset. */
  lemma CudaReply(ph: Physics, rate: nat, configs: seq<seq<ModelStep>>, receiver: seq<ModelStep>, log: seq<Serve>,
                  cuda: seq<Sample>, m: nat, i: nat)
    requires CudaAnswers(ph, rate, configs, receiver, log, cuda) && m < |log| && i < log[m].count
    ensures ph.Valid() && TotalServed(log[..m]) + i < |cuda|
    ensures cuda[TotalServed(log[..m]) + i] ==
            Reply(ph, rate, configs, receiver, 0.0, 0.0, HeardBy(log[..m + 1], |configs|), TotalServed(log[..m]) + i)
  {
    hide Trig.Periodic, Sums, WholeChain, Replies, LogFits, CpuPrepared, CudaPrepared, CudaAnswers, Supported, Reply, ShapedChain, Kept,
         FreshNode, FreshEdge, NoTdl, Node.Shaped;
    AnswerFacts(ph, rate, configs, receiver, log, cuda);
    CudaLogFits(ph, rate, configs, receiver, log, cuda);
    CudaAnswersReplies(ph, rate, configs, receiver, log, cuda);
    var x := BothThroughReceivers(ph, rate, configs, receiver, log);
    FreshShaped(CpuPrepared(ph, rate, configs, receiver));
    PreparedRx(ph, rate, configs, receiver);
    WholeReply(ph, rate, configs, receiver, Untouched(RuntimeControl.DEFAULTS), log, cuda, m, i);
  }

  /** A log the CUDA node answers fits its edges. */
  lemma CudaLogFits(ph: Physics, rate: nat, configs: seq<seq<ModelStep>>, receiver: seq<ModelStep>, log: seq<Serve>, cuda: seq<Sample>)
    requires CudaAnswers(ph, rate, configs, receiver, log, cuda)
    ensures LogFits(CudaPrepared(ph, rate, configs, receiver), log)
  {
    hide Trig.Periodic, RunsOnDevice, CudaRuns, SharedThroughout, Node.Shaped, GpuNode.Shaped, CudaPrepared;
    AnswerFacts(ph, rate, configs, receiver, log, cuda);
    var node := CudaPrepared(ph, rate, configs, receiver);
    var src, firstEdge, g' :| SourcesMapped(configs, src, firstEdge) && AnswersWith(ph.tr, node, src, firstEdge, log, g', cuda);
    var g := Prepared(node, src, firstEdge);
    CudaRunIsFused(ph.tr, g, log, g', cuda);
    forall k | 0 <= k < |log| ensures Aligned(node, log[k].inputs, log[k].count) {
      assert Fitting(g, log[k].inputs, log[k].count);
    }
  }

  /** One oscillator, at a real sample rate: on either backend, sample `n` of the replies is sample `n` of the
      stream turned forward by the configured phase and `n` samples' worth of the offset, however the stream
      was cut. */
  lemma OneOscillator(ph: Physics, rate: nat, phaseRad: real, cfoHz: real, b: CpuNode, log: seq<Serve>,
                      cpu: seq<Sample>, cuda: seq<Sample>, m: nat, i: nat, n: nat)
    requires CpuAnswers(ph, rate, [[TurnStep(phaseRad, cfoHz)]], [], b, log, cpu)
    requires CudaAnswers(ph, rate, [[TurnStep(phaseRad, cfoHz)]], [], log, cuda)
    requires rate > 0 && m < |log| && i < log[m].count && n == TotalServed(log[..m]) + i
    ensures |log[m].inputs| == 1 && |log[m].inputs[0]| == log[m].count
    ensures var x := log[m].inputs[0][i];
      var r := ph.tr.rot(phaseRad + n as real * (ph.tr.turn * cfoHz / rate as real));
      && n < |cpu| && n < |cuda| && cpu[n] == Turned(x, r) && cuda[n] == Turned(x, r)
  {
    hide Turned, TotalServed, CpuAnswers, CudaAnswers, CpuPrepared, CudaPrepared, Trig.Periodic, Reply, Channel, Supported, LogFits;
    var chain := [TurnStep(phaseRad, cfoHz)];
    AnswerFacts(ph, rate, [chain], [], log, cuda);
    CudaLogFits(ph, rate, [chain], [], log, cuda);
    FitsOne(ph, rate, chain, log, m);
    CpuReply(ph, rate, [chain], [], b, log, cpu, m, i);
    CudaReply(ph, rate, [chain], [], log, cuda, m, i);
    OneIs(ph, rate, chain, log, m, i);
    var xs := HeardBy(log[..m + 1], 1);
    OscillatorIs(ph, rate, phaseRad, cfoHz, xs[0], n);
    assert |[chain]| == 1;
    assert cpu[n] == Channel(ph, rate, chain, xs[0], n);
    assert cuda[n] == Channel(ph, rate, chain, xs[0], n);
  }

  lemma FitsOne(ph: Physics, rate: nat, chain: seq<ModelStep>, log: seq<Serve>, m: nat)
    requires LogFits(CudaPrepared(ph, rate, [chain], []), log) && m < |log|
    ensures |log[m].inputs| == 1 && |log[m].inputs[0]| == log[m].count
    ensures |Column(log[..m], 0)| == TotalServed(log[..m])
  {
    hide LinkChain, BareChain;
    var node := CudaPrepared(ph, rate, [chain], []);
    assert Aligned(node, log[m].inputs, log[m].count);
    ColumnsAligned(node, log[..m]);
    assert Columns(node, log[..m])[0] == Column(log[..m], 0);
  }

  /** A node with one link and no receiver. */
  lemma OneIs(ph: Physics, rate: nat, chain: seq<ModelStep>, log: seq<Serve>, m: nat, i: nat)
    requires ph.Valid() && m < |log| && |log[m].inputs| == 1 && |log[m].inputs[0]| == log[m].count && i < log[m].count
    requires |Column(log[..m], 0)| == TotalServed(log[..m])
    ensures var n, xs := TotalServed(log[..m]) + i, HeardBy(log[..m + 1], 1);
      && Reply(ph, rate, [chain], [], LossOf([]), OffsetOf([]), xs, n) == Reply(ph, rate, [chain], [], 0.0, 0.0, xs, n)
      && Reply(ph, rate, [chain], [], 0.0, 0.0, xs, n) == Channel(ph, rate, chain, xs[0], n)
      && n < |xs[0]| && xs[0][n] == log[m].inputs[0][i] && xs[0] == Column(log[..m], 0) + log[m].inputs[0]
  {
    hide Channel;
    var n, xs := TotalServed(log[..m]) + i, HeardBy(log[..m + 1], 1);
    assert log[..m + 1][..m] == log[..m] && log[..m + 1][m] == log[m];
    OneSuperposed(ph, rate, chain, xs, n);
  }

  lemma OneSuperposed(ph: Physics, rate: nat, chain: seq<ModelStep>, xs: seq<seq<Sample>>, n: nat)
    requires ph.Valid() && |xs| == 1
    ensures Superposed(ph, rate, [chain], xs, n, 1) == Channel(ph, rate, chain, xs[0], n)
  {
    hide Channel;
    assert Superposed(ph, rate, [chain], xs, n, 0) == Sample(0.0, 0.0);
  }

  lemma OscillatorIs(ph: Physics, rate: nat, phaseRad: real, cfoHz: real, x: seq<Sample>, n: nat)
    requires ph.Valid() && n < |x| && rate > 0
    ensures var r := ph.tr.rot(phaseRad + n as real * (ph.tr.turn * cfoHz / rate as real));
      Channel(ph, rate, [TurnStep(phaseRad, cfoHz)], x, n) == Turned(x[n], r)
  {
    hide Turned, Swept, OffsetOf, LossOf, Echoes;
    var chain := [TurnStep(phaseRad, cfoHz)];
    LoneOffset(phaseRad, cfoHz);
    SweptAt(ph, rate, cfoHz, n);
    assert chain[1..] == [] && Lead(ph, chain, x, n) == x[n];
    assert Stepped(ph, [], LossOf(chain), Swept(ph, rate, cfoHz, n), Turned(x[n], ph.tr.rot(phaseRad + Swept(ph, rate, cfoHz, n)))) ==
           Turned(x[n], ph.tr.rot(phaseRad + Swept(ph, rate, cfoHz, n)));
  }

  lemma LoneOffset(phaseRad: real, cfoHz: real)
    ensures OffsetOf([TurnStep(phaseRad, cfoHz)]) == cfoHz
  {
  }

  lemma SweptAt(ph: Physics, rate: nat, cfoHz: real, n: nat)
    requires rate > 0
    ensures Swept(ph, rate, cfoHz, n) == n as real * (ph.tr.turn * cfoHz / rate as real)
  {
  }
}

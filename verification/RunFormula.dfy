/**
 The channel in numbers while a control thread writes (src/cpu_backend.cpp:191-229, 272-330;
 src/cuda_backend.cu:656-811, 985-1010): whatever losses and offsets are in force slot by slot, oscillators
 carry on from the angle they have reached.
 */
module RunFormula {
  import opened Iq
  import opened Phase
  import opened Chain
  import opened RuntimeControl
  import opened CpuLinks
  import opened Fused
  import opened Receiver
  import opened LeadChains
  import EndToEnd
  import DeviceSwap
  import Tdl
  import TdlStream
  import opened ControlledRun
  import opened ChannelFormula

  // ---- One slot ----------------------------------------------------------------------------------------------

  /** Every oscillator stands at `angle`, up to whole turns. */
  ghost predicate Standing(tr: Trig, chain: seq<ModelStep>, phases: seq<real>, angle: real) {
    |phases| == |chain| && forall k :: 0 <= k < |chain| && chain[k].TurnStep? ==> tr.Congruent(phases[k], angle)
  }

  function PhasesOf(sts: seq<StepState>): (p: seq<real>)
    ensures |p| == |sts| && forall k :: 0 <= k < |p| ==> p[k] == sts[k].phase
  {
    seq(|sts|, k requires 0 <= k < |sts| => sts[k].phase)
  }

  lemma StandingTail(tr: Trig, chain: seq<ModelStep>, phases: seq<real>, angle: real)
    requires Standing(tr, chain, phases, angle) && chain != []
    ensures Standing(tr, chain[1..], phases[1..], angle) && (chain[0].TurnStep? ==> tr.Congruent(phases[0], angle))
  {
    hide Trig.Congruent;
    forall k | 0 <= k < |chain| - 1 && chain[1..][k].TurnStep? ensures tr.Congruent(phases[1..][k], angle) {
      assert chain[k + 1].TurnStep?;
    }
  }

  lemma StandingJoin(tr: Trig, chain: seq<ModelStep>, phases: seq<real>, angle: real)
    requires chain != [] && |phases| == |chain| && Standing(tr, chain[1..], phases[1..], angle)
    requires chain[0].TurnStep? ==> tr.Congruent(phases[0], angle)
    ensures Standing(tr, chain, phases, angle)
  {
    hide Trig.Congruent;
    forall k | 0 <= k < |chain| && chain[k].TurnStep? ensures tr.Congruent(phases[k], angle) {
      assert k > 0 ==> chain[k] == chain[1..][k - 1] && phases[k] == phases[1..][k - 1];
    }
  }

  /** An oscillator that stands at `angle`, `i` samples on. */
  lemma Reached(ph: Physics, rate: nat, cfoHz: real, phase: real, angle: real, i: nat)
    requires ph.tr.turn > 0.0 && ph.tr.Congruent(phase, angle)
    ensures ph.tr.Congruent(PhaseAt(ph.tr, phase, ph.Increment(cfoHz, rate), i), angle + Swept(ph, rate, cfoHz, i))
    ensures ph.tr.Congruent(phase + Angle(i, ph.Increment(cfoHz, rate)), angle + Swept(ph, rate, cfoHz, i))
  {
    var inc := ph.Increment(cfoHz, rate);
    SweptIs(ph, rate, cfoHz, i);
    hide Trig.Congruent, Angle, PhaseAt, Swept, Physics.Increment;
    AccumulatedIsClosedForm(ph.tr, phase, inc, i);
    Shifted(ph.tr, phase, angle, Angle(i, inc));
    Transitive(ph.tr, PhaseAt(ph.tr, phase, inc, i), phase + Angle(i, inc), angle + Angle(i, inc));
  }

  lemma SameTurn(tr: Trig, fixed: real, a: real, b: real)
    requires tr.Periodic() && tr.Congruent(a, b)
    ensures tr.rot(fixed + a) == tr.rot(fixed + b)
  {
    Shifted(tr, a, b, fixed);
  }

  /** One step of the CPU backend on one sample of a slot. */
  lemma CpuStep(ph: Physics, rate: nat, step: ModelStep, v: LinkVars, st: StepState, angle: real, x: seq<Sample>, i: nat)
    requires ph.tr.Periodic() && ph.tr.turn > 0.0 && !step.TdlStep? && (step.TurnStep? ==> ph.tr.Congruent(st.phase, angle))
    ensures i < |x| ==>
            StepOut(ph.tr, Resolve(ph, rate, step, v), st, x)[i] ==
            if step.PathLossStep? then Weigh(ph.linear(-v.live.pathLossDb), x[i])
            else Turned(x[i], ph.tr.rot(step.phaseRad + (angle + Swept(ph, rate, v.live.cfoHz, i))))
    ensures step.TurnStep? ==>
              ph.tr.Congruent(StepNext(ph.tr, Resolve(ph, rate, step, v), st, x).phase, angle + Swept(ph, rate, v.live.cfoHz, |x|))
  {
    hide Turned, Weigh, Scale, Rotate, Trig.Periodic, Trig.Congruent, PhaseAt, Swept, Physics.Increment;
    if step.TurnStep? {
      Reached(ph, rate, v.live.cfoHz, st.phase, angle, |x|);
    }
    if i < |x| {
      if step.PathLossStep? {
        WeighIs(ph.linear(-v.live.pathLossDb), x[i]);
      } else {
        Reached(ph, rate, v.live.cfoHz, st.phase, angle, i);
        SameTurn(ph.tr, step.phaseRad, PhaseAt(ph.tr, st.phase, ph.Increment(v.live.cfoHz, rate), i),
                 angle + Swept(ph, rate, v.live.cfoHz, i));
        TurnedIs(x[i], ph.tr.rot(step.phaseRad + (angle + Swept(ph, rate, v.live.cfoHz, i))));
      }
    }
  }

  /** A slot of per-sample steps on the CPU backend. */
  lemma {:induction false} CpuSteps(ph: Physics, rate: nat, chain: seq<ModelStep>, v: LinkVars, sts: seq<StepState>, angle: real,
                                    x: seq<Sample>, i: nat)
    requires ph.tr.Periodic() && ph.tr.turn > 0.0 && NoTdl(chain) && |sts| == |chain|
    requires Standing(ph.tr, chain, PhasesOf(sts), angle)
    ensures ShapedChain(ResolveAll(ph, rate, chain, v))
    ensures i < |x| ==>
            ChainOut(ph.tr, ResolveAll(ph, rate, chain, v), sts, x)[i] ==
            Stepped(ph, chain, v.live.pathLossDb, angle + Swept(ph, rate, v.live.cfoHz, i), x[i])
    ensures Standing(ph.tr, chain, PhasesOf(ChainNext(ph.tr, ResolveAll(ph, rate, chain, v), sts, x)),
                     angle + Swept(ph, rate, v.live.cfoHz, |x|))
  {
    hide Turned, Weigh, Swept, Resolve, StepOut, StepNext, Trig.Periodic, Standing;
    ResolvedPerSample(ph, rate, chain, v);
    var c := ResolveAll(ph, rate, chain, v);
    if chain == [] {
      NothingStands(ph.tr, angle + Swept(ph, rate, v.live.cfoHz, |x|));
    } else {
      ResolvedTail(ph, rate, chain, v);
      StandingTail(ph.tr, chain, PhasesOf(sts), angle);
      assert PhasesOf(sts)[1..] == PhasesOf(sts[1..]);
      CpuStep(ph, rate, chain[0], v, sts[0], angle, x, i);
      CpuSteps(ph, rate, chain[1..], v, sts[1..], angle, StepOut(ph.tr, c[0], sts[0], x), i);
      var next := ChainNext(ph.tr, c, sts, x);
      assert PhasesOf(next)[1..] == PhasesOf(next[1..]) && next[1..] == ChainNext(ph.tr, c[1..], sts[1..], StepOut(ph.tr, c[0], sts[0], x));
      StandingJoin(ph.tr, chain, PhasesOf(next), angle + Swept(ph, rate, v.live.cfoHz, |x|));
    }
  }

  lemma NothingStands(tr: Trig, angle: real)
    ensures Standing(tr, [], PhasesOf([]), angle) && Standing(tr, [], [], angle)
  {
  }

  /** One entry of the CUDA backend's table. */
  lemma TableStep(ph: Physics, rate: nat, step: ModelStep, v: LinkVars, phase: real, angle: real, i: nat, x: Sample)
    requires ph.tr.Periodic() && ph.tr.turn > 0.0 && (step.TurnStep? ==> ph.tr.Congruent(phase, angle))
    ensures ApplyStep(ph.tr, BuildStep(Resolve(ph, rate, step, v), phase), i, x) ==
            match step
            case PathLossStep(_) => Weigh(ph.linear(-v.live.pathLossDb), x)
            case TurnStep(phaseRad, _) => Turned(x, ph.tr.rot(phaseRad + (angle + Swept(ph, rate, v.live.cfoHz, i))))
            case TdlStep(_) => x
  {
    hide Turned, Weigh, Scale, Rotate, Trig.Periodic, Trig.Congruent, Swept, Physics.Increment, Angle;
    match step
    case PathLossStep(_) =>
      WeighIs(ph.linear(-v.live.pathLossDb), x);
    case TurnStep(phaseRad, _) =>
      var inc := ph.Increment(v.live.cfoHz, rate);
      Reached(ph, rate, v.live.cfoHz, phase, angle, i);
      SameTurn(ph.tr, phaseRad, phase + Angle(i, inc), angle + Swept(ph, rate, v.live.cfoHz, i));
      assert phaseRad + phase + Angle(i, inc) == phaseRad + (phase + Angle(i, inc));
      TurnedIs(x, ph.tr.rot(phaseRad + (angle + Swept(ph, rate, v.live.cfoHz, i))));
    case TdlStep(_) =>
      UnitScales(x);
  }

  lemma UnitScales(x: Sample)
    ensures Scale(x, 1.0) == x
  {
  }

  /** A slot's table on the CUDA backend. */
  lemma {:induction false} TableSteps(ph: Physics, rate: nat, chain: seq<ModelStep>, v: LinkVars, phases: seq<real>, angle: real,
                                      i: nat, x: Sample)
    requires ph.tr.Periodic() && ph.tr.turn > 0.0 && Standing(ph.tr, chain, phases, angle)
    ensures |ResolveAll(ph, rate, chain, v)| == |phases|
    ensures ApplySteps(ph.tr, BuildTable(ResolveAll(ph, rate, chain, v), phases), i, x) ==
            Stepped(ph, chain, v.live.pathLossDb, angle + Swept(ph, rate, v.live.cfoHz, i), x)
  {
    hide Turned, Weigh, Swept, Resolve, ApplyStep, BuildStep, Trig.Periodic;
    if chain != [] {
      var c := ResolveAll(ph, rate, chain, v);
      ResolvedTail(ph, rate, chain, v);
      StandingTail(ph.tr, chain, phases, angle);
      TableStep(ph, rate, chain[0], v, phases[0], angle, i, x);
      var g := BuildTable(c, phases);
      assert g[0] == BuildStep(Resolve(ph, rate, chain[0], v), phases[0]) && g[1..] == BuildTable(c[1..], phases[1..]);
      TableSteps(ph, rate, chain[1..], v, phases[1..], angle, i, ApplyStep(ph.tr, g[0], i, x));
    }
  }

  lemma PhasesReach(ph: Physics, rate: nat, chain: seq<ModelStep>, v: LinkVars, phases: seq<real>, angle: real, n: nat)
    requires ph.tr.turn > 0.0 && Standing(ph.tr, chain, phases, angle)
    ensures |ResolveAll(ph, rate, chain, v)| == |phases|
    ensures Standing(ph.tr, chain, NextPhases(ph.tr, ResolveAll(ph, rate, chain, v), phases, n), angle + Swept(ph, rate, v.live.cfoHz, n))
  {
    hide Swept, Trig.Congruent, Physics.Increment, Angle, Fmod;
    var c := ResolveAll(ph, rate, chain, v);
    forall k | 0 <= k < |chain| && chain[k].TurnStep?
      ensures ph.tr.Congruent(NextPhases(ph.tr, c, phases, n)[k], angle + Swept(ph, rate, v.live.cfoHz, n))
    {
      var p := phases[k] + Angle(n, ph.Increment(v.live.cfoHz, rate));
      Reached(ph, rate, v.live.cfoHz, phases[k], angle, n);
      FmodCongruent(ph.tr, p);
      Transitive(ph.tr, Fmod(p, ph.tr.turn), p, angle + Swept(ph, rate, v.live.cfoHz, n));
    }
  }

  lemma BareSlot(ph: Physics, rate: nat, chain: seq<ModelStep>, v: LinkVars, sts: seq<StepState>, x: seq<Sample>, angle: real, i: nat)
    requires ph.tr.Periodic() && ph.tr.turn > 0.0 && OnlyLeads(chain) && !Leads(chain) && |sts| == |chain|
    requires ShapedChain(ResolveAll(ph, rate, chain, v)) && Standing(ph.tr, chain, PhasesOf(sts), angle)
    ensures var c := ResolveAll(ph, rate, chain, v);
      && (i < |x| ==>
            ChainOut(ph.tr, c, sts, x)[i] ==
            Stepped(ph, chain, v.live.pathLossDb, angle + Swept(ph, rate, v.live.cfoHz, i), Front(c, sts, x)[i]))
      && Standing(ph.tr, chain, PhasesOf(ChainNext(ph.tr, c, sts, x)), angle + Swept(ph, rate, v.live.cfoHz, |x|))
  {
    hide *;
    BackResolved(ph, rate, chain, v);
    NotLed(chain);
    Bare(ResolveAll(ph, rate, chain, v), sts, x);
    CpuSteps(ph, rate, chain, v, sts, angle, x, i);
  }

  lemma NotLed(chain: seq<ModelStep>)
    requires !Leads(chain)
    ensures Behind(chain) == chain
  {
  }

  lemma LedSlot(ph: Physics, rate: nat, chain: seq<ModelStep>, v: LinkVars, sts: seq<StepState>, x: seq<Sample>, angle: real, i: nat)
    requires ph.tr.Periodic() && ph.tr.turn > 0.0 && OnlyLeads(chain) && Leads(chain) && |sts| == |chain|
    requires ShapedChain(ResolveAll(ph, rate, chain, v)) && Standing(ph.tr, chain, PhasesOf(sts), angle)
    ensures var c := ResolveAll(ph, rate, chain, v);
      && (i < |x| ==>
            ChainOut(ph.tr, c, sts, x)[i] ==
            Stepped(ph, chain, v.live.pathLossDb, angle + Swept(ph, rate, v.live.cfoHz, i), Front(c, sts, x)[i]))
      && Standing(ph.tr, chain, PhasesOf(ChainNext(ph.tr, c, sts, x)), angle + Swept(ph, rate, v.live.cfoHz, |x|))
  {
    hide *;
    var c := ResolveAll(ph, rate, chain, v);
    BackResolved(ph, rate, chain, v);
    Led(chain);
    LedOut(ph.tr, c, sts, x);
    StandingTail(ph.tr, chain, PhasesOf(sts), angle);
    assert PhasesOf(sts)[1..] == PhasesOf(sts[1..]);
    CpuSteps(ph, rate, chain[1..], v, sts[1..], angle, Front(c, sts, x), i);
    var next := ChainNext(ph.tr, c, sts, x);
    assert PhasesOf(next)[1..] == PhasesOf(next[1..]);
    StandingJoin(ph.tr, chain, PhasesOf(next), angle + Swept(ph, rate, v.live.cfoHz, |x|));
    if i < |x| {
      SkipsLead(ph, chain, v.live.pathLossDb, angle + Swept(ph, rate, v.live.cfoHz, i), Front(c, sts, x)[i]);
    }
  }

  lemma Led(chain: seq<ModelStep>)
    requires Leads(chain)
    ensures chain != [] && chain[0].TdlStep? && Behind(chain) == chain[1..]
  {
  }

  /** Between slots the CUDA backend keeps its oscillators within a turn. */
  lemma PhasesReduced(tr: Trig, chain: seq<Step>, phases: seq<real>, n: nat, k: nat)
    requires tr.turn > 0.0 && |phases| == |chain| && k < |chain| && chain[k].Turn?
    ensures -tr.turn < NextPhases(tr, chain, phases, n)[k] < tr.turn
  {
    FmodRange(phases[k] + Angle(n, chain[k].increment), tr.turn);
  }

  /** A slot of a link on the CPU backend, its oscillators standing at `angle` when it starts. */
  lemma CpuSlot(ph: Physics, rate: nat, chain: seq<ModelStep>, l: LinkValue, c: View, x: seq<Sample>, angle: real, i: nat,
                now: Edge, next: LinkValue)
    requires now.Shaped() && ph.tr.turn > 0.0 && SaneLink(ph, chain, l, c)
    requires now == EdgeNow(ph, rate, chain, l, c, |x|) && next == LinkAfter(ph, rate, chain, l, c, x)
    requires ph.tr.Periodic() && OnlyLeads(chain) && Standing(ph.tr, chain, PhasesOf(l.sts), angle)
    ensures i < |x| ==>
              ChainOut(ph.tr, now.chain, now.sts, x)[i] ==
              Stepped(ph, chain, next.vars.live.pathLossDb, angle + Swept(ph, rate, next.vars.live.cfoHz, i),
                      Front(now.chain, now.sts, x)[i])
    ensures Standing(ph.tr, chain, PhasesOf(next.sts), angle + Swept(ph, rate, next.vars.live.cfoHz, |x|))
  {
    hide *;
    SlotPieces(ph, rate, chain, l, c, x);
    var b := Begun(chain, l, c, |x|);
    BegunPhases(chain, l, c, |x|);
    assert PhasesOf(b.sts) == PhasesOf(l.sts);
    if Leads(chain) {
      LedSlot(ph, rate, chain, b.vars, b.sts, x, angle, i);
    } else {
      BareSlot(ph, rate, chain, b.vars, b.sts, x, angle, i);
    }
  }

  lemma SlotPieces(ph: Physics, rate: nat, chain: seq<ModelStep>, l: LinkValue, c: View, x: seq<Sample>)
    requires SaneLink(ph, chain, l, c)
    ensures ph.tr.turn > 0.0 && |l.sts| == |chain| == |Begun(chain, l, c, |x|).sts|
    ensures var now, b := EdgeNow(ph, rate, chain, l, c, |x|), Begun(chain, l, c, |x|);
      && now == Edge(ResolveAll(ph, rate, chain, b.vars), b.sts) && ShapedChain(now.chain)
      && LinkAfter(ph, rate, chain, l, c, x) == LinkValue(b.vars, ChainNext(ph.tr, now.chain, now.sts, x))
  {
    hide Begun, ChainNext, ResolveAll;
  }

  lemma BackResolved(ph: Physics, rate: nat, chain: seq<ModelStep>, v: LinkVars)
    requires OnlyLeads(chain)
    ensures NoTdl(Behind(chain)) && (LeadsWithTaps(ResolveAll(ph, rate, chain, v)) <==> Leads(chain))
    ensures Back(ResolveAll(ph, rate, chain, v)) == ResolveAll(ph, rate, Behind(chain), v)
  {
    if Leads(chain) {
      ResolvedTail(ph, rate, chain, v);
    }
  }

  /** ... and on the CUDA backend. */
  lemma CudaSlot(ph: Physics, rate: nat, chain: seq<ModelStep>, e: CudaLink, c: View, x: seq<Sample>, angle: real, i: nat)
    requires ph.tr.Periodic() && Usable(ph, chain, e) && SaneView(c) && Standing(ph.tr, chain, e.phases, angle)
    ensures Usable(ph, chain, CudaBegun(ph, chain, e, c, |x|))
    ensures var b, next := CudaBegun(ph, chain, e, c, |x|), CudaAfter(ph, rate, chain, e, c, x);
      && (i < |x| ==>
            CudaOut(ph, rate, chain, e, c, x)[i] ==
            Stepped(ph, chain, next.vars.live.pathLossDb, angle + Swept(ph, rate, next.vars.live.cfoHz, i), Staged(b.dev, x)[i]))
      && Standing(ph.tr, chain, next.phases, angle + Swept(ph, rate, next.vars.live.cfoHz, |x|))
  {
    hide CudaBegun, Trig.Periodic, Standing, ApplySteps, BuildTable, NextPhases, Stepped, Swept, Usable, Staged, ResolveAll, NextDevLink;
    EndToEnd.Turning(ph.tr);
    BegunUsable(ph, chain, e, c, |x|);
    var b := CudaBegun(ph, chain, e, c, |x|);
    SamePhases(ph, chain, e, c, |x|);
    PhasesReach(ph, rate, chain, Untouched(b.vars.live), b.phases, angle, |x|);
    if i < |x| {
      TableSteps(ph, rate, chain, Untouched(b.vars.live), b.phases, angle, i, Staged(b.dev, x)[i]);
    }
  }

  lemma SamePhases(ph: Physics, chain: seq<ModelStep>, e: CudaLink, c: View, n: nat)
    requires Usable(ph, chain, e)
    ensures CudaBegun(ph, chain, e, c, n).phases == e.phases && |e.phases| == |chain|
  {
  }

  // ---- The tdl in force --------------------------------------------------------------------------------------

  /** The taps a leading tdl runs in a slot: the profile's once one is active, until then its own with the first
      tap's delay, gain and phase as last written. */
  function InForce(taps: seq<TapSpec>, v: LinkVars): seq<TapSpec> {
    if v.active then v.profile.taps
    else if taps == [] then []
    else taps[0 := taps[0].(delay := v.live.tap0Delay, gainDb := v.live.tap0GainDb, phaseRad := v.live.tap0PhaseRad)]
  }

  /** The Rician numbers of a tap play no part in its echo. */
  lemma {:induction false} SameEchoes(ph: Physics, a: seq<TapSpec>, b: seq<TapSpec>, x: seq<Sample>, n: int, k: nat)
    requires ph.Valid() && k <= |a| == |b|
    requires forall j :: 0 <= j < |a| ==> a[j].delay == b[j].delay && a[j].gainDb == b[j].gainDb && a[j].phaseRad == b[j].phaseRad
    ensures Echoes(ph, a, x, n, k) == Echoes(ph, b, x, n, k)
  {
    hide Filtered, Plus, Weigh, Turned;
    if k > 0 {
      SameEchoes(ph, a, b, x, n, k - 1);
    }
  }

  /** A slot over any ring is the stream that the ring and the slot make up. */
  lemma RingEchoes(ph: Physics, specs: seq<TapSpec>, line: seq<Sample>, x: seq<Sample>, i: nat)
    requires ph.Valid() && DelaysFit(specs) && i < |x|
    ensures ph.TdlOf(specs).Shaped()
    ensures Tdl.SlotOut(ph.TdlOf(specs).taps, ph.TdlOf(specs).poly, line, x)[i] == Echoes(ph, specs, line + x, |line| + i, |specs|)
  {
    hide Tdl.Conv, Echoes, Tdl.Polyphase;
    SpecsShaped(ph, specs);
    EchoesAre(ph, specs, line + x, |line| + i, |specs|);
    var taps, poly := ph.TdlOf(specs).taps, ph.TdlOf(specs).poly;
    var f: Tdl.Signal, g: Tdl.Signal := m => Tdl.Read(line, x, m), m => At(line + x, m);
    forall j, c | 0 <= j < |taps| && 0 <= c < Tdl.FILTER
      ensures poly[j][c] == 0.0 || f(i - taps[j].Whole() + 3 - c) == g(|line| + i - taps[j].Whole() + 3 - c)
    {
      ReadIsOne(line, x, i - taps[j].Whole() + 3 - c);
    }
    TdlStream.ConvAgrees(f, g, taps, poly, i, |line| + i, |taps|);
  }

  lemma ReadIsOne(line: seq<Sample>, x: seq<Sample>, idx: int)
    ensures Tdl.Read(line, x, idx) == At(line + x, |line| + idx)
  {
  }

  /** What a leading tdl makes of a slot. */
  lemma FrontNow(ph: Physics, rate: nat, chain: seq<ModelStep>, l: LinkValue, c: View, x: seq<Sample>, i: nat)
    requires SaneLink(ph, chain, l, c) && Leads(chain) && i < |x|
    ensures var now, taps := EdgeNow(ph, rate, chain, l, c, |x|), InForce(chain[0].taps, LinkAfter(ph, rate, chain, l, c, x).vars);
      && |now.sts| > 0
      && Front(now.chain, now.sts, x)[i] == Echoes(ph, taps, now.sts[0].line + x, |now.sts[0].line| + i, |taps|)
  {
    hide Begun, ChainNext, Tdl.SlotOut, Echoes;
    var now, b := EdgeNow(ph, rate, chain, l, c, |x|), Begun(chain, l, c, |x|);
    BegunSane(ph, chain, l, c, |x|);
    var specs, taps := Effective(chain[0].taps, b.vars), InForce(chain[0].taps, b.vars);
    RingEchoes(ph, specs, now.sts[0].line, x, i);
    SameEchoes(ph, specs, taps, now.sts[0].line + x, |now.sts[0].line| + i, |taps|);
    assert now.chain[0] == ph.TdlOf(specs);
  }

  // ---- A run ---------------------------------------------------------------------------------------------------

  /** The parameters link `k` runs slot `n - 1` with, on either backend. */
  ghost function LiveCpu(ph: Physics, rate: nat, configs: seq<seq<ModelStep>>, ls: seq<LinkValue>, run: seq<Slot>, k: nat, n: nat): Mutable {
    if n <= |run| && AllSane(ph, configs, ls) && AllWritten(configs, run[..n]) && k < |configs|
    then CpuLinksAfter(ph, rate, configs, ls, run[..n])[k].vars.live else DEFAULTS
  }

  ghost function LiveCuda(ph: Physics, rate: nat, configs: seq<seq<ModelStep>>, es: seq<CudaLink>, run: seq<Slot>, k: nat, n: nat): Mutable {
    if n <= |run| && AllUsable(ph, configs, es) && AllWritten(configs, run[..n]) && k < |configs|
    then CudaLinksAfter(ph, rate, configs, es, run[..n])[k].vars.live else DEFAULTS
  }

  /** The angle that offsets `cfos`, one per slot, sweep in `n` slots. */
  function SweptBy(ph: Physics, rate: nat, cfos: seq<real>, run: seq<Slot>, n: nat): real
    requires n <= |cfos| == |run|
  {
    if n == 0 then 0.0 else SweptBy(ph, rate, cfos, run, n - 1) + Swept(ph, rate, cfos[n - 1], run[n - 1].count)
  }

  ghost predicate CpuOffsets(ph: Physics, rate: nat, configs: seq<seq<ModelStep>>, ls: seq<LinkValue>, run: seq<Slot>, k: nat, cfos: seq<real>) {
    |cfos| == |run| && forall n, next :: 0 <= n < |run| && next == n + 1 ==> cfos[n] == LiveCpu(ph, rate, configs, ls, run, k, next).cfoHz
  }

  ghost predicate CudaOffsets(ph: Physics, rate: nat, configs: seq<seq<ModelStep>>, es: seq<CudaLink>, run: seq<Slot>, k: nat, cfos: seq<real>) {
    |cfos| == |run| && forall n, next :: 0 <= n < |run| && next == n + 1 ==> cfos[n] == LiveCuda(ph, rate, configs, es, run, k, next).cfoHz
  }

  /** One more slot. */
  lemma RunNext(ph: Physics, rate: nat, configs: seq<seq<ModelStep>>, ls: seq<LinkValue>, es: seq<CudaLink>, run: seq<Slot>, n: nat, next: nat)
    requires AllWritten(configs, run) && next == n + 1 <= |run|
    ensures AllWritten(configs, run[..n]) && AllWritten(configs, run[..next]) && Written(configs, run[n])
    ensures AllSane(ph, configs, ls) ==>
              CpuLinksAfter(ph, rate, configs, ls, run[..next]) == CpuNext(ph, rate, configs, CpuLinksAfter(ph, rate, configs, ls, run[..n]), run[n])
    ensures AllUsable(ph, configs, es) ==>
              CudaLinksAfter(ph, rate, configs, es, run[..next]) == CudaNext(ph, rate, configs, CudaLinksAfter(ph, rate, configs, es, run[..n]), run[n])
  {
    hide AllSane, AllUsable, CpuNext, CudaNext, Written;
    assert run[..next][..n] == run[..n] && run[..next][n] == run[n];
  }

  ghost predicate FreshCpu(ph: Physics, chain: seq<ModelStep>, l: LinkValue) {
    |l.sts| == |chain| && forall k :: 0 <= k < |chain| ==> l.sts[k].phase == 0.0
  }

  lemma FreshStands(tr: Trig, chain: seq<ModelStep>, phases: seq<real>)
    requires |phases| == |chain| && forall k :: 0 <= k < |chain| ==> phases[k] == 0.0
    ensures Standing(tr, chain, phases, 0.0)
  {
    Reflexive(tr, 0.0);
  }

  /** On the CPU backend: a link whose oscillators start at rest stands, slot by slot, where the offsets in
      force have taken it. */
  lemma {:induction false} CpuStands(ph: Physics, rate: nat, configs: seq<seq<ModelStep>>, ls: seq<LinkValue>, run: seq<Slot>, k: nat,
                                     cfos: seq<real>, n: nat)
    requires ph.tr.Periodic() && AllSane(ph, configs, ls) && AllWritten(configs, run) && k < |configs| && OnlyLeads(configs[k])
    requires FreshCpu(ph, configs[k], ls[k]) && CpuOffsets(ph, rate, configs, ls, run, k, cfos) && n <= |run|
    ensures AllWritten(configs, run[..n])
    ensures var l := CpuLinksAfter(ph, rate, configs, ls, run[..n])[k];
      Standing(ph.tr, configs[k], PhasesOf(l.sts), SweptBy(ph, rate, cfos, run, n))
  {
    hide Trig.Periodic, Standing, Swept, SaneLink, EdgeNow, LinkAfter, OnlyLeads, SaneChain, SaneVars, SaneView, ChainOut, FreshCpu;
    if n == 0 {
      AtStart(ph, configs[k], ls[k]);
      assert run[..0] == [];
    } else {
      CpuStands(ph, rate, configs, ls, run, k, cfos, n - 1);
      RunNext(ph, rate, configs, ls, [], run, n - 1, n);
      var l, s := CpuLinksAfter(ph, rate, configs, ls, run[..n - 1])[k], run[n - 1];
      Sane(ph, configs, CpuLinksAfter(ph, rate, configs, ls, run[..n - 1]), s, k);
      Turns(ph);
      CpuSlot(ph, rate, configs[k], l, s.views[k], s.inputs[k], SweptBy(ph, rate, cfos, run, n - 1), 0,
              EdgeNow(ph, rate, configs[k], l, s.views[k], s.count), LinkAfter(ph, rate, configs[k], l, s.views[k], s.inputs[k]));
      assert cfos[n - 1] == LiveCpu(ph, rate, configs, ls, run, k, n).cfoHz;
    }
  }

  lemma Turns(ph: Physics)
    requires ph.tr.Periodic()
    ensures ph.tr.turn > 0.0
  {
    EndToEnd.Turning(ph.tr);
  }

  lemma AtStart(ph: Physics, chain: seq<ModelStep>, l: LinkValue)
    requires FreshCpu(ph, chain, l)
    ensures Standing(ph.tr, chain, PhasesOf(l.sts), 0.0)
  {
    FreshStands(ph.tr, chain, PhasesOf(l.sts));
  }

  lemma Sane(ph: Physics, configs: seq<seq<ModelStep>>, ls: seq<LinkValue>, s: Slot, k: nat)
    requires AllSane(ph, configs, ls) && Written(configs, s) && k < |configs|
    ensures SaneLink(ph, configs[k], ls[k], s.views[k]) && |s.inputs[k]| == s.count
  {
  }

  /** ... and sends every sample weighed by the losses and turned by the angle of that moment. */
  lemma CpuRunSample(ph: Physics, rate: nat, configs: seq<seq<ModelStep>>, ls: seq<LinkValue>, run: seq<Slot>, k: nat, cfos: seq<real>,
                     n: nat, i: nat)
    requires ph.tr.Periodic() && AllSane(ph, configs, ls) && AllWritten(configs, run) && k < |configs| && OnlyLeads(configs[k])
    requires FreshCpu(ph, configs[k], ls[k]) && CpuOffsets(ph, rate, configs, ls, run, k, cfos) && n < |run| && i < run[n].count
    ensures AllWritten(configs, run[..n]) && AllWritten(configs, run[..n + 1]) && Written(configs, run[n])
    ensures var l, l' := CpuLinksAfter(ph, rate, configs, ls, run[..n])[k], CpuLinksAfter(ph, rate, configs, ls, run[..n + 1])[k];
      var x, taps := run[n].inputs[k], if Leads(configs[k]) then InForce(configs[k][0].taps, l'.vars) else [];
      && SaneLink(ph, configs[k], l, run[n].views[k])
      && var now := EdgeNow(ph, rate, configs[k], l, run[n].views[k], |x|);
      var front := if Leads(configs[k]) then Echoes(ph, taps, now.sts[0].line + x, |now.sts[0].line| + i, |taps|) else x[i];
      CpuEdges(ph, rate, configs, CpuLinksAfter(ph, rate, configs, ls, run[..n]), run[n])[k][i] ==
      Stepped(ph, configs[k], l'.vars.live.pathLossDb, SweptBy(ph, rate, cfos, run, n) + Swept(ph, rate, cfos[n], i), front)
  {
    hide Trig.Periodic, Standing, Swept, SaneLink, EdgeNow, LinkAfter, OnlyLeads, SaneChain, SaneVars, SaneView, ChainOut, FreshCpu, Echoes,
         Stepped, InForce, Front;
    CpuStands(ph, rate, configs, ls, run, k, cfos, n);
    RunNext(ph, rate, configs, ls, [], run, n, n + 1);
    var l, s := CpuLinksAfter(ph, rate, configs, ls, run[..n])[k], run[n];
    Sane(ph, configs, CpuLinksAfter(ph, rate, configs, ls, run[..n]), s, k);
    Turns(ph);
    CpuSlot(ph, rate, configs[k], l, s.views[k], s.inputs[k], SweptBy(ph, rate, cfos, run, n), i,
            EdgeNow(ph, rate, configs[k], l, s.views[k], s.count), LinkAfter(ph, rate, configs[k], l, s.views[k], s.inputs[k]));
    assert cfos[n] == LiveCpu(ph, rate, configs, ls, run, k, n + 1).cfoHz;
    if Leads(configs[k]) {
      FrontNow(ph, rate, configs[k], l, s.views[k], s.inputs[k], i);
    } else {
      FrontBare(ph, rate, configs[k], l, s.views[k], s.inputs[k]);
    }
  }

  lemma FrontBare(ph: Physics, rate: nat, chain: seq<ModelStep>, l: LinkValue, c: View, x: seq<Sample>)
    requires SaneLink(ph, chain, l, c) && !Leads(chain)
    ensures var now := EdgeNow(ph, rate, chain, l, c, |x|); Front(now.chain, now.sts, x) == x
  {
    hide Begun;
  }

  /** The same of the CUDA backend. */
  lemma {:induction false} CudaStands(ph: Physics, rate: nat, configs: seq<seq<ModelStep>>, es: seq<CudaLink>, run: seq<Slot>, k: nat,
                                      cfos: seq<real>, n: nat)
    requires ph.tr.Periodic() && AllUsable(ph, configs, es) && AllWritten(configs, run) && k < |configs|
    requires (forall j :: 0 <= j < |es[k].phases| ==> es[k].phases[j] == 0.0)
    requires CudaOffsets(ph, rate, configs, es, run, k, cfos) && n <= |run|
    ensures AllWritten(configs, run[..n])
    ensures Standing(ph.tr, configs[k], CudaLinksAfter(ph, rate, configs, es, run[..n])[k].phases, SweptBy(ph, rate, cfos, run, n))
  {
    hide Trig.Periodic, Standing, Swept, Usable, CudaAfter, SaneChain, SaneVars, SaneView, CudaOut, CudaLinksAfter;
    UsableSize(ph, configs, es, k);
    if n == 0 {
      assert run[..0] == [];
      CudaNone(ph, rate, configs, es);
      FreshStands(ph.tr, configs[k], es[k].phases);
    } else {
      CudaStands(ph, rate, configs, es, run, k, cfos, n - 1);
      RunNext(ph, rate, configs, [], es, run, n - 1, n);
      var e, s := CudaLinksAfter(ph, rate, configs, es, run[..n - 1])[k], run[n - 1];
      CudaSlot(ph, rate, configs[k], e, s.views[k], s.inputs[k], SweptBy(ph, rate, cfos, run, n - 1), 0);
      assert cfos[n - 1] == LiveCuda(ph, rate, configs, es, run, k, n).cfoHz;
    }
  }

  lemma CudaNone(ph: Physics, rate: nat, configs: seq<seq<ModelStep>>, es: seq<CudaLink>)
    requires AllUsable(ph, configs, es)
    ensures CudaLinksAfter(ph, rate, configs, es, []) == es
  {
  }

  lemma UsableSize(ph: Physics, configs: seq<seq<ModelStep>>, es: seq<CudaLink>, k: nat)
    requires AllUsable(ph, configs, es) && k < |configs|
    ensures |es[k].phases| == |configs[k]|
  {
    assert Usable(ph, configs[k], es[k]);
  }

  lemma CudaRunSample(ph: Physics, rate: nat, configs: seq<seq<ModelStep>>, es: seq<CudaLink>, run: seq<Slot>, k: nat, cfos: seq<real>,
                      n: nat, i: nat)
    requires ph.tr.Periodic() && AllUsable(ph, configs, es) && AllWritten(configs, run) && k < |configs|
    requires (forall j :: 0 <= j < |es[k].phases| ==> es[k].phases[j] == 0.0)
    requires CudaOffsets(ph, rate, configs, es, run, k, cfos) && n < |run| && i < run[n].count
    ensures AllWritten(configs, run[..n]) && AllWritten(configs, run[..n + 1]) && Written(configs, run[n])
    ensures var e, e' := CudaLinksAfter(ph, rate, configs, es, run[..n])[k], CudaLinksAfter(ph, rate, configs, es, run[..n + 1])[k];
      var b := CudaBegun(ph, configs[k], e, run[n].views[k], run[n].count);
      && Usable(ph, configs[k], b)
      && CudaEdges(ph, rate, configs, CudaLinksAfter(ph, rate, configs, es, run[..n]), run[n])[k][i] ==
         Stepped(ph, configs[k], e'.vars.live.pathLossDb, SweptBy(ph, rate, cfos, run, n) + Swept(ph, rate, cfos[n], i),
                 Staged(b.dev, run[n].inputs[k])[i])
  {
    hide Trig.Periodic, Standing, Swept, Usable, CudaAfter, SaneChain, SaneVars, SaneView, CudaOut, Stepped, CudaBegun, Staged;
    CudaStands(ph, rate, configs, es, run, k, cfos, n);
    RunNext(ph, rate, configs, [], es, run, n, n + 1);
    var e, s := CudaLinksAfter(ph, rate, configs, es, run[..n])[k], run[n];
    CudaSlot(ph, rate, configs[k], e, s.views[k], s.inputs[k], SweptBy(ph, rate, cfos, run, n), i);
    assert cfos[n] == LiveCuda(ph, rate, configs, es, run, k, n + 1).cfoHz;
  }

  // ---- An offset rewritten at run time -----------------------------------------------------------------------------

  /** Samples served in `n` slots. */
  function Served(run: seq<Slot>, n: nat): nat
    requires n <= |run|
  {
    if n == 0 then 0 else Served(run, n - 1) + run[n - 1].count
  }

  lemma {:induction false} ServedGrows(run: seq<Slot>, m: nat, n: nat)
    requires m <= n <= |run|
    ensures Served(run, m) <= Served(run, n)
  {
    if m < n {
      ServedGrows(run, m, n - 1);
    }
  }

  /** Link `k` is left alone for `from` slots; the write seen from then on has its gate open and asks for an
      offset of `cfoHz`. */
  ghost predicate Rewritten(run: seq<Slot>, k: nat, from: nat, version: nat, cfoHz: real) {
    && version > 0 && (forall n :: 0 <= n < |run| ==> k < |run[n].views|)
    && (forall n :: 0 <= n < |run| && n < from ==> run[n].views[k].seqno == 0)
    && (forall n :: 0 <= n < |run| && from <= n ==>
          run[n].views[k].seqno == version && run[n].views[k].gate <= from && run[n].views[k].shadow.cfoHz == cfoHz)
  }

  /** What link `k`'s variables are `n` slots into such a run. */
  predicate Carrying(v: LinkVars, n: nat, from: nat, version: nat, before: real, after: real) {
    && v.nextSlot == n
    && if n <= from then v.liveSeqno == 0 && v.live.cfoHz == before else v.liveSeqno == version && v.live.cfoHz == after
  }

  lemma CarriesOn(v: LinkVars, c: View, leads: bool, ring: nat, count: nat, n: nat, next: nat, from: nat, version: nat, before: real, after: real)
    requires Carrying(v, n, from, version, before, after) && version > 0 && next == n + 1
    requires if n < from then c.seqno == 0 else c.seqno == version && c.gate <= from && c.shadow.cfoHz == after
    ensures Carrying(SlotBegin(v, c, leads, ring, count), next, from, version, before, after)
  {
  }

  lemma {:induction false} CpuCarries(ph: Physics, rate: nat, configs: seq<seq<ModelStep>>, ls: seq<LinkValue>, run: seq<Slot>, k: nat,
                                      from: nat, version: nat, before: real, after: real, n: nat)
    requires AllSane(ph, configs, ls) && AllWritten(configs, run) && k < |configs| && n <= |run|
    requires Rewritten(run, k, from, version, after) && Carrying(ls[k].vars, 0, from, version, before, after)
    ensures AllWritten(configs, run[..n])
    ensures Carrying(CpuLinksAfter(ph, rate, configs, ls, run[..n])[k].vars, n, from, version, before, after)
  {
    hide SaneLink, EdgeNow, SaneChain, SaneVars, SaneView, ChainNext, Carrying, SlotBegin;
    if n == 0 {
      assert run[..0] == [];
    } else {
      CpuCarries(ph, rate, configs, ls, run, k, from, version, before, after, n - 1);
      RunNext(ph, rate, configs, ls, [], run, n - 1, n);
      var ls', s := CpuLinksAfter(ph, rate, configs, ls, run[..n - 1]), run[n - 1];
      Sane(ph, configs, ls', s, k);
      CpuVars(ph, rate, configs[k], ls'[k], s.views[k], s.inputs[k]);
      CarriesOn(ls'[k].vars, s.views[k], Leads(configs[k]), RingOf(configs[k], ls'[k].sts), s.count, n - 1, n, from, version, before, after);
    }
  }

  lemma {:induction false} CudaCarries(ph: Physics, rate: nat, configs: seq<seq<ModelStep>>, es: seq<CudaLink>, run: seq<Slot>, k: nat,
                                       from: nat, version: nat, before: real, after: real, n: nat)
    requires AllUsable(ph, configs, es) && AllWritten(configs, run) && k < |configs| && n <= |run|
    requires Rewritten(run, k, from, version, after) && Carrying(es[k].vars, 0, from, version, before, after)
    ensures AllWritten(configs, run[..n])
    ensures Carrying(CudaLinksAfter(ph, rate, configs, es, run[..n])[k].vars, n, from, version, before, after)
  {
    hide SaneChain, SaneVars, SaneView, Carrying, SlotBegin, Usable, NextPhases, NextDevLink, CudaLinksAfter;
    if n == 0 {
      assert run[..0] == [];
      CudaNone(ph, rate, configs, es);
    } else {
      CudaCarries(ph, rate, configs, es, run, k, from, version, before, after, n - 1);
      RunNext(ph, rate, configs, [], es, run, n - 1, n);
      var es', s := CudaLinksAfter(ph, rate, configs, es, run[..n - 1]), run[n - 1];
      CudaVars(ph, rate, configs[k], es'[k], s.views[k], s.inputs[k]);
      CarriesOn(es'[k].vars, s.views[k], Leads(configs[k]), |es'[k].dev.line|, s.count, n - 1, n, from, version, before, after);
    }
  }

  lemma CpuVars(ph: Physics, rate: nat, chain: seq<ModelStep>, l: LinkValue, c: View, x: seq<Sample>)
    requires SaneLink(ph, chain, l, c)
    ensures |l.sts| == |chain|
    ensures LinkAfter(ph, rate, chain, l, c, x).vars == SlotBegin(l.vars, c, Leads(chain), RingOf(chain, l.sts), |x|)
  {
    hide SlotBegin, ChainNext, RingOf;
  }

  lemma CudaVars(ph: Physics, rate: nat, chain: seq<ModelStep>, e: CudaLink, c: View, x: seq<Sample>)
    requires Usable(ph, chain, e) && SaneView(c)
    ensures CudaAfter(ph, rate, chain, e, c, x).vars == SlotBegin(e.vars, c, Leads(chain), |e.dev.line|, |x|)
  {
    hide SlotBegin, DeviceSwap.DeviceBegun;
  }

  lemma SweptAdds(ph: Physics, rate: nat, cfoHz: real, a: nat, b: nat, sum: nat)
    requires sum == a + b
    ensures Swept(ph, rate, cfoHz, sum) == Swept(ph, rate, cfoHz, a) + Swept(ph, rate, cfoHz, b)
  {
    SweptIs(ph, rate, cfoHz, a);
    SweptIs(ph, rate, cfoHz, b);
    SweptIs(ph, rate, cfoHz, sum);
    AngleSum(a, b, ph.Increment(cfoHz, rate));
  }

  lemma NothingSwept(ph: Physics, rate: nat, cfoHz: real)
    ensures Swept(ph, rate, cfoHz, 0) == 0.0
  {
  }

  /** Two offsets, one after the other. */
  lemma {:induction false} SweptTwice(ph: Physics, rate: nat, cfos: seq<real>, run: seq<Slot>, from: nat, before: real, after: real, n: nat)
    requires n <= |cfos| == |run| && forall m :: 0 <= m < n ==> cfos[m] == if m < from then before else after
    ensures if n <= from then SweptBy(ph, rate, cfos, run, n) == Swept(ph, rate, before, Served(run, n))
            else && Served(run, from) <= Served(run, n)
                 && SweptBy(ph, rate, cfos, run, n) ==
                    Swept(ph, rate, before, Served(run, from)) + Swept(ph, rate, after, Served(run, n) - Served(run, from))
  {
    hide Swept;
    if n == 0 {
      NothingSwept(ph, rate, before);
    } else {
      SweptTwice(ph, rate, cfos, run, from, before, after, n - 1);
      var count := run[n - 1].count;
      if n <= from {
        SweptAdds(ph, rate, before, Served(run, n - 1), count, Served(run, n));
      } else {
        ServedGrows(run, from, n - 1);
        NothingSwept(ph, rate, after);
        SweptAdds(ph, rate, after, Served(run, n - 1) - Served(run, from), count, Served(run, n) - Served(run, from));
      }
    }
  }

  /** Where the oscillator of such a run stands `since` samples after sample `cut`, at which the write was taken
      over - or at sample `cut`, if it was not yet. */
  lemma StandsAt(ph: Physics, rate: nat, cfos: seq<real>, run: seq<Slot>, from: nat, before: real, after: real, n: nat, i: nat,
                 cut: nat, since: nat)
    requires rate > 0 && n < |cfos| == |run| && forall m :: 0 <= m < |run| ==> cfos[m] == if m < from then before else after
    requires cut + since == Served(run, n) + i && (if n < from then since == 0 else cut == Served(run, from))
    ensures SweptBy(ph, rate, cfos, run, n) + Swept(ph, rate, cfos[n], i) ==
            cut as real * (ph.tr.turn * before / rate as real) + since as real * (ph.tr.turn * after / rate as real)
  {
    hide Swept;
    SweptTwice(ph, rate, cfos, run, from, before, after, n);
    NothingSwept(ph, rate, after);
    SweptAt(ph, rate, before, cut);
    SweptAt(ph, rate, after, since);
    if n < from {
      SweptAdds(ph, rate, before, Served(run, n), i, cut);
    } else {
      ServedGrows(run, from, n);
      SweptAdds(ph, rate, after, Served(run, n) - cut, i, since);
    }
  }

  /** The offset in force in each slot. */
  ghost function InForceCpu(ph: Physics, rate: nat, configs: seq<seq<ModelStep>>, ls: seq<LinkValue>, run: seq<Slot>, k: nat): (cfos: seq<real>)
    ensures CpuOffsets(ph, rate, configs, ls, run, k, cfos)
  {
    seq(|run|, n requires 0 <= n < |run| => LiveCpu(ph, rate, configs, ls, run, k, n + 1).cfoHz)
  }

  ghost function InForceCuda(ph: Physics, rate: nat, configs: seq<seq<ModelStep>>, es: seq<CudaLink>, run: seq<Slot>, k: nat): (cfos: seq<real>)
    ensures CudaOffsets(ph, rate, configs, es, run, k, cfos)
  {
    seq(|run|, n requires 0 <= n < |run| => LiveCuda(ph, rate, configs, es, run, k, n + 1).cfoHz)
  }

  /** A link that is one oscillator, freshly prepared, on both backends. */
  ghost predicate Oscillator(ph: Physics, configs: seq<seq<ModelStep>>, ls: seq<LinkValue>, es: seq<CudaLink>, k: nat,
                             phaseRad: real, cfoHz: real, src: nat)
  {
    && k < |configs| == |ls| == |es| && configs[k] == [TurnStep(phaseRad, cfoHz)]
    && ls[k] == FreshLink(ph, configs[k])
    && es[k] == CudaLink(Untouched(YamlParams(configs[k])), AtRest(1), DevLink(false, [], [], [], src))
  }

  /** An oscillator whose offset is rewritten: on either backend every sample is turned forward by the
      configured phase, by the configured offset up to the slot that takes the write over, and by the new one
      from there, with no jump in between. */
  lemma OffsetRewritten(ph: Physics, rate: nat, configs: seq<seq<ModelStep>>, ls: seq<LinkValue>, es: seq<CudaLink>, run: seq<Slot>,
                        k: nat, phaseRad: real, before: real, after: real, src: nat, from: nat, version: nat, n: nat, i: nat,
                        cut: nat, since: nat)
    requires rate > 0 && ph.tr.Periodic() && AllSane(ph, configs, ls) && AllUsable(ph, configs, es) && AllWritten(configs, run)
    requires Oscillator(ph, configs, ls, es, k, phaseRad, before, src) && Rewritten(run, k, from, version, after)
    requires n < |run| && i < run[n].count
    requires cut + since == Served(run, n) + i && (if n < from then since == 0 else cut == Served(run, from))
    ensures AllWritten(configs, run[..n]) && Written(configs, run[n])
    ensures var x := run[n].inputs[k][i];
      var angle := cut as real * (ph.tr.turn * before / rate as real) + since as real * (ph.tr.turn * after / rate as real);
      && CpuEdges(ph, rate, configs, CpuLinksAfter(ph, rate, configs, ls, run[..n]), run[n])[k][i] == Turned(x, ph.tr.rot(phaseRad + angle))
      && CudaEdges(ph, rate, configs, CudaLinksAfter(ph, rate, configs, es, run[..n]), run[n])[k][i] == Turned(x, ph.tr.rot(phaseRad + angle))
  {
    hide Trig.Periodic, AllSane, AllUsable, CpuLinksAfter, CudaLinksAfter, CpuEdges, CudaEdges, Swept, SweptBy, Turned, Carrying,
         CpuOffsets, CudaOffsets, Rewritten, Served, Usable, CudaBegun, Tdl.SlotOut, Stepped, EdgeNow, SaneLink, AllWritten, Oscillator;
    var a, b := InForceCpu(ph, rate, configs, ls, run, k), InForceCuda(ph, rate, configs, es, run, k);
    OscillatorFacts(ph, configs, ls, es, k, phaseRad, before, src, from, version, after);
    TwoOffsets(ph, rate, configs, ls, es, run, k, from, version, before, after);
    CpuRunSample(ph, rate, configs, ls, run, k, a, n, i);
    CudaRunSample(ph, rate, configs, es, run, k, b, n, i);
    StandsAt(ph, rate, a, run, from, before, after, n, i, cut, since);
    StandsAt(ph, rate, b, run, from, before, after, n, i, cut, since);
    LoneTurn(ph, phaseRad, before, LiveCpu(ph, rate, configs, ls, run, k, n + 1).pathLossDb,
             SweptBy(ph, rate, a, run, n) + Swept(ph, rate, a[n], i), run[n].inputs[k][i]);
    LoneTurn(ph, phaseRad, before, LiveCuda(ph, rate, configs, es, run, k, n + 1).pathLossDb,
             SweptBy(ph, rate, b, run, n) + Swept(ph, rate, b[n], i), run[n].inputs[k][i]);
    PlainWire(ph, rate, configs, es, run, k, n);
    SlotSize(configs, run, k, n);
  }

  lemma SlotSize(configs: seq<seq<ModelStep>>, run: seq<Slot>, k: nat, n: nat)
    requires AllWritten(configs, run) && n < |run| && k < |configs|
    ensures |run[n].inputs| == |configs| && |run[n].inputs[k]| == run[n].count
  {
    assert Written(configs, run[n]);
  }

  lemma LoneTurn(ph: Physics, phaseRad: real, cfoHz: real, lossDb: real, angle: real, x: Sample)
    ensures Stepped(ph, [TurnStep(phaseRad, cfoHz)], lossDb, angle, x) == Turned(x, ph.tr.rot(phaseRad + angle))
  {
    hide Turned;
    var chain := [TurnStep(phaseRad, cfoHz)];
    assert chain[1..] == [];
    assert Stepped(ph, [], lossDb, angle, Turned(x, ph.tr.rot(phaseRad + angle))) == Turned(x, ph.tr.rot(phaseRad + angle));
  }

  lemma OscillatorFacts(ph: Physics, configs: seq<seq<ModelStep>>, ls: seq<LinkValue>, es: seq<CudaLink>, k: nat,
                        phaseRad: real, cfoHz: real, src: nat, from: nat, version: nat, after: real)
    requires Oscillator(ph, configs, ls, es, k, phaseRad, cfoHz, src)
    ensures k < |configs| && configs[k] == [TurnStep(phaseRad, cfoHz)] && OnlyLeads(configs[k]) && !Leads(configs[k])
    ensures k < |ls| && k < |es| && FreshCpu(ph, configs[k], ls[k]) && (forall j :: 0 <= j < |es[k].phases| ==> es[k].phases[j] == 0.0)
    ensures Carrying(ls[k].vars, 0, from, version, cfoHz, after) && Carrying(es[k].vars, 0, from, version, cfoHz, after)
    ensures !es[k].dev.hasTdl
  {
    NumbersAre(configs[k]);
    LoneOffset(phaseRad, cfoHz);
    assert ls[k].sts[0] == FreshStepState(ph, configs[k][0]);
  }

  lemma TwoOffsets(ph: Physics, rate: nat, configs: seq<seq<ModelStep>>, ls: seq<LinkValue>, es: seq<CudaLink>,
                   run: seq<Slot>, k: nat, from: nat, version: nat, before: real, after: real)
    requires AllSane(ph, configs, ls) && AllUsable(ph, configs, es) && AllWritten(configs, run) && k < |configs|
    requires Rewritten(run, k, from, version, after)
    requires Carrying(ls[k].vars, 0, from, version, before, after) && Carrying(es[k].vars, 0, from, version, before, after)
    ensures forall m :: 0 <= m < |run| ==> InForceCpu(ph, rate, configs, ls, run, k)[m] == if m < from then before else after
    ensures forall m :: 0 <= m < |run| ==> InForceCuda(ph, rate, configs, es, run, k)[m] == if m < from then before else after
  {
    hide AllSane, AllUsable, CpuLinksAfter, CudaLinksAfter, CpuOffsets, CudaOffsets, Rewritten, AllWritten;
    forall m | 0 <= m < |run|
      ensures InForceCpu(ph, rate, configs, ls, run, k)[m] == if m < from then before else after
      ensures InForceCuda(ph, rate, configs, es, run, k)[m] == if m < from then before else after
    {
      CpuCarries(ph, rate, configs, ls, run, k, from, version, before, after, m + 1);
      CudaCarries(ph, rate, configs, es, run, k, from, version, before, after, m + 1);
    }
  }

  /** A link without a struct stays without one. */
  lemma {:induction false} PlainWire(ph: Physics, rate: nat, configs: seq<seq<ModelStep>>, es: seq<CudaLink>, run: seq<Slot>, k: nat, n: nat)
    requires AllUsable(ph, configs, es) && AllWritten(configs, run) && k < |configs| && !es[k].dev.hasTdl && n <= |run|
    ensures AllWritten(configs, run[..n]) && !CudaLinksAfter(ph, rate, configs, es, run[..n])[k].dev.hasTdl
    ensures n < |run| ==> Written(configs, run[n])
    ensures n < |run| ==>
              var e := CudaLinksAfter(ph, rate, configs, es, run[..n])[k];
              !CudaBegun(ph, configs[k], e, run[n].views[k], run[n].count).dev.hasTdl
  {
    hide SaneChain, SaneVars, SaneView, SlotBegin, Usable, NextPhases;
    UsableSize(ph, configs, es, k);
    if n == 0 {
      assert run[..0] == [];
    } else {
      PlainWire(ph, rate, configs, es, run, k, n - 1);
      RunNext(ph, rate, configs, [], es, run, n - 1, n);
    }
    var e := CudaLinksAfter(ph, rate, configs, es, run[..n])[k];
    if n < |run| {
      DeviceSwap.WireStaysWire(ph, e.dev, e.vars, run[n].views[k]);
    }
  }
}

/** The CPU backend's objects: a link that runs its chain in place, slot by slot. */
module CpuBackend {
  import opened Iq
  import opened Phase
  import opened Chain
  import opened RuntimeControl
  import opened CpuLinks
  import Tdl

  /** A link between slots, and what the control thread has written for it. */
  datatype Holding = Holding(value: LinkValue, view: View)

  class CpuLink {
    const ph: Physics
    const rate: nat
    const chain: seq<ModelStep>
    const ctl: LinkControl

    var live: Mutable
    var liveSeqno: nat
    var nextSlot: nat
    var liveProfile: Profile
    var profileActive: bool
    var warmupUntilSlot: nat

    /** Each tdl step's cached filters, every step's ring and every step's phase. */
    const poly: seq<seq<seq<real>>>
    const lines: seq<array<Sample>>
    const phases: array<real>

    var scratchA: array<Sample>
    var scratchB: array<Sample>

    ghost var Repr: set<object>

    function Vars(): LinkVars
      reads this
    {
      LinkVars(live, liveSeqno, nextSlot, liveProfile, profileActive, warmupUntilSlot)
    }

    ghost function Sts(): (s: seq<StepState>)
      reads phases, lines
      requires |lines| == phases.Length
      ensures |s| == |lines| && forall k :: 0 <= k < |s| ==> s[k] == StepState(lines[k][..], phases[k])
    {
      seq(|lines|, k requires 0 <= k < |lines| reads phases, lines requires |lines| == phases.Length =>
        StepState(lines[k][..], phases[k]))
    }

    ghost function Value(): (l: LinkValue)
      reads this, phases, lines
      requires |lines| == phases.Length
    {
      LinkValue(Vars(), Sts())
    }

    ghost predicate Valid()
      reads this, ctl
    {
      Wired() && SaneVars(Vars()) && SaneView(ctl.ControlView())
    }

    /** ... and everything the link touches is its own. */
    ghost predicate Owned()
      reads this, Repr
    {
      && this in Repr && ctl in Repr && phases in Repr && scratchA in Repr && scratchB in Repr
      && (forall k :: 0 <= k < |lines| ==> lines[k] in Repr) && Valid()
    }

    /** What no slot changes. */
    ghost predicate Wired()
      reads this`scratchA, this`scratchB
    {
      && ph.Valid() && SaneChain(chain)
      && |lines| == phases.Length == |chain| == |poly|
      && (forall k :: 0 <= k < |chain| && chain[k].TdlStep? ==>
            poly[k] == Tdl.Polyphase(ph.TapsOf(chain[k].taps), ph.sinc))
      && Distinct(lines) && scratchA != scratchB && scratchA !in lines && scratchB !in lines
    }

    /** Prepares a link from its configured chain; its shadow starts equal to its parameters. */
    constructor (physics: Physics, sampleRate: nat, steps: seq<ModelStep>, slotCount: nat)
      requires physics.Valid() && SaneChain(steps)
      ensures Valid() && fresh(ctl) && fresh(phases) && fresh(lines) && fresh(scratchA) && fresh(scratchB)
      ensures ph == physics && rate == sampleRate && chain == steps
      ensures Value() == FreshLink(physics, steps)
      ensures ctl.ControlView() == View(YamlParams(steps), NO_PROFILE, false, 0, 0)
      ensures ctl.dlSizeHint == (if Leads(steps) then Tdl.RingSize(physics.TapsOf(steps[0].taps)) else 0)
      ensures ctl.slotCountHint == slotCount && ctl.currentSlot == 0
    {
      YamlSane(steps);
      hide SaneChain, YamlParams, Physics.Valid, Tdl.Polyphase;
      var initial := PopulateParams(steps);
      var polys, rings, hint := PrepareSteps(physics, steps);
      var control := new LinkControl(initial, hint, slotCount);
      ph, rate, chain, ctl, poly, lines := physics, sampleRate, steps, control, polys, rings;
      live, liveSeqno, nextSlot, liveProfile, profileActive, warmupUntilSlot := initial, 0, 0, NO_PROFILE, false, 0;
      phases := new real[|steps|](_ => 0.0);
      scratchA, scratchB := new Sample[slotCount](_ => ZERO), new Sample[slotCount](_ => ZERO);
      new;
      assert Wired();
      hide FreshStepState, FreshLink, Wired, Leads;
      FreshShown(physics, steps, Sts());
    }

    /** A link together with the storage it owns. */
    static method Prepare(physics: Physics, sampleRate: nat, steps: seq<ModelStep>, slotCount: nat) returns (link: CpuLink)
      requires physics.Valid() && SaneChain(steps)
      ensures link.Owned() && fresh(link.Repr)
      ensures link.ph == physics && link.rate == sampleRate && link.chain == steps
      ensures link.Value() == FreshLink(physics, steps)
      ensures link.ctl.ControlView() == View(YamlParams(steps), NO_PROFILE, false, 0, 0)
      ensures link.ctl.slotCountHint == slotCount
      ensures link.ctl.dlSizeHint == (if Leads(steps) then Tdl.RingSize(physics.TapsOf(steps[0].taps)) else 0)
    {
      link := new CpuLink(physics, sampleRate, steps, slotCount);
      link.Repr := {link, link.ctl, link.phases, link.scratchA, link.scratchB} + set line | line in link.lines;
    }

    static method PopulateParams(steps: seq<ModelStep>) returns (m: Mutable)
      ensures m == YamlParams(steps)
    {
      m := DEFAULTS;
      for k := 0 to |steps|
        invariant m == Scanned(steps[..k])
      {
        assert steps[..k + 1][..k] == steps[..k];
        match steps[k]
        case PathLossStep(lossDb) => m := m.(pathLossDb := lossDb);
        case TurnStep(_, cfoHz) => m := m.(cfoHz := cfoHz);
        case TdlStep(_) =>
      }
      assert steps[..|steps|] == steps;
      if |steps| > 0 && steps[0].TdlStep? && |steps[0].taps| > 0 {
        var t := steps[0].taps[0];
        m := m.(tap0Delay := t.delay, tap0GainDb := t.gainDb, tap0PhaseRad := t.phaseRad, losKDb := t.losKDb);
      }
    }

    static method PrepareSteps(ph: Physics, steps: seq<ModelStep>)
        returns (poly: seq<seq<seq<real>>>, lines: seq<array<Sample>>, lead: nat)
      requires SaneChain(steps)
      ensures |poly| == |lines| == |steps| && fresh(lines) && Distinct(lines)
      ensures forall k :: 0 <= k < |steps| ==> lines[k][..] == FreshStepState(ph, steps[k]).line
      ensures forall k :: 0 <= k < |steps| && steps[k].TdlStep? ==> poly[k] == Tdl.Polyphase(ph.TapsOf(steps[k].taps), ph.sinc)
      ensures lead == if Leads(steps) then Tdl.RingSize(ph.TapsOf(steps[0].taps)) else 0
    {
      poly, lines := [], [];
      for k := 0 to |steps|
        invariant |poly| == |lines| == k && fresh(lines) && Distinct(lines)
        invariant forall j :: 0 <= j < k ==> lines[j][..] == FreshStepState(ph, steps[j]).line
        invariant forall j :: 0 <= j < k && steps[j].TdlStep? ==> poly[j] == Tdl.Polyphase(ph.TapsOf(steps[j].taps), ph.sinc)
      {
        var line := new Sample[0];
        var p := [];
        if steps[k].TdlStep? {
          assert DelaysFit(steps[k].taps);
          p, line := Tdl.PrepareTdlState(ph.TapsOf(steps[k].taps), ph.sinc, line);
        }
        assert line !in lines;
        poly, lines := poly + [p], lines + [line];
      }
      lead := 0;
      if Leads(steps) {
        lead := lines[0].Length;
        assert |lines[0][..]| == lead;
      }
    }

    // ---- The start of a slot ------------------------------------------------------------------

    /** Snaps parameters and profile, clears the ring a new profile must not see, and opens
        or closes the warmup window. */
    method BeginSlot(count: nat)
      requires Valid()
      modifies this, ctl`currentSlot, ctl`forceInertWarnings, lines
      ensures Repr == old(Repr) && Valid() && scratchA == old(scratchA) && scratchB == old(scratchB)
      ensures Value() == Begun(chain, old(Value()), ctl.ControlView(), count)
      ensures ctl.currentSlot == old(nextSlot)
      ensures ctl.forceInertWarnings == old(ctl.forceInertWarnings) +
                if old(Activates(Vars(), ctl.ControlView(), Leads(chain))) && !Leads(chain) then 1 else 0
    {
      var slot := nextSlot;
      assert |lines| == phases.Length == |chain| && Distinct(lines);
      hide Wired, FirstTdl, ClearRing, DelaysFit, SaneView, WarmupSlots, Activates, Takes, Snapped, Leads;
      var activated := SnapLink(slot);
      if activated {
        var ring := ClearFirstRing();
        warmupUntilSlot := slot + WarmupSlots(ring, count);
      }
      if warmupUntilSlot != 0 && slot >= warmupUntilSlot {
        warmupUntilSlot := 0;
      }
    }

    /** The slot's parameters and profile. */
    method SnapLink(slot: nat) returns (activated: bool)
      requires SaneVars(Vars()) && SaneView(ctl.ControlView()) && slot == nextSlot
      modifies this`live, this`liveSeqno, this`nextSlot, this`liveProfile, this`profileActive
      modifies ctl`currentSlot, ctl`forceInertWarnings
      ensures activated == Activates(old(Vars()), ctl.ControlView(), Leads(chain))
      ensures Vars() == Snapped(old(Vars()), ctl.ControlView(), Leads(chain)) && SaneVars(Vars())
      ensures ctl.ControlView() == old(ctl.ControlView()) && ctl.currentSlot == slot
      ensures ctl.forceInertWarnings == old(ctl.forceInertWarnings) + if activated && !Leads(chain) then 1 else 0
    {
      var live', liveSeqno', changed := ctl.SnapMutableParams(live, liveSeqno, slot);
      live, liveSeqno, nextSlot := live', liveSeqno', slot + 1;
      activated := false;
      if changed && ctl.profilePending {
        if Leads(chain) || ctl.shadowProfile.force {
          var profile, _ := ctl.SnapProfileFromShadow(liveProfile);
          liveProfile, profileActive, activated := profile, true, true;
          if !Leads(chain) {
            ctl.forceInertWarnings := ctl.forceInertWarnings + 1;
          }
        }
      }
    }

    /** Zeroes the first tdl step's ring and returns its size. */
    method ClearFirstRing() returns (ring: nat)
      requires |lines| == phases.Length == |chain| && Distinct(lines)
      modifies lines
      ensures ring == RingOf(chain, old(Sts())) && Sts() == ClearRing(chain, old(Sts()))
    {
      ghost var sts := Sts();
      ring := 0;
      var k := 0;
      while k < |chain|
        invariant 0 <= k <= |chain| && (forall j :: 0 <= j < k ==> !chain[j].TdlStep?) && Sts() == sts && ring == 0
      {
        if chain[k].TdlStep? {
          assert FirstTdl(chain) == k;
          var line := lines[k];
          ring := line.Length;
          for i := 0 to line.Length
            modifies line
            invariant forall j :: 0 <= j < i ==> line[j] == ZERO
          {
            line[i] := ZERO;
          }
          assert line[..] == Zeros(ring);
          assert forall j :: 0 <= j < |lines| && j != k ==> Sts()[j] == sts[j];
          return;
        }
        k := k + 1;
      }
      assert FirstTdl(chain) == |chain|;
    }

    // ---- The chain over one slot ------------------------------------------------------------------

    /** Step `k`'s meaning this slot. */
    ghost function StepNow(k: nat): (step: Step)
      reads this
      requires Wired() && SaneVars(Vars()) && k < |chain|
      ensures step == Resolve(ph, rate, chain[k], Vars()) && step.Shaped()
    {
      ResolvedShaped(ph, rate, chain, Vars());
      assert ResolveAll(ph, rate, chain, Vars())[k].Shaped();
      Resolve(ph, rate, chain[k], Vars())
    }

    /** The taps and filters a tdl step runs with: the live profile's, or the configured ones
        with the first tap as the live scalars have it. */
    method EffectiveTdl(k: nat) returns (taps: seq<Tdl.Tap>, filters: seq<seq<real>>)
      requires Wired() && k < |chain| && chain[k].TdlStep?
      ensures Taps(taps, filters) == ph.TdlOf(Effective(chain[k].taps, Vars()))
    {
      var specs := chain[k].taps;
      if profileActive {
        taps, filters := ph.TapsOf(liveProfile.taps), [];
        for j := 0 to |taps|
          invariant filters == Tdl.Polyphase(taps, ph.sinc)[..j]
        {
          var frac := taps[j].delay - taps[j].delay.Floor as real;
          filters := filters + [ph.sinc(frac)];
        }
      } else {
        filters := poly[k];
        if |specs| > 0 {
          var t0 := specs[0].(delay := live.tap0Delay, gainDb := live.tap0GainDb, phaseRad := live.tap0PhaseRad);
          if t0.isLos {
            t0 := t0.(losKDb := live.losKDb);
          }
          specs := specs[0 := t0];
          filters := filters[0 := ph.sinc(t0.delay - t0.delay.Floor as real)];
        }
        taps := ph.TapsOf(specs);
        assert specs == Override(chain[k].taps, live);
        assert filters == Tdl.Polyphase(taps, ph.sinc);
      }
    }

    method RunScale(k: nat, cur: array<Sample>, nxt: array<Sample>, n: nat)
      requires Wired() && SaneVars(Vars()) && k < |chain| && chain[k].PathLossStep?
      requires cur != nxt && n <= cur.Length && n <= nxt.Length && nxt !in lines
      modifies nxt
      ensures nxt[..n] == StepOut(ph.tr, StepNow(k), old(Sts()[k]), cur[..n])
      ensures Sts() == old(Sts())[k := StepNext(ph.tr, StepNow(k), old(Sts()[k]), cur[..n])]
    {
      var factor := ph.linear(-live.pathLossDb);
      for i := 0 to n
        invariant forall j :: 0 <= j < i ==> nxt[j] == Scale(cur[j], factor)
      {
        nxt[i] := Scale(cur[i], factor);
      }
    }

    method RunTurn(k: nat, cur: array<Sample>, nxt: array<Sample>, n: nat)
      requires Wired() && SaneVars(Vars()) && k < |chain| && chain[k].TurnStep?
      requires cur != nxt && n <= cur.Length && n <= nxt.Length && nxt !in lines
      modifies nxt, phases
      ensures nxt[..n] == StepOut(ph.tr, StepNow(k), old(Sts()[k]), cur[..n])
      ensures Sts() == old(Sts())[k := StepNext(ph.tr, StepNow(k), old(Sts()[k]), cur[..n])]
    {
      ghost var sts, step := Sts(), StepNow(k);
      RotateSlot(ph.tr, chain[k].phaseRad, ph.Increment(live.cfoHz, rate), cur, nxt, n, phases, k);
      assert forall j :: 0 <= j < |lines| && j != k ==> Sts()[j] == sts[j];
    }

    /** The oscillator loop: rotate, advance, reduce past a full turn. */
    static method RotateSlot(tr: Trig, fixed: real, increment: real, cur: array<Sample>, nxt: array<Sample>, n: nat,
                             phases: array<real>, k: nat)
      requires tr.turn > 0.0 && k < phases.Length && cur != nxt && n <= cur.Length && n <= nxt.Length
      modifies nxt, phases
      ensures phases[k] == PhaseAt(tr, old(phases[k]), increment, n)
      ensures forall j :: 0 <= j < phases.Length && j != k ==> phases[j] == old(phases[j])
      ensures nxt[..n] == StepOut(tr, Turn(fixed, increment), StepState([], old(phases[k])), cur[..n])
    {
      ghost var start := phases[k];
      ghost var y := StepOut(tr, Turn(fixed, increment), StepState([], start), cur[..n]);
      hide Fmod, Rotate, StepOut;
      for i := 0 to n
        invariant phases[k] == PhaseAt(tr, start, increment, i)
        invariant forall j :: 0 <= j < phases.Length && j != k ==> phases[j] == old(phases[j])
        invariant cur[..n] == old(cur[..n]) && nxt[..i] == y[..i]
      {
        nxt[i] := Rotate(cur[i], tr.rot(fixed + phases[k]));
        TurnAt(tr, fixed, increment, start, cur[..n], i);
        phases[k] := phases[k] + increment;
        if phases[k] > tr.turn {
          phases[k] := Fmod(phases[k], tr.turn);
        }
      }
    }

    method RunTdl(k: nat, cur: array<Sample>, nxt: array<Sample>, n: nat)
      requires Wired() && SaneVars(Vars()) && k < |chain| && chain[k].TdlStep?
      requires cur != nxt && n <= cur.Length && n <= nxt.Length && nxt !in lines && cur !in lines
      modifies nxt, lines[k]
      ensures nxt[..n] == StepOut(ph.tr, StepNow(k), old(Sts()[k]), cur[..n])
      ensures Sts() == old(Sts())[k := StepNext(ph.tr, StepNow(k), old(Sts()[k]), cur[..n])]
    {
      var taps, filters := EffectiveTdl(k);
      assert StepNow(k) == Taps(taps, filters);
      Tdl.ApplyTdlStep(cur[..n], nxt, 0, taps, filters, lines[k]);
      assert nxt[0..0 + n] == nxt[..n];
      assert forall j :: 0 <= j < |lines| && j != k ==> lines[j] != lines[k];
    }

    method RunStep(k: nat, cur: array<Sample>, nxt: array<Sample>, n: nat)
      requires Wired() && SaneVars(Vars()) && k < |chain|
      requires cur != nxt && n <= cur.Length && n <= nxt.Length && nxt !in lines && cur !in lines
      modifies nxt, phases, lines
      ensures nxt[..n] == StepOut(ph.tr, StepNow(k), old(Sts()[k]), old(cur[..n]))
      ensures Sts() == old(Sts())[k := StepNext(ph.tr, StepNow(k), old(Sts()[k]), old(cur[..n]))]
    {
      if chain[k].PathLossStep? {
        RunScale(k, cur, nxt, n);
      } else if chain[k].TurnStep? {
        RunTurn(k, cur, nxt, n);
      } else {
        RunTdl(k, cur, nxt, n);
      }
    }

    /** The chain as the slot's parameters resolve it. */
    ghost function ChainNow(): (steps: seq<Step>)
      reads this
      requires Wired() && SaneVars(Vars())
      ensures ShapedChain(steps) && steps == ResolveAll(ph, rate, chain, Vars())
    {
      ResolvedShaped(ph, rate, chain, Vars());
      ResolveAll(ph, rate, chain, Vars())
    }

    /** Step after step, from one scratch buffer to the other and back. */
    method RunChain(n: nat) returns (result: array<Sample>)
      requires Wired() && SaneVars(Vars()) && n <= scratchA.Length && n <= scratchB.Length
      modifies scratchA, scratchB, phases, lines
      ensures result == scratchA || result == scratchB
      ensures result[..n] == ChainOut(ph.tr, ChainNow(), old(Sts()), old(scratchA[..n]))
      ensures Sts() == ChainNext(ph.tr, ChainNow(), old(Sts()), old(scratchA[..n]))
    {
      var cur, nxt := scratchA, scratchB;
      ghost var steps, sts, x := ChainNow(), Sts(), scratchA[..n];
      assert |lines| == phases.Length == |chain| && cur != nxt && cur !in lines && nxt !in lines && ph.tr.turn > 0.0;
      Started(ph.tr, steps, sts, x);
      hide Wired, StepOut, StepNext, Resolve, ResolveAll, ChainOut, ChainNext, ShapedChain, Halfway;
      for k := 0 to |chain|
        invariant (cur == scratchA && nxt == scratchB) || (cur == scratchB && nxt == scratchA)
        invariant steps == ChainNow() && Halfway(ph.tr, steps, sts, x, cur[..n], Sts(), k)
      {
        ghost var y, now := cur[..n], Sts();
        RunStep(k, cur, nxt, n);
        OneStep(ph.tr, steps, sts, x, y, now, k);
        cur, nxt := nxt, cur;
      }
      result := cur;
      Finished(ph.tr, steps, sts, x, cur[..n], Sts());
    }

    /** The link's value and its control view. */
    ghost function Held(): (h: Holding)
      reads this, Repr
      requires Owned()
      ensures SaneLink(ph, chain, h.value, h.view)
    {
      Holding(Value(), ctl.ControlView())
    }

    /** A slot of the link, for an owner of many links. */
    method Serve(input: seq<Sample>, output: array<Sample>, size: nat) returns (ok: bool)
      requires Owned() && size <= output.Length && output !in Repr
      modifies Repr, output
      ensures Owned() && this in Repr && fresh(Repr - old(Repr))
      ensures ok <==> size == |input|
      ensures var h := old(Held());
        Held() == if ok && size > 0 then h.(value := LinkAfter(ph, rate, chain, h.value, h.view, input)) else h
      ensures ok && size > 0 ==>
                var e := EdgeNow(ph, rate, chain, old(Held()).value, old(Held()).view, size);
                output[..size] == ChainOut(ph.tr, e.chain, e.sts, input)
      ensures output[size..] == old(output[size..])
    {
      ok := ApplyChainToLink(input, output, size);
      Repr := Repr + {scratchA, scratchB};
    }

    /** One slot of the link, into the first `size` samples of `output`. */
    method ApplyChainToLink(input: seq<Sample>, output: array<Sample>, size: nat) returns (ok: bool)
      requires Valid() && size <= output.Length && output !in lines && output != scratchA && output != scratchB
      modifies this, ctl`currentSlot, ctl`forceInertWarnings, scratchA, scratchB, phases, lines, output
      ensures Repr == old(Repr) && Valid() && ctl.ControlView() == old(ctl.ControlView())
      ensures (scratchA == old(scratchA) && scratchB == old(scratchB)) || (fresh(scratchA) && fresh(scratchB))
      ensures ok <==> size == |input|
      ensures !ok || size == 0 ==> Value() == old(Value()) && output[..] == old(output[..])
      ensures ok && size > 0 ==> Value() == LinkAfter(ph, rate, chain, old(Value()), ctl.ControlView(), input)
      ensures ok && size > 0 ==>
                var e := EdgeNow(ph, rate, chain, old(Value()), ctl.ControlView(), size);
                output[..size] == ChainOut(ph.tr, e.chain, e.sts, input)
      ensures output[size..] == old(output[size..])
    {
      if size != |input| {
        return false;
      }
      if size == 0 {
        return true;
      }
      var result := RunSlot(input);
      CopyOut(result, output, size);
      ok := true;
    }

    method RunSlot(input: seq<Sample>) returns (result: array<Sample>)
      requires Valid() && |input| > 0
      modifies this, ctl`currentSlot, ctl`forceInertWarnings, scratchA, scratchB, phases, lines
      ensures Repr == old(Repr) && Valid() && ctl.ControlView() == old(ctl.ControlView())
      ensures (scratchA == old(scratchA) && scratchB == old(scratchB)) || (fresh(scratchA) && fresh(scratchB))
      ensures result == scratchA || result == scratchB
      ensures Value() == LinkAfter(ph, rate, chain, old(Value()), ctl.ControlView(), input)
      ensures |input| <= result.Length
      ensures var e := EdgeNow(ph, rate, chain, old(Value()), ctl.ControlView(), |input|);
        result[..|input|] == ChainOut(ph.tr, e.chain, e.sts, input)
    {
      assert |lines| == phases.Length == |chain| && ph.Valid() && SaneChain(chain);
      ghost var l, c := Value(), ctl.ControlView();
      ghost var e := EdgeNow(ph, rate, chain, l, c, |input|);
      hide Wired, Physics.Valid, SaneChain, DelaysFit, Begun, ResolveAll;
      GrowScratch(|input|);
      BeginSlot(|input|);
      LoadScratch(input);
      assert e.chain == ChainNow() && e.sts == Sts();
      result := RunChain(|input|);
    }

    static method CopyOut(result: array<Sample>, output: array<Sample>, size: nat)
      requires size <= result.Length && size <= output.Length && result != output
      modifies output
      ensures output[..size] == result[..size] && output[size..] == old(output[size..])
    {
      for i := 0 to size
        invariant output[..i] == result[..i] && output[size..] == old(output[size..])
      {
        output[i] := result[i];
      }
    }

    method GrowScratch(n: nat)
      requires Valid()
      modifies this`scratchA, this`scratchB
      ensures Valid() && n <= scratchA.Length && n <= scratchB.Length && scratchA !in lines && scratchB !in lines
      ensures (scratchA == old(scratchA) && scratchB == old(scratchB)) || (fresh(scratchA) && fresh(scratchB))
    {
      if scratchA.Length < n || scratchB.Length < n {
        scratchA := new Sample[n](_ => ZERO);
        scratchB := new Sample[n](_ => ZERO);
      }
    }

    method LoadScratch(input: seq<Sample>)
      requires |input| <= scratchA.Length
      modifies scratchA
      ensures scratchA[..|input|] == input
    {
      for i := 0 to |input|
        invariant scratchA[..i] == input[..i]
      {
        scratchA[i] := input[i];
      }
    }
  }

  ghost predicate Distinct(lines: seq<array<Sample>>) {
    forall j, k :: 0 <= j < k < |lines| ==> lines[j] != lines[k]
  }

  lemma FreshShown(ph: Physics, chain: seq<ModelStep>, sts: seq<StepState>)
    requires |sts| == |chain|
    requires forall k :: 0 <= k < |chain| ==> sts[k].line == FreshStepState(ph, chain[k]).line && sts[k].phase == 0.0
    ensures LinkValue(Untouched(YamlParams(chain)), sts) == FreshLink(ph, chain)
  {
  }

  lemma TurnAt(tr: Trig, fixed: real, increment: real, start: real, x: seq<Sample>, n: nat)
    requires tr.turn > 0.0 && n < |x|
    ensures StepOut(tr, Turn(fixed, increment), StepState([], start), x)[n] ==
            Rotate(x[n], tr.rot(fixed + PhaseAt(tr, start, increment, n)))
  {
  }

  /** After `k` steps on `x`: the signal so far is `y`, the states so far `now`. */
  ghost predicate Halfway(tr: Trig, steps: seq<Step>, sts: seq<StepState>, x: seq<Sample>,
                          y: seq<Sample>, now: seq<StepState>, k: nat)
  {
    && tr.turn > 0.0 && ShapedChain(steps) && |steps| == |sts| == |now| && k <= |steps| && now[k..] == sts[k..]
    && ChainOut(tr, steps, sts, x) == ChainOut(tr, steps[k..], sts[k..], y)
    && ChainNext(tr, steps, sts, x) == now[..k] + ChainNext(tr, steps[k..], sts[k..], y)
  }

  lemma Started(tr: Trig, steps: seq<Step>, sts: seq<StepState>, x: seq<Sample>)
    requires tr.turn > 0.0 && ShapedChain(steps) && |steps| == |sts|
    ensures Halfway(tr, steps, sts, x, x, sts, 0)
  {
    assert steps[0..] == steps && sts[0..] == sts;
  }

  lemma OneStep(tr: Trig, steps: seq<Step>, sts: seq<StepState>, x: seq<Sample>, y: seq<Sample>, now: seq<StepState>, k: nat)
    requires Halfway(tr, steps, sts, x, y, now, k) && k < |steps|
    ensures Halfway(tr, steps, sts, x, StepOut(tr, steps[k], now[k], y), now[k := StepNext(tr, steps[k], now[k], y)], k + 1)
  {
    hide StepOut, StepNext;
    var y', t := StepOut(tr, steps[k], now[k], y), StepNext(tr, steps[k], now[k], y);
    SliceStep(steps, sts, now, t, k);
    ChainStep(tr, steps[k..], sts[k..], y);
    assert now[k := t][..k + 1] + ChainNext(tr, steps[k + 1..], sts[k + 1..], y') ==
           now[..k] + ([t] + ChainNext(tr, steps[k + 1..], sts[k + 1..], y'));
  }

  lemma SliceStep(steps: seq<Step>, sts: seq<StepState>, now: seq<StepState>, t: StepState, k: nat)
    requires k < |steps| == |sts| == |now| && now[k..] == sts[k..]
    ensures now[k] == sts[k] && steps[k..][1..] == steps[k + 1..] && sts[k..][1..] == sts[k + 1..]
    ensures now[k := t][..k + 1] == now[..k] + [t] && now[k := t][k + 1..] == sts[k + 1..]
  {
    assert now[k..][0] == sts[k..][0];
    assert now[k := t][k + 1..] == now[k..][1..];
  }

  lemma ChainStep(tr: Trig, steps: seq<Step>, sts: seq<StepState>, y: seq<Sample>)
    requires tr.turn > 0.0 && ShapedChain(steps) && |steps| == |sts| > 0
    ensures steps[0].Shaped() && ShapedChain(steps[1..])
    ensures ChainOut(tr, steps, sts, y) == ChainOut(tr, steps[1..], sts[1..], StepOut(tr, steps[0], sts[0], y))
    ensures ChainNext(tr, steps, sts, y) ==
            [StepNext(tr, steps[0], sts[0], y)] + ChainNext(tr, steps[1..], sts[1..], StepOut(tr, steps[0], sts[0], y))
  {
  }

  lemma Finished(tr: Trig, steps: seq<Step>, sts: seq<StepState>, x: seq<Sample>, y: seq<Sample>, now: seq<StepState>)
    requires Halfway(tr, steps, sts, x, y, now, |steps|)
    ensures ShapedChain(steps) && |steps| == |sts| && tr.turn > 0.0
    ensures ChainOut(tr, steps, sts, x) == y && ChainNext(tr, steps, sts, x) == now
  {
  }
}

/**
 Links that share a key on the CUDA backend's device (src/cuda_backend.cu:394-405, 506-515, 656-811): the
 host state with the oscillators is looked up by key, but every edge has a device struct, and so a delay
 line, of its own.  Exactly when the sharing can be heard.
 */
module DeviceKeys {
  import opened Iq
  import opened Phase
  import opened Chain
  import opened Relay
  import opened Fused
  import opened FusedProof
  import opened Receiver
  import opened LeadChains
  import opened Forgetful
  import Tdl
  import TdlStream
  import TdlResponse

  /** Edge `k` stages its window through `devs[k]` and takes its oscillators from under `keys[k]`. */
  datatype DeviceNode<!Key(==)> =
    DeviceNode(keys: seq<Key>, chains: seq<seq<Step>>, phases: map<Key, seq<real>>, devs: seq<DevLink>)
  {
    predicate Shaped() {
      && |keys| == |chains| == |devs|
      && (forall k :: 0 <= k < |keys| ==>
            keys[k] in phases && ShapedChain(chains[k]) && LeadingOnly(chains[k]) && |phases[keys[k]]| == |chains[k]| && devs[k].Shaped())
      && forall j, k :: 0 <= j < |keys| && 0 <= k < |keys| && keys[j] == keys[k] ==> chains[j] == chains[k]
    }
  }

  predicate Handed(xs: seq<seq<Sample>>, edges: nat, count: nat) {
    |xs| == edges && forall k :: 0 <= k < |xs| ==> |xs[k]| == count
  }

  /** The oscillators after the host has built the steps of the first `n` edges. */
  function PhasesRun<Key>(tr: Trig, m: DeviceNode<Key>, count: nat, n: nat): (p: map<Key, seq<real>>)
    requires tr.turn > 0.0 && m.Shaped() && n <= |m.keys|
    ensures forall k :: 0 <= k < |m.keys| ==> m.keys[k] in p && |p[m.keys[k]]| == |m.chains[k]|
  {
    if n == 0 then m.phases
    else
      var p := PhasesRun(tr, m, count, n - 1);
      p[m.keys[n - 1] := NextPhases(tr, m.chains[n - 1], p[m.keys[n - 1]], count)]
  }

  function Outs<Key>(tr: Trig, m: DeviceNode<Key>, xs: seq<seq<Sample>>, count: nat): (ys: seq<seq<Sample>>)
    requires tr.turn > 0.0 && m.Shaped() && Handed(xs, |m.keys|, count)
    ensures |ys| == |xs| && forall k :: 0 <= k < |ys| ==> |ys[k]| == count
  {
    seq(|xs|, k requires 0 <= k < |xs| =>
      TableOut(tr, BuildTable(m.chains[k], PhasesRun(tr, m, count, k)[m.keys[k]]), Staged(m.devs[k], xs[k])))
  }

  function Served<Key>(tr: Trig, m: DeviceNode<Key>, xs: seq<seq<Sample>>, count: nat): (m': DeviceNode<Key>)
    requires tr.turn > 0.0 && m.Shaped() && Handed(xs, |m.keys|, count)
    ensures m'.Shaped() && m'.keys == m.keys && m'.chains == m.chains
  {
    m.(phases := PhasesRun(tr, m, count, |m.keys|), devs := seq(|xs|, k requires 0 <= k < |xs| => NextDevLink(m.devs[k], xs[k])))
  }

  /** The same edges with oscillators of their own. */
  function Own<Key>(m: DeviceNode<Key>): (o: DeviceNode<nat>)
    requires m.Shaped()
    ensures o.Shaped() && |o.keys| == |m.keys| && o.chains == m.chains && o.devs == m.devs
    ensures forall k :: 0 <= k < |m.keys| ==> o.keys[k] == k && o.phases[k] == m.phases[m.keys[k]]
  {
    DeviceNode(seq(|m.keys|, k => k), m.chains, map k: nat | k < |m.keys| :: m.phases[m.keys[k]], m.devs)
  }

  ghost predicate AllHanded(log: seq<Serve>, edges: nat) {
    forall n :: 0 <= n < |log| ==> Handed(log[n].inputs, edges, log[n].count)
  }

  ghost function NodeAfter<Key>(tr: Trig, m: DeviceNode<Key>, log: seq<Serve>): (m': DeviceNode<Key>)
    requires tr.turn > 0.0 && m.Shaped() && AllHanded(log, |m.keys|)
    ensures m'.Shaped() && m'.keys == m.keys && m'.chains == m.chains
    decreases |log|
  {
    if log == [] then m
    else
      var last := log[|log| - 1];
      Served(tr, NodeAfter(tr, m, log[..|log| - 1]), last.inputs, last.count)
  }

  ghost function Sums<Key>(tr: Trig, m: DeviceNode<Key>, log: seq<Serve>): (x: seq<Sample>)
    requires tr.turn > 0.0 && m.Shaped() && AllHanded(log, |m.keys|)
    decreases |log|
  {
    if log == [] then []
    else
      var rest, last := log[..|log| - 1], log[|log| - 1];
      Sums(tr, m, rest) + Mix(Outs(tr, NodeAfter(tr, m, rest), last.inputs, last.count), last.count)
  }

  /** A key names the source, so links with one key are handed one window. */
  ghost predicate OneSource<Key>(keys: seq<Key>, log: seq<Serve>) {
    forall n :: 0 <= n < |log| ==> SameWindows(keys, log[n].inputs)
  }

  ghost predicate Alike<Key>(tr: Trig, m: DeviceNode<Key>)
    requires tr.turn > 0.0 && m.Shaped()
  {
    forall log :: AllHanded(log, |m.keys|) && OneSource(m.keys, log) ==> Sums(tr, m, log) == Sums(tr, Own(m), log)
  }

  /** Anything handed to the struct can be heard: it is a wire, or holds taps that are not silent. */
  ghost predicate Hears(d: DevLink)
    requires d.Shaped()
  {
    d.hasTdl ==> !SilentTaps(d.taps, d.poly)
  }

  /** Freshly prepared: oscillators at rest, delay lines empty, links of one key set up alike. */
  ghost predicate Fresh<Key>(m: DeviceNode<Key>) {
    && m.Shaped()
    && (forall k :: 0 <= k < |m.keys| ==>
          && m.phases[m.keys[k]] == AtRest(|m.chains[k]|) && Factor(Back(m.chains[k])) != 0.0
          && m.devs[k].line == Zeros(|m.devs[k].line|) && (m.devs[k].hasTdl ==> Tdl.Covers(m.devs[k].taps, |m.devs[k].line|)))
    && forall j, k :: 0 <= j < |m.keys| && 0 <= k < |m.keys| && m.keys[j] == m.keys[k] ==>
         m.devs[j].(src := 0) == m.devs[k].(src := 0)
  }

  // ---- Oscillators under a key --------------------------------------------------------------------------------

  /** Every oscillator has turned by `n` samples. */
  ghost predicate Turned(tr: Trig, chain: seq<Step>, phases: seq<real>, n: nat) {
    |phases| == |chain| && forall k :: 0 <= k < |chain| && chain[k].Turn? ==> tr.Congruent(phases[k], Angle(n, chain[k].increment))
  }

  lemma TurnedNext(tr: Trig, chain: seq<Step>, phases: seq<real>, n: nat, count: nat)
    requires tr.turn > 0.0 && Turned(tr, chain, phases, n)
    ensures Turned(tr, chain, NextPhases(tr, chain, phases, count), n + count)
  {
    hide Trig.Congruent, Angle, Fmod;
    var next := NextPhases(tr, chain, phases, count);
    forall k | 0 <= k < |chain| && chain[k].Turn? ensures tr.Congruent(next[k], Angle(n + count, chain[k].increment)) {
      var inc := chain[k].increment;
      FmodCongruent(tr, phases[k] + Angle(count, inc));
      Shifted(tr, phases[k], Angle(n, inc), Angle(count, inc));
      AngleSum(n, count, inc);
      Transitive(tr, next[k], phases[k] + Angle(count, inc), Angle(n, inc) + Angle(count, inc));
    }
  }

  /** Its table weighs a staged sample. */
  lemma TurnedTable(tr: Trig, chain: seq<Step>, phases: seq<real>, n: nat, i: nat, at: nat, v: Sample)
    requires Circular(tr) && ShapedChain(chain) && LeadingOnly(chain) && Turned(tr, chain, phases, n) && at == n + i
    ensures ApplySteps(tr, BuildTable(chain, phases), i, v) == Weighed(tr, chain, v, at)
  {
    hide Circular, Coefficient, Rotate, ApplySteps, Trig.Congruent, BuildTable;
    if LeadsWithTaps(chain) {
      UnitScale(tr, chain, phases, i, v);
      TurnedTail(tr, chain, phases, n);
    }
    BackIsPerSample(chain);
    BackTable(tr, Back(chain), if LeadsWithTaps(chain) then phases[1..] else phases, n, i, at, v);
  }

  lemma TurnedTail(tr: Trig, chain: seq<Step>, phases: seq<real>, n: nat)
    requires chain != [] && Turned(tr, chain, phases, n)
    ensures Turned(tr, chain[1..], phases[1..], n)
  {
    hide Trig.Congruent, Angle;
    forall k | 0 <= k < |chain| - 1 && chain[1..][k].Turn?
      ensures tr.Congruent(phases[1..][k], Angle(n, chain[1..][k].increment))
    {
      assert chain[k + 1].Turn?;
    }
  }

  lemma BackTable(tr: Trig, chain: seq<Step>, phases: seq<real>, n: nat, i: nat, at: nat, v: Sample)
    requires Circular(tr) && ShapedChain(chain) && PerSample(chain) && Turned(tr, chain, phases, n) && at == n + i
    ensures ApplySteps(tr, BuildTable(chain, phases), i, v) == Rotate(v, Coefficient(tr, chain, at))
  {
    hide Circular, Coefficient, Rotate, ApplySteps, Trig.Periodic, ChainOut, ChainNext, BuildTable, PerSample, ShapedChain;
    var x := seq(i + 1, _ => v);
    var sts := seq(|chain|, k requires 0 <= k < |phases| => StepState([], phases[k]));
    Configured.RotatesPeriodically(tr);
    SamePhases(tr, chain, sts, phases);
    ChainAgrees(tr, chain, sts, phases, x, i);
    BackOut(tr, chain, sts, n, x);
    FactoredAt(tr, chain, x, ChainOut(tr, chain, sts, x), n, i, at);
  }

  lemma SamePhases(tr: Trig, chain: seq<Step>, sts: seq<StepState>, phases: seq<real>)
    requires |chain| == |sts| == |phases| && forall k :: 0 <= k < |chain| ==> sts[k].phase == phases[k]
    ensures PhasesMatch(tr, chain, sts, phases)
  {
    hide Trig.Congruent;
    forall k | 0 <= k < |chain| ensures PhaseMatches(tr, chain[k], sts[k], phases[k]) {
      Reflexive(tr, phases[k]);
    }
  }

  /** Samples the oscillators of edge `k` have turned by when the first `n` edges have been built. */
  function Ahead<Key(==)>(keys: seq<Key>, key: Key, count: nat, n: nat): nat
    requires n <= |keys|
  {
    if n == 0 then 0 else Ahead(keys, key, count, n - 1) + if keys[n - 1] == key then count else 0
  }

  lemma {:induction false} RunTurned<Key>(tr: Trig, m: DeviceNode<Key>, count: nat, n: nat, k: nat, a: nat)
    requires tr.turn > 0.0 && m.Shaped() && n <= |m.keys| && k < |m.keys| && Turned(tr, m.chains[k], m.phases[m.keys[k]], a)
    ensures Turned(tr, m.chains[k], PhasesRun(tr, m, count, n)[m.keys[k]], a + Ahead(m.keys, m.keys[k], count, n))
  {
    hide Turned, NextPhases, ShapedChain, LeadingOnly;
    if n > 0 {
      RunTurned(tr, m, count, n - 1, k, a);
      if m.keys[n - 1] == m.keys[k] {
        assert m.chains[n - 1] == m.chains[k];
        TurnedNext(tr, m.chains[k], PhasesRun(tr, m, count, n - 1)[m.keys[k]], a + Ahead(m.keys, m.keys[k], count, n - 1), count);
      }
    }
  }

  /** What edge `k` sends when its oscillators have turned by `a`. */
  lemma OutAt<Key>(tr: Trig, m: DeviceNode<Key>, xs: seq<seq<Sample>>, count: nat, k: nat, a: nat, i: nat, at: nat)
    requires Circular(tr) && tr.turn > 0.0 && m.Shaped() && Handed(xs, |m.keys|, count) && k < |m.keys| && i < count
    requires Turned(tr, m.chains[k], m.phases[m.keys[k]], a) && at == a + Ahead(m.keys, m.keys[k], count, k) + i
    ensures Outs(tr, m, xs, count)[k][i] == Weighed(tr, m.chains[k], Staged(m.devs[k], xs[k])[i], at)
  {
    hide Circular, Turned, ShapedChain, LeadingOnly, Weighed, Staged, PhasesRun, BuildTable, ApplySteps;
    RunTurned(tr, m, count, k, k, a);
    TurnedTable(tr, m.chains[k], PhasesRun(tr, m, count, k)[m.keys[k]], a + Ahead(m.keys, m.keys[k], count, k), i, at,
                Staged(m.devs[k], xs[k])[i]);
  }

  // ---- No drift, no difference ----------------------------------------------------------------------------------

  /** Links that share oscillators and can be heard turn by whole turns per sample. */
  ghost predicate Steady<Key>(tr: Trig, m: DeviceNode<Key>)
    requires m.Shaped()
  {
    forall k :: 0 <= k < |m.keys| && Repeated(m.keys, k) && Hears(m.devs[k]) ==> tr.Congruent(Drift(Back(m.chains[k])), 0.0)
  }

  ghost predicate SomehowTurned(tr: Trig, chain: seq<Step>, phases: seq<real>) {
    exists n: nat :: Turned(tr, chain, phases, n)
  }

  /** Shared oscillators and edges' own. */
  ghost predicate Abreast<Key>(tr: Trig, m: DeviceNode<Key>, o: DeviceNode<nat>) {
    && m.Shaped() && o.Shaped() && m.chains == o.chains && m.devs == o.devs && |m.keys| == |o.keys|
    && forall k :: 0 <= k < |m.keys| ==>
         && o.keys[k] == k && SomehowTurned(tr, m.chains[k], m.phases[m.keys[k]]) && SomehowTurned(tr, m.chains[k], o.phases[k])
         && (!Repeated(m.keys, k) ==> m.phases[m.keys[k]] == o.phases[k])
  }

  lemma SomehowNext(tr: Trig, chain: seq<Step>, phases: seq<real>, count: nat)
    requires tr.turn > 0.0 && SomehowTurned(tr, chain, phases)
    ensures |phases| == |chain| && SomehowTurned(tr, chain, NextPhases(tr, chain, phases, count))
  {
    var n: nat :| Turned(tr, chain, phases, n);
    TurnedNext(tr, chain, phases, n, count);
  }

  lemma {:induction false} RunAbreast<Key>(tr: Trig, m: DeviceNode<Key>, count: nat, n: nat, k: nat)
    requires tr.turn > 0.0 && m.Shaped() && n <= |m.keys| && k < |m.keys| && SomehowTurned(tr, m.chains[k], m.phases[m.keys[k]])
    ensures var p := PhasesRun(tr, m, count, n)[m.keys[k]];
      && SomehowTurned(tr, m.chains[k], p)
      && (!Repeated(m.keys, k) ==>
            p == if k < n then NextPhases(tr, m.chains[k], m.phases[m.keys[k]], count) else m.phases[m.keys[k]])
  {
    hide SomehowTurned, NextPhases, ShapedChain, LeadingOnly;
    if n > 0 {
      RunAbreast(tr, m, count, n - 1, k);
      if m.keys[n - 1] == m.keys[k] {
        assert m.chains[n - 1] == m.chains[k];
        SomehowNext(tr, m.chains[k], PhasesRun(tr, m, count, n - 1)[m.keys[k]], count);
      }
    }
  }

  /** On two tables of one chain a staged sample comes out the same. */
  lemma TablesAlike(tr: Trig, chain: seq<Step>, p: seq<real>, q: seq<real>, i: nat, v: Sample)
    requires Circular(tr) && ShapedChain(chain) && LeadingOnly(chain) && SomehowTurned(tr, chain, p) && SomehowTurned(tr, chain, q)
    requires v == ZERO || tr.Congruent(Drift(Back(chain)), 0.0)
    ensures |p| == |q| == |chain| && ApplySteps(tr, BuildTable(chain, p), i, v) == ApplySteps(tr, BuildTable(chain, q), i, v)
  {
    hide Circular, ShapedChain, LeadingOnly, BuildTable, ApplySteps, Trig.Congruent, Coefficient, Rotate, Drift;
    var n: nat :| Turned(tr, chain, p, n);
    var n': nat :| Turned(tr, chain, q, n');
    TurnedTable(tr, chain, p, n, i, n + i, v);
    TurnedTable(tr, chain, q, n', i, n' + i, v);
    if v == ZERO {
      NothingWeighed(tr, chain, n + i);
      NothingWeighed(tr, chain, n' + i);
    } else {
      NoDrift(tr, Back(chain), n + i);
      NoDrift(tr, Back(chain), n' + i);
    }
  }

  lemma Unheard(d: DevLink, x: seq<Sample>, i: nat)
    requires d.Shaped() && !Hears(d) && i < |x|
    ensures Staged(d, x)[i] == ZERO
  {
    hide SilentTaps, Tdl.SlotOut;
    SilentFront(d.taps, d.poly, d.line, x, i);
  }

  lemma EdgeAlike<Key>(tr: Trig, m: DeviceNode<Key>, o: DeviceNode<nat>, xs: seq<seq<Sample>>, count: nat, k: nat)
    requires Circular(tr) && tr.turn > 0.0 && Abreast(tr, m, o) && Steady(tr, m) && Handed(xs, |m.keys|, count) && k < |m.keys|
    ensures Outs(tr, m, xs, count)[k] == Outs(tr, o, xs, count)[k]
  {
    hide Circular, ShapedChain, LeadingOnly, BuildTable, ApplySteps, Trig.Congruent, Staged, SomehowTurned, PhasesRun, Repeated, Hears;
    RunAbreast(tr, m, count, k, k);
    OwnKeys(o);
    RunAbreast(tr, o, count, k, k);
    var y, y' := Outs(tr, m, xs, count)[k], Outs(tr, o, xs, count)[k];
    if Repeated(m.keys, k) {
      forall i | 0 <= i < count ensures y[i] == y'[i] {
        if !Hears(m.devs[k]) {
          Unheard(m.devs[k], xs[k], i);
        }
        TablesAlike(tr, m.chains[k], PhasesRun(tr, m, count, k)[m.keys[k]], PhasesRun(tr, o, count, k)[k], i, Staged(m.devs[k], xs[k])[i]);
      }
    }
  }

  lemma OwnKeys(o: DeviceNode<nat>)
    requires forall k :: 0 <= k < |o.keys| ==> o.keys[k] == k
    ensures forall k :: 0 <= k < |o.keys| ==> !Repeated(o.keys, k)
  {
  }

  lemma ServeAbreast<Key>(tr: Trig, m: DeviceNode<Key>, o: DeviceNode<nat>, xs: seq<seq<Sample>>, count: nat)
    requires Circular(tr) && tr.turn > 0.0 && Abreast(tr, m, o) && Steady(tr, m) && Handed(xs, |m.keys|, count)
    ensures Outs(tr, m, xs, count) == Outs(tr, o, xs, count)
    ensures Abreast(tr, Served(tr, m, xs, count), Served(tr, o, xs, count)) && Steady(tr, Served(tr, m, xs, count))
  {
    hide Circular, ShapedChain, LeadingOnly, Trig.Congruent, SomehowTurned, PhasesRun, Repeated, Outs, NextPhases;
    OwnKeys(o);
    forall k: nat | k < |m.keys|
      ensures Outs(tr, m, xs, count)[k] == Outs(tr, o, xs, count)[k]
      ensures SomehowTurned(tr, m.chains[k], PhasesRun(tr, m, count, |m.keys|)[m.keys[k]])
      ensures SomehowTurned(tr, m.chains[k], PhasesRun(tr, o, count, |m.keys|)[k])
      ensures !Repeated(m.keys, k) ==> PhasesRun(tr, m, count, |m.keys|)[m.keys[k]] == PhasesRun(tr, o, count, |m.keys|)[k]
    {
      EdgeAlike(tr, m, o, xs, count, k);
      RunAbreast(tr, m, count, |m.keys|, k);
      RunAbreast(tr, o, count, |m.keys|, k);
    }
  }

  lemma FreshAbreast<Key>(tr: Trig, m: DeviceNode<Key>)
    requires Fresh(m)
    ensures Abreast(tr, m, Own(m))
  {
    hide Trig.Congruent, Factor, Tdl.Covers;
    forall k | 0 <= k < |m.keys| ensures SomehowTurned(tr, m.chains[k], m.phases[m.keys[k]]) {
      AtRestTurned(tr, m.chains[k]);
    }
  }

  lemma AtRestTurned(tr: Trig, chain: seq<Step>)
    ensures Turned(tr, chain, AtRest(|chain|), 0)
  {
    Reflexive(tr, 0.0);
    assert forall k :: 0 <= k < |chain| && chain[k].Turn? ==> Angle(0, chain[k].increment) == 0.0;
  }

  lemma {:induction false} SteadySums<Key>(tr: Trig, m: DeviceNode<Key>, log: seq<Serve>)
    requires Circular(tr) && tr.turn > 0.0 && m.Shaped() && Fresh(m) && Steady(tr, m) && AllHanded(log, |m.keys|)
    ensures Sums(tr, m, log) == Sums(tr, Own(m), log)
    ensures Abreast(tr, NodeAfter(tr, m, log), NodeAfter(tr, Own(m), log)) && Steady(tr, NodeAfter(tr, m, log))
    decreases |log|
  {
    hide Circular, Outs, Served, Mix, Abreast, Steady, Fresh, Own, DeviceNode.Shaped;
    if log == [] {
      FreshAbreast(tr, m);
    } else {
      var rest, last := log[..|log| - 1], log[|log| - 1];
      SteadySums(tr, m, rest);
      ServeAbreast(tr, NodeAfter(tr, m, rest), NodeAfter(tr, Own(m), rest), last.inputs, last.count);
    }
  }

  // ---- A tone tells ------------------------------------------------------------------------------------------------

  /** An impulse at `p` is heard as `v` at `i`, whatever the window's length. */
  ghost predicate Tone(d: DevLink, p: nat, i: nat, v: Sample)
    requires d.Shaped()
  {
    v != ZERO && forall l: nat :: p < l && i < l ==> Staged(d, TdlResponse.Impulse(p, l))[i] == v
  }

  lemma ImpulseAt(taps: seq<Tdl.Tap>, poly: seq<seq<real>>, r: nat, p: nat, l: nat, i: nat)
    requires Tdl.Shaped(taps, poly) && Tdl.Covers(taps, r) && p < l && i < l
    ensures Tdl.SlotOut(taps, poly, Zeros(r), TdlResponse.Impulse(p, l))[i] == TdlResponse.Response(taps, poly, i - p)
  {
    hide *;
    var x := TdlResponse.Impulse(p, l);
    TdlResponse.NoHistory(r);
    assert [] + x == x;
    TdlStream.SlotSample(taps, poly, [], x, r, i);
    TdlResponse.PulseWhole(taps, poly, x, p, i);
  }

  lemma FindTone(d: DevLink) returns (p: nat, i: nat, v: Sample)
    requires d.Shaped() && Hears(d) && d.line == Zeros(|d.line|) && (d.hasTdl ==> Tdl.Covers(d.taps, |d.line|))
    ensures Tone(d, p, i, v)
  {
    hide Tdl.SlotOut, TdlResponse.Response, Tdl.Covers, Tdl.Shaped, TdlResponse.Impulse;
    p, i, v := 0, 0, TdlResponse.ONE;
    if d.hasTdl {
      var m :| TdlResponse.Response(d.taps, d.poly, m) != ZERO;
      p, v := if m < 0 then 0 - m else 0, TdlResponse.Response(d.taps, d.poly, m);
      i := m + p;
      forall l: nat | p < l && i < l ensures Staged(d, TdlResponse.Impulse(p, l))[i] == v {
        ImpulseAt(d.taps, d.poly, |d.line|, p, l, i);
      }
    } else {
      forall l: nat | 0 < l ensures TdlResponse.Impulse(0, l)[0] == TdlResponse.ONE {
        assert At(TdlResponse.Impulse(0, l), 0) == TdlResponse.Pulse(0, TdlResponse.ONE)(0);
      }
    }
  }

  lemma SilentStruct(d: DevLink, l: nat, i: nat)
    requires d.Shaped() && d.line == Zeros(|d.line|) && i < l
    ensures Staged(d, Zeros(l))[i] == ZERO
  {
    hide Tdl.Conv, Tdl.Shaped;
    if d.hasTdl {
      TdlResponse.SilentOut(k => Tdl.Read(Zeros(|d.line|), Zeros(l), k), d.taps, d.poly, i);
    }
  }

  lemma {:induction false} AheadOnce<Key>(keys: seq<Key>, key: Key, count: nat, n: nat)
    requires n <= |keys|
    ensures Count(keys, key, n) == 0 ==> Ahead(keys, key, count, n) == 0
    ensures Count(keys, key, n) == 1 ==> Ahead(keys, key, count, n) == count
  {
    if n > 0 {
      AheadOnce(keys, key, count, n - 1);
    }
  }

  lemma {:induction false} AheadNone<Key>(keys: seq<Key>, key: Key, count: nat, n: nat)
    requires n <= |keys| && forall j :: 0 <= j < n ==> keys[j] != key
    ensures Ahead(keys, key, count, n) == 0
  {
    if n > 0 {
      AheadNone(keys, key, count, n - 1);
    }
  }

  lemma OneServe<Key>(tr: Trig, m: DeviceNode<Key>, xs: seq<seq<Sample>>, count: nat)
    requires tr.turn > 0.0 && m.Shaped() && Handed(xs, |m.keys|, count)
    ensures AllHanded([Serve(count, xs)], |m.keys|)
    ensures Sums(tr, m, [Serve(count, xs)]) == Mix(Outs(tr, m, xs, count), count)
  {
    hide Outs, Mix, DeviceNode.Shaped;
    assert [Serve(count, xs)][..0] == [];
    assert NodeAfter(tr, m, []) == m && Sums(tr, m, []) == [];
  }

  /** A first serve. */
  lemma FirstServe<Key>(tr: Trig, m: DeviceNode<Key>, xs: seq<seq<Sample>>, count: nat)
    requires tr.turn > 0.0 && m.Shaped() && Alike(tr, m) && Handed(xs, |m.keys|, count) && SameWindows(m.keys, xs)
    ensures Mix(Outs(tr, m, xs, count), count) == Mix(Outs(tr, Own(m), xs, count), count)
  {
    hide Outs, Mix, Own, DeviceNode.Shaped, Sums;
    OneServe(tr, m, xs, count);
    OneServe(tr, Own(m), xs, count);
    assert OneSource(m.keys, [Serve(count, xs)]);
  }

  lemma FreshEdge<Key>(tr: Trig, m: DeviceNode<Key>, e: nat)
    requires Fresh(m) && e < |m.keys|
    ensures m.Shaped() && Turned(tr, m.chains[e], m.phases[m.keys[e]], 0) && Turned(tr, Own(m).chains[e], Own(m).phases[e], 0)
    ensures m.devs[e].Shaped() && m.devs[e].line == Zeros(|m.devs[e].line|)
  {
    AtRestTurned(tr, m.chains[e]);
    hide Turned, Factor, Tdl.Covers;
  }

  /** What edge `e` stages when the key of link `k` is called. */
  lemma CallStaged<Key>(m: DeviceNode<Key>, k: nat, p: nat, l: nat, i: nat, v: Sample, e: nat)
    requires m.Shaped() && Fresh(m) && k < |m.keys| && e < |m.keys| && Tone(m.devs[k], p, i, v) && p < l && i < l
    ensures m.devs[e].Shaped() && |m.keys| == |m.chains| && (m.keys[e] == m.keys[k] ==> m.chains[e] == m.chains[k])
    ensures Staged(m.devs[e], Call(m.keys, k, TdlResponse.Impulse(p, l))[e])[i] == if m.keys[e] == m.keys[k] then v else ZERO
  {
    hide Staged, Fresh, TdlResponse.Impulse;
    if m.keys[e] == m.keys[k] {
      SameStruct(m, e, k, TdlResponse.Impulse(p, l), i);
    } else {
      FreshLine(m, e);
      SilentStruct(m.devs[e], l, i);
    }
  }

  lemma FreshLine<Key>(m: DeviceNode<Key>, e: nat)
    requires Fresh(m) && e < |m.keys|
    ensures m.Shaped() && m.devs[e].line == Zeros(|m.devs[e].line|)
  {
  }

  /** Edge `e` when the key of link `k` is called, with shared oscillators ... */
  lemma CallShared<Key>(tr: Trig, m: DeviceNode<Key>, k: nat, p: nat, l: nat, i: nat, v: Sample, e: nat)
    requires Circular(tr) && tr.turn > 0.0 && m.Shaped() && Fresh(m) && k < |m.keys| == |m.chains| && e < |m.keys|
    requires Tone(m.devs[k], p, i, v) && p < l && i < l && Handed(Call(m.keys, k, TdlResponse.Impulse(p, l)), |m.keys|, l)
    ensures Outs(tr, m, Call(m.keys, k, TdlResponse.Impulse(p, l)), l)[e][i] ==
            if m.keys[e] == m.keys[k] then Weighed(tr, m.chains[k], v, Ahead(m.keys, m.keys[e], l, e) + i) else ZERO
  {
    hide *;
    var at := Ahead(m.keys, m.keys[e], l, e) + i;
    FreshEdge(tr, m, e);
    CallStaged(m, k, p, l, i, v, e);
    OutAt(tr, m, Call(m.keys, k, TdlResponse.Impulse(p, l)), l, e, 0, i, at);
    NothingWeighed(tr, m.chains[e], at);
  }

  /** ... and with its own. */
  lemma CallOwn<Key>(tr: Trig, m: DeviceNode<Key>, k: nat, p: nat, l: nat, i: nat, v: Sample, e: nat)
    requires Circular(tr) && tr.turn > 0.0 && m.Shaped() && Fresh(m) && k < |m.keys| == |m.chains| && e < |m.keys|
    requires Tone(m.devs[k], p, i, v) && p < l && i < l && Handed(Call(m.keys, k, TdlResponse.Impulse(p, l)), |m.keys|, l)
    ensures Outs(tr, Own(m), Call(m.keys, k, TdlResponse.Impulse(p, l)), l)[e][i] ==
            if m.keys[e] == m.keys[k] then Weighed(tr, m.chains[k], v, i) else ZERO
  {
    hide *;
    FreshEdge(tr, m, e);
    CallStaged(m, k, p, l, i, v, e);
    AheadNone(Own(m).keys, e, l, e);
    OutAt(tr, Own(m), Call(m.keys, k, TdlResponse.Impulse(p, l)), l, e, 0, i, i);
    NothingWeighed(tr, m.chains[e], i);
  }

  lemma SameStruct<Key>(m: DeviceNode<Key>, e: nat, k: nat, x: seq<Sample>, i: nat)
    requires m.Shaped() && Fresh(m) && e < |m.keys| && k < |m.keys| && m.keys[e] == m.keys[k] && i < |x|
    ensures m.chains[e] == m.chains[k] && Staged(m.devs[e], x)[i] == Staged(m.devs[k], x)[i]
  {
    hide Tdl.SlotOut, Factor, Tdl.Covers;
    assert m.devs[e].(src := 0) == m.devs[k].(src := 0);
  }

  lemma TonesTame<Key>(tr: Trig, m: DeviceNode<Key>, k: nat, p: nat, l: nat, i: nat, v: Sample, j: nat)
    requires OnCircle(tr) && tr.turn > 0.0 && m.Shaped() && Fresh(m) && k < |m.keys| == |m.chains| && Tone(m.devs[k], p, i, v)
    requires p < l && i < l && j < |m.keys| && Handed(Call(m.keys, k, TdlResponse.Impulse(p, l)), |m.keys|, l)
    ensures Tame(Outs(tr, m, Call(m.keys, k, TdlResponse.Impulse(p, l)), l)[j][i],
                 Outs(tr, Own(m), Call(m.keys, k, TdlResponse.Impulse(p, l)), l)[j][i], Weighed(tr, m.chains[k], v, i))
  {
    hide *;
    Round(tr);
    CallShared(tr, m, k, p, l, i, v, j);
    CallOwn(tr, m, k, p, l, i, v, j);
    BothSilent(Weighed(tr, m.chains[k], v, i));
    WeighedAlike(tr, m.chains[k], v, Ahead(m.keys, m.keys[j], l, j) + i, i);
  }

  /** The second link with the key turns a tone as the first does. */
  lemma SecondTells<Key>(tr: Trig, m: DeviceNode<Key>, k: nat, p: nat, l: nat, i: nat, v: Sample, e: nat)
    requires OnCircle(tr) && tr.turn > 0.0 && m.Shaped() && Fresh(m) && Alike(tr, m) && k < |m.keys| == |m.chains|
    requires Tone(m.devs[k], p, i, v) && p < l && i < l && e < |m.keys| && m.keys[e] == m.keys[k] && Rank(m.keys, e) == 1
    ensures Weighed(tr, m.chains[k], v, l + i) == Weighed(tr, m.chains[k], v, i)
  {
    hide *;
    Round(tr);
    var xs, w := Call(m.keys, k, TdlResponse.Impulse(p, l)), Weighed(tr, m.chains[k], v, i);
    assert Handed(xs, |m.keys|, l) by { CallHanded(m.keys, k, TdlResponse.Impulse(p, l)); }
    FirstServe(tr, m, xs, l);
    var ys, zs := Outs(tr, m, xs, l), Outs(tr, Own(m), xs, l);
    forall j | 0 <= j < |m.keys| ensures Tame(ys[j][i], zs[j][i], w) {
      TonesTame(tr, m, k, p, l, i, v, j);
    }
    CallShared(tr, m, k, p, l, i, v, e);
    CallOwn(tr, m, k, p, l, i, v, e);
    RankAhead(m.keys, e, l);
    SumTells(ys, zs, l, i, w, e);
  }

  lemma CallHanded<Key>(keys: seq<Key>, k: nat, x: seq<Sample>)
    requires k < |keys|
    ensures Handed(Call(keys, k, x), |keys|, |x|)
  {
  }

  lemma RankAhead<Key>(keys: seq<Key>, e: nat, count: nat)
    requires e < |keys| && Rank(keys, e) == 1
    ensures Ahead(keys, keys[e], count, e) == count
  {
    AheadOnce(keys, keys[e], count, e);
  }

  lemma AlikeIsSteady<Key>(tr: Trig, m: DeviceNode<Key>, k: nat)
    requires OnCircle(tr) && tr.turn > 0.0 && m.Shaped() && Fresh(m) && Alike(tr, m)
    requires k < |m.keys| && Repeated(m.keys, k) && Hears(m.devs[k])
    ensures tr.Congruent(Drift(Back(m.chains[k])), 0.0)
  {
    hide OnCircle, Alike, Hears, Tone, Repeated, Rank, Drift, Trig.Congruent, Tdl.Covers, Factor, Back, Weighed;
    var e := RepeatedRank(m.keys, k);
    var p, i, v := FindTone(m.devs[k]);
    assert v != ZERO by { ToneHeard(m.devs[k], p, i, v); }
    var l := p + i + 1;
    SecondTells(tr, m, k, p, l, i, v, e);
    SecondTells(tr, m, k, p, l + 1, i, v, e);
    Round(tr);
    WeighedApart(tr, m.chains[k], v, l + i);
    StandsStill(tr, Back(m.chains[k]), l + i);
  }

  lemma ToneHeard(d: DevLink, p: nat, i: nat, v: Sample)
    requires d.Shaped() && Tone(d, p, i, v)
    ensures v != ZERO
  {
  }

  /** Edges on the device that share oscillators by key do what edges with oscillators of their own do - over
      every log that hands links of one key one window - precisely when every shared chain that can be heard
      turns by whole turns per sample.  Echoes make no difference here: no delay line is shared. */
  lemma DeviceSharedExactly<Key>(tr: Trig, m: DeviceNode<Key>)
    requires OnCircle(tr) && tr.turn > 0.0 && m.Shaped() && Fresh(m)
    ensures Alike(tr, m) <==> Steady(tr, m)
  {
    hide OnCircle, Fresh, Repeated, Hears, Trig.Congruent, Drift, Sums, Own, AllHanded, OneSource;
    Round(tr);
    if Steady(tr, m) {
      forall log | AllHanded(log, |m.keys|) && OneSource(m.keys, log) ensures Sums(tr, m, log) == Sums(tr, Own(m), log) {
        SteadySums(tr, m, log);
      }
    }
    if Alike(tr, m) {
      forall k | 0 <= k < |m.keys| && Repeated(m.keys, k) && Hears(m.devs[k]) ensures tr.Congruent(Drift(Back(m.chains[k])), 0.0) {
        AlikeIsSteady(tr, m, k);
      }
    }
  }
}

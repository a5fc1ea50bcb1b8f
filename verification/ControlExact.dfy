/**
 Which messages the control server accepts and what it then does, in terms of the message's own fields
 (src/control_server.cpp:203-261, 537-935): every name, default and limit written out.
 */
module ControlExact {
  import opened Wrappers
  import opened Json
  import opened RuntimeControl
  import opened Control
  import opened ControlLaws
  import opened ControlBatch

  // ---- Fields -----------------------------------------------------------------------------------------------

  predicate NumberField(f: Fields, key: string, default: real, x: real) {
    if key in f then f[key] == JNumber(x) else x == default
  }

  predicate BoolField(f: Fields, key: string, default: bool, b: bool) {
    if key in f then f[key] == JBool(b) else b == default
  }

  /** The slot a message asks for: none said is slot 0, fractions are dropped. */
  predicate GateField(f: Fields, gate: nat) {
    if "take_effect_at_slot" in f then
      && f["take_effect_at_slot"].JNumber?
      && gate as real <= f["take_effect_at_slot"].n < gate as real + 1.0
    else gate == 0
  }

  /** A slot that cannot be used. */
  predicate BadGate(f: Fields) {
    "take_effect_at_slot" in f && (!f["take_effect_at_slot"].JNumber? || f["take_effect_at_slot"].n < 0.0)
  }

  predicate BadBatch(s: Server, f: Fields) {
    "batch_id" in f && (!f["batch_id"].JString? || f["batch_id"].s == "" || f["batch_id"].s !in s.open)
  }

  lemma GateIs(f: Fields, gate: nat)
    ensures GateField(f, gate) <==> GetGate(f) == Some(gate)
    ensures BadGate(f) <==> GetGate(f).None?
  {
  }

  lemma NumberIs(f: Fields, key: string, default: real, x: real)
    ensures NumberField(f, key, default, x) <==> GetNumber(f, key, default) == Some(x)
  {
  }

  lemma BoolIs(f: Fields, key: string, default: bool, b: bool)
    ensures BoolField(f, key, default, b) <==> GetBool(f, key, default) == Some(b)
  {
  }

  // ---- Scalar updates ------------------------------------------------------------------------------------------

  /** The parameters and their ranges. */
  predicate InRange(param: string, v: real) {
    || (param == "path_loss_db" && -200.0 <= v <= 50.0)
    || (param == "awgn_snr_db" && -30.0 <= v <= 120.0)
    || (param == "los_k_db" && -30.0 <= v <= 40.0)
    || (param == "cfo_hz" && -50000.0 <= v <= 50000.0)
    || (param == "tap0_delay_samples" && 0.0 <= v <= 1023.0)
    || (param == "tap0_gain_db" && -100.0 <= v <= 20.0)
    || (param == "tap0_phase_rad" && -3.1415926535897932 <= v <= 3.1415926535897932)
  }

  /** The field each of them is. */
  predicate WrittenOnly(m: Mutable, m': Mutable, param: string, v: real) {
    && (param == "path_loss_db" ==> m' == Mutable(v, m.awgnSnrDb, m.losKDb, m.cfoHz, m.tap0Delay, m.tap0GainDb, m.tap0PhaseRad))
    && (param == "awgn_snr_db" ==> m' == Mutable(m.pathLossDb, v, m.losKDb, m.cfoHz, m.tap0Delay, m.tap0GainDb, m.tap0PhaseRad))
    && (param == "los_k_db" ==> m' == Mutable(m.pathLossDb, m.awgnSnrDb, v, m.cfoHz, m.tap0Delay, m.tap0GainDb, m.tap0PhaseRad))
    && (param == "cfo_hz" ==> m' == Mutable(m.pathLossDb, m.awgnSnrDb, m.losKDb, v, m.tap0Delay, m.tap0GainDb, m.tap0PhaseRad))
    && (param == "tap0_delay_samples" ==> m' == Mutable(m.pathLossDb, m.awgnSnrDb, m.losKDb, m.cfoHz, v, m.tap0GainDb, m.tap0PhaseRad))
    && (param == "tap0_gain_db" ==> m' == Mutable(m.pathLossDb, m.awgnSnrDb, m.losKDb, m.cfoHz, m.tap0Delay, v, m.tap0PhaseRad))
    && (param == "tap0_phase_rad" ==> m' == Mutable(m.pathLossDb, m.awgnSnrDb, m.losKDb, m.cfoHz, m.tap0Delay, m.tap0GainDb, v))
  }

  predicate OfScalar(f: Fields) {
    "type" in f ==> f["type"] == JString("scalar")
  }

  /** The message asks for a value its link can take. */
  predicate Asks(s: Server, f: Fields, link: string, param: string, value: real) {
    && "link_id" in f && f["link_id"] == JString(link) && "param" in f && f["param"] == JString(param)
    && "value" in f && f["value"] == JNumber(value) && link in s.links && InRange(param, value)
  }

  ghost predicate Asked(s: Server, f: Fields) {
    exists link, param, value :: Asks(s, f, link, param, value)
  }

  lemma RangeIs(param: string, v: real)
    ensures InRange(param, v) <==> FindParam(param).Some? && Accepts(FindParam(param).value, v)
  {
    assert FindParam(param) ==
           if param == "path_loss_db" then Some(PARAM_SPECS[0]) else if param == "awgn_snr_db" then Some(PARAM_SPECS[1])
           else if param == "los_k_db" then Some(PARAM_SPECS[2]) else if param == "cfo_hz" then Some(PARAM_SPECS[3])
           else if param == "tap0_delay_samples" then Some(PARAM_SPECS[4]) else if param == "tap0_gain_db" then Some(PARAM_SPECS[5])
           else if param == "tap0_phase_rad" then Some(PARAM_SPECS[6]) else None by {
      Lookup(param);
    }
  }

  lemma Lookup(param: string)
    ensures FindFrom(param, 7).None?
    ensures FindFrom(param, 6) == if param == "tap0_phase_rad" then Some(PARAM_SPECS[6]) else None
    ensures FindFrom(param, 5) == if param == "tap0_gain_db" then Some(PARAM_SPECS[5]) else FindFrom(param, 6)
    ensures FindFrom(param, 4) == if param == "tap0_delay_samples" then Some(PARAM_SPECS[4]) else FindFrom(param, 5)
    ensures FindFrom(param, 3) == if param == "cfo_hz" then Some(PARAM_SPECS[3]) else FindFrom(param, 4)
    ensures FindFrom(param, 2) == if param == "los_k_db" then Some(PARAM_SPECS[2]) else FindFrom(param, 3)
    ensures FindFrom(param, 1) == if param == "awgn_snr_db" then Some(PARAM_SPECS[1]) else FindFrom(param, 2)
    ensures FindFrom(param, 0) == if param == "path_loss_db" then Some(PARAM_SPECS[0]) else FindFrom(param, 1)
  {
  }

  lemma WithParamIs(m: Mutable, param: string, v: real)
    ensures WrittenOnly(m, WithParam(m, param, v), param, v)
  {
  }

  lemma AskedIs(s: Server, f: Fields, link: string, param: string, value: real)
    ensures Asks(s, f, link, param, value) <==> ScalarOp(s, f) == Some(StagedScalar(link, param, value))
  {
    hide InRange, Accepts, FindParam;
    RangeIs(param, value);
  }

  lemma NotAsked(s: Server, f: Fields)
    requires !Asked(s, f)
    ensures ScalarOp(s, f).None?
  {
    hide ScalarOp;
    if ScalarOp(s, f).Some? {
      var op := ScalarOp(s, f).value;
      AskedIs(s, f, op.link, op.param, op.value);
    }
  }

  lemma ScalarDispatched(s: Server, f: Fields)
    requires OfScalar(f)
    ensures Dispatch(s, f) == Scalar(s, f)
  {
  }

  /** What is left of a server after a message it refuses. */
  predicate Refused(s: Server, r: (Server, Reply)) {
    r == (s.(rejected := s.rejected + 1), Rejected)
  }

  /** A scalar message is refused unless it names a link, a parameter and a value in range, a slot that can be
      used and, if it names a batch, an open one; a refused message changes nothing but the count. */
  lemma ScalarRefusedExactly(s: Server, f: Fields)
    requires OfScalar(f)
    ensures Dispatch(s, f).1 == Rejected <==> !Asked(s, f) || BadGate(f) || BadBatch(s, f)
    ensures Dispatch(s, f).1 == Rejected ==> Refused(s, Dispatch(s, f))
  {
    hide ScalarOp, GetGate, Asks, BadGate;
    ScalarDispatched(s, f);
    GateIs(f, 0);
    if !Asked(s, f) {
      NotAsked(s, f);
    } else {
      var link, param, value :| Asks(s, f, link, param, value);
      AskedIs(s, f, link, param, value);
    }
  }

  /** Said at once, it writes that one field of its link, opens the gate at the slot asked for - at once, if
      none was - and answers with the slot the link has reached or will wait for. */
  lemma ScalarExactly(s: Server, f: Fields, link: string, param: string, value: real, gate: nat)
    requires OfScalar(f) && Asks(s, f, link, param, value) && GateField(f, gate) && "batch_id" !in f
    ensures var (s', r) := Dispatch(s, f);
      var l := s.links[link];
      && link in s'.links && WrittenOnly(l.view.shadow, s'.links[link].view.shadow, param, value)
      && s'.links[link] == l.(view := View(s'.links[link].view.shadow, l.view.profile, l.view.pending, gate, l.view.seqno + 1))
      && s' == s.(links := s.links[link := s'.links[link]], applied := s.applied + 1)
      && r == Updated(l.view.seqno + 1, if gate > l.now then gate else l.now)
  {
    hide ScalarOp, GetGate, Asks, WithParam, WrittenOnly, GateField;
    ScalarDispatched(s, f);
    AskedIs(s, f, link, param, value);
    GateIs(f, gate);
    assert link in s.links by { AsksLink(s, f, link, param, value); }
    WithParamIs(s.links[link].view.shadow, param, value);
  }

  lemma AsksLink(s: Server, f: Fields, link: string, param: string, value: real)
    requires Asks(s, f, link, param, value)
    ensures link in s.links
  {
  }

  /** In a batch, it is kept for later and no link changes. */
  lemma ScalarStaged(s: Server, f: Fields, link: string, param: string, value: real)
    requires OfScalar(f) && Asks(s, f, link, param, value) && !BadGate(f) && "batch_id" in f && !BadBatch(s, f)
    ensures var id := f["batch_id"].s;
      && id in s.open
      && Dispatch(s, f) == (s.(open := s.open[id := s.open[id] + [StagedScalar(link, param, value)]], applied := s.applied + 1), Staged)
  {
    hide ScalarOp, GetGate, Asks, BadGate;
    ScalarDispatched(s, f);
    AskedIs(s, f, link, param, value);
    GateIs(f, 0);
    AsksLink(s, f, link, param, value);
  }

  // ---- Profile swaps --------------------------------------------------------------------------------------------

  predicate OfSwap(f: Fields) {
    "type" in f && f["type"] == JString("profile_swap")
  }

  /** One tap of the message: what it leaves out is zero, and its delay and gain are limited. */
  predicate TapField(v: Value, t: TapSpec) {
    && v.JObject?
    && NumberField(v.fields, "delay_samples", 0.0, t.delay) && 0.0 <= t.delay <= 1023.0
    && NumberField(v.fields, "gain_db", 0.0, t.gainDb) && -100.0 <= t.gainDb <= 20.0
    && NumberField(v.fields, "phase_rad", 0.0, t.phaseRad) && BoolField(v.fields, "is_los", false, t.isLos)
    && NumberField(v.fields, "los_k_db", 0.0, t.losKDb) && NumberField(v.fields, "los_angle_rad", 0.0, t.losAngle)
  }

  predicate FadingField(f: Fields, g: Fading) {
    if "fading" in f then
      && f["fading"].JObject?
      && var o := f["fading"].fields;
      && BoolField(o, "enabled", false, g.enabled) && NumberField(o, "f_d_max_hz", 0.0, g.dopplerHz)
      && NumberField(o, "grid_us", 100.0, g.gridUs) && ("spectrum" in o ==> o["spectrum"] == JString("jakes"))
    else g == Fading(false, 0.0, 100.0)
  }

  /** Refilling the link's ring takes no more slots than allowed, if there is a limit. */
  predicate WarmsInTime(s: Server, l: Link) {
    s.cap == 0 || l.ring == 0 || l.slotLength == 0 || l.ring <= s.cap * l.slotLength
  }

  /** The message asks for a profile its link can take. */
  predicate AsksSwap(s: Server, f: Fields, link: string, p: Profile) {
    && "link_id" in f && f["link_id"] == JString(link) && link in s.links && WarmsInTime(s, s.links[link])
    && "taps" in f && f["taps"].JArray? && 1 <= |f["taps"].items| == |p.taps| <= 32
    && (forall k :: 0 <= k < |p.taps| ==> TapField(f["taps"].items[k], p.taps[k]))
    && FadingField(f, p.fading) && BoolField(f, "force", false, p.force)
  }

  ghost predicate AskedSwap(s: Server, f: Fields) {
    exists link, p :: AsksSwap(s, f, link, p)
  }

  lemma TapIs(v: Value, t: TapSpec)
    ensures TapField(v, t) <==> TapOf(v) == Some(t)
  {
    hide GetNumber, GetBool, NumberField, BoolField;
    if v.JObject? {
      var o := v.fields;
      NumberIs(o, "delay_samples", 0.0, t.delay);
      NumberIs(o, "gain_db", 0.0, t.gainDb);
      NumberIs(o, "phase_rad", 0.0, t.phaseRad);
      BoolIs(o, "is_los", false, t.isLos);
      NumberIs(o, "los_k_db", 0.0, t.losKDb);
      NumberIs(o, "los_angle_rad", 0.0, t.losAngle);
    }
  }

  lemma {:induction false} TapsAre(vs: seq<Value>, ts: seq<TapSpec>)
    requires |vs| == |ts|
    ensures TapsOf(vs) == Some(ts) <==> forall k :: 0 <= k < |vs| ==> TapField(vs[k], ts[k])
  {
    hide TapOf, TapField;
    if vs == [] {
      assert ts == [];
    } else {
      var n := |vs| - 1;
      TapsAre(vs[..n], ts[..n]);
      TapIs(vs[n], ts[n]);
      LastTap(vs, ts, n);
      assert (forall k :: 0 <= k < n ==> TapField(vs[..n][k], ts[..n][k])) <==> forall k :: 0 <= k < n ==> TapField(vs[k], ts[k]);
    }
  }

  lemma LastTap(vs: seq<Value>, ts: seq<TapSpec>, n: nat)
    requires |vs| == |ts| == n + 1
    ensures TapsOf(vs) == Some(ts) <==> TapsOf(vs[..n]) == Some(ts[..n]) && TapOf(vs[n]) == Some(ts[n])
  {
    hide TapOf;
    assert ts[..n] + [ts[n]] == ts;
  }

  lemma FadingIs(f: Fields, g: Fading)
    ensures FadingField(f, g) <==> FadingOf(f) == Some(g)
  {
    hide NumberField, BoolField, GetNumber, GetBool;
    if "fading" in f && f["fading"].JObject? {
      var o := f["fading"].fields;
      BoolIs(o, "enabled", false, g.enabled);
      NumberIs(o, "f_d_max_hz", 0.0, g.dopplerHz);
      NumberIs(o, "grid_us", 100.0, g.gridUs);
    }
  }

  /** A ring needs more slots than allowed exactly when so many slots do not hold it. */
  lemma WarmsIs(s: Server, link: string)
    requires link in s.links
    ensures WarmsInTime(s, s.links[link]) <==> !TooLong(s, link)
  {
    var l := s.links[link];
    if l.slotLength > 0 {
      CeilingTells(l.ring, l.slotLength, s.cap);
    }
  }

  lemma CeilingTells(a: nat, b: nat, n: nat)
    requires b > 0
    ensures (a + b - 1) / b <= n <==> a <= n * b
  {
    var q := (a + b - 1) / b;
    assert a + b - 1 == q * b + (a + b - 1) % b;
    if q <= n {
      Scaled(q, n, b);
    } else {
      Scaled(n + 1, q, b);
      assert (n + 1) * b == n * b + b;
    }
  }

  lemma Scaled(m: nat, n: nat, b: nat)
    requires m <= n
    ensures m * b <= n * b
  {
  }

  lemma AsksSwapIs(s: Server, f: Fields, link: string, p: Profile)
    ensures AsksSwap(s, f, link, p) <==> ProfileOp(s, f) == Some(StagedProfile(link, p))
  {
    hide TapField, TapOf, TapsOf, FadingField, FadingOf, BoolField, GetBool, WarmsInTime, TooLong;
    if link in s.links {
      WarmsIs(s, link);
    }
    FadingIs(f, p.fading);
    BoolIs(f, "force", false, p.force);
    if "taps" in f && f["taps"].JArray? && |f["taps"].items| == |p.taps| {
      TapsAre(f["taps"].items, p.taps);
    }
  }

  lemma NotAskedSwap(s: Server, f: Fields)
    requires !AskedSwap(s, f)
    ensures ProfileOp(s, f).None?
  {
    hide ProfileOp;
    if ProfileOp(s, f).Some? {
      AsksSwapIs(s, f, ProfileOp(s, f).value.link, ProfileOp(s, f).value.profile);
    }
  }

  lemma SwapDispatched(s: Server, f: Fields)
    requires OfSwap(f)
    ensures Dispatch(s, f) == Swap(s, f)
  {
  }

  /** A swap is refused unless it names a link, taps and fading within the limits, a slot that can be used and,
      if it names a batch, an open one; a refused swap changes nothing but the count. */
  lemma SwapRefusedExactly(s: Server, f: Fields)
    requires OfSwap(f)
    ensures Dispatch(s, f).1 == Rejected <==> !AskedSwap(s, f) || BadGate(f) || BadBatch(s, f)
    ensures Dispatch(s, f).1 == Rejected ==> Refused(s, Dispatch(s, f))
  {
    hide ProfileOp, GetGate, AsksSwap, BadGate;
    SwapDispatched(s, f);
    GateIs(f, 0);
    if !AskedSwap(s, f) {
      NotAskedSwap(s, f);
    } else {
      var link, p :| AsksSwap(s, f, link, p);
      AsksSwapIs(s, f, link, p);
    }
  }

  /** Said at once, the profile it asks for waits in its link's shadow behind that gate, everything else as it
      was; the answer hints at one slot of warmup. */
  lemma SwapExactly(s: Server, f: Fields, link: string, p: Profile, gate: nat)
    requires OfSwap(f) && AsksSwap(s, f, link, p) && GateField(f, gate) && "batch_id" !in f
    ensures link in s.links
    ensures var l := s.links[link];
      var l', at := l.(view := View(l.view.shadow, p, true, gate, l.view.seqno + 1)), if gate > l.now then gate else l.now;
      Dispatch(s, f) == (s.(links := s.links[link := l'], applied := s.applied + 1), Swapped(l.view.seqno + 1, at, at + 1))
  {
    hide ProfileOp, GetGate, AsksSwap, GateField;
    SwapDispatched(s, f);
    AsksSwapIs(s, f, link, p);
    GateIs(f, gate);
  }

  lemma SwapStaged(s: Server, f: Fields, link: string, p: Profile)
    requires OfSwap(f) && AsksSwap(s, f, link, p) && !BadGate(f) && "batch_id" in f && !BadBatch(s, f)
    ensures var id := f["batch_id"].s;
      && id in s.open
      && Dispatch(s, f) == (s.(open := s.open[id := s.open[id] + [StagedProfile(link, p)]], applied := s.applied + 1), Staged)
  {
    hide ProfileOp, GetGate, AsksSwap, BadGate;
    SwapDispatched(s, f);
    AsksSwapIs(s, f, link, p);
    GateIs(f, 0);
  }

  // ---- When it is heard ------------------------------------------------------------------------------------------

  /** A link with nothing outstanding takes a scalar over at its first slot not before the gate: with no slot
      asked for, at its very next one. */
  lemma ScalarHeard(s: Server, f: Fields, link: string, param: string, value: real, gate: nat, v: LinkVars, leads: bool)
    requires OfScalar(f) && Asks(s, f, link, param, value) && GateField(f, gate) && "batch_id" !in f && link in s.links
    requires v.liveSeqno == s.links[link].view.seqno && v.live == s.links[link].view.shadow
    ensures link in Dispatch(s, f).0.links
    ensures var v' := Snapped(v, Dispatch(s, f).0.links[link].view, leads);
      if v.nextSlot < gate then v'.live == v.live && v'.liveSeqno == v.liveSeqno
      else WrittenOnly(v.live, v'.live, param, value) && v'.liveSeqno == v.liveSeqno + 1
    ensures "take_effect_at_slot" !in f ==>
              WrittenOnly(v.live, Snapped(v, Dispatch(s, f).0.links[link].view, leads).live, param, value)
  {
    hide Asks, WrittenOnly, Dispatch;
    ScalarExactly(s, f, link, param, value, gate);
  }

  /** The same of a profile, on a link that starts with a tdl or is forced to hold one. */
  lemma SwapHeard(s: Server, f: Fields, link: string, p: Profile, gate: nat, v: LinkVars, leads: bool)
    requires OfSwap(f) && AsksSwap(s, f, link, p) && GateField(f, gate) && "batch_id" !in f && link in s.links
    requires v.liveSeqno == s.links[link].view.seqno
    ensures link in Dispatch(s, f).0.links
    ensures var v' := Snapped(v, Dispatch(s, f).0.links[link].view, leads);
      if v.nextSlot >= gate && (leads || p.force) then v'.profile == p && v'.active
      else v'.profile == v.profile && v'.active == v.active
    ensures "take_effect_at_slot" !in f && leads ==> Snapped(v, Dispatch(s, f).0.links[link].view, leads).profile == p
  {
    hide AsksSwap, Dispatch;
    SwapExactly(s, f, link, p, gate);
  }

  // ---- Batches ----------------------------------------------------------------------------------------------------

  /** A batch is opened exactly under a new name that is not empty. */
  lemma BeginExactly(s: Server, f: Fields)
    requires "type" in f && f["type"] == JString("batch_begin")
    ensures if "id" in f && f["id"].JString? && f["id"].s != "" && f["id"].s !in s.open
            then Dispatch(s, f) == (s.(open := s.open[f["id"].s := []], begun := s.begun + 1), Begun(f["id"].s))
            else Refused(s, Dispatch(s, f))
  {
  }

  /** One is dropped exactly when it is open. */
  lemma AbortExactly(s: Server, f: Fields)
    requires "type" in f && f["type"] == JString("batch_abort")
    ensures if "id" in f && f["id"].JString? && f["id"].s in s.open
            then Dispatch(s, f) == (s.(open := s.open - {f["id"].s}, aborted := s.aborted + 1), Aborted(|s.open[f["id"].s]|))
            else Refused(s, Dispatch(s, f))
  {
  }

  /** A commit is refused exactly when it names no open batch or a slot that cannot be used; it then leaves the
      batch open. */
  lemma CommitRefusedExactly(s: Server, f: Fields)
    requires "type" in f && f["type"] == JString("batch_commit")
    ensures Dispatch(s, f).1 == Rejected <==> "id" !in f || !f["id"].JString? || f["id"].s !in s.open || BadGate(f)
    ensures Dispatch(s, f).1 == Rejected ==> Refused(s, Dispatch(s, f))
  {
    hide CommitOps, GetGate, BadGate;
    GateIs(f, 0);
  }

  /** A batch opened, filled and committed leaves every link as the same messages sent one by one, in order,
      with the commit's slot in place of their own - slot 0, if the commit names none. */
  lemma CommitExactly(s: Server, id: string, begin: Fields, fs: seq<Fields>, commit: Fields, gate: nat)
    requires id != "" && id !in s.open && "id" in begin && begin["id"] == JString(id)
    requires ForBatch(fs, id) && AllStaged(Begin(s, begin).0, fs)
    requires "type" in commit && commit["type"] == JString("batch_commit") && "id" in commit && commit["id"] == JString(id)
    requires GateField(commit, gate)
    ensures var filled := DispatchAll(Begin(s, begin).0, fs);
      && filled.links == s.links
      && Dispatch(filled, commit).1 == Committed(|fs|, gate)
      && Dispatch(filled, commit).0.links == DispatchAll(s, AllUnbatched(fs, gate)).links
      && Dispatch(filled, commit).0.open == s.open
  {
    hide DispatchAll, AllStaged, Commit, GetGate, GateField, ForBatch, Begin;
    GateIs(commit, gate);
    CommitRefinesSends(s, id, begin, fs, commit, gate);
  }

  /** A staged operation that can still be carried out: its link is there and its parameter is one of the seven. */
  predicate Applies(links: Links, op: StagedOp) {
    && op.link in links
    && (op.StagedScalar? ==>
          op.param in {"path_loss_db", "awgn_snr_db", "los_k_db", "cfo_hz", "tap0_delay_samples", "tap0_gain_db", "tap0_phase_rad"})
  }

  function Applying(links: Links, ops: seq<StagedOp>): nat {
    if ops == [] then 0
    else Applying(links, ops[..|ops| - 1]) + if Applies(links, ops[|ops| - 1]) then 1 else 0
  }

  /** A commit counts what it carries out, whatever was staged; no link comes or goes. */
  lemma {:induction false} CommitCounts(links: Links, ops: seq<StagedOp>, gate: nat)
    ensures CommitOps(links, ops, gate).0.Keys == links.Keys && CommitOps(links, ops, gate).1 == Applying(links, ops)
  {
    hide FindParam;
    if ops != [] {
      CommitCounts(links, ops[..|ops| - 1], gate);
      var op := ops[|ops| - 1];
      if op.StagedScalar? {
        Known(op.param);
      }
    }
  }

  lemma Known(param: string)
    ensures FindParam(param).Some? <==>
            param in {"path_loss_db", "awgn_snr_db", "los_k_db", "cfo_hz", "tap0_delay_samples", "tap0_gain_db", "tap0_phase_rad"}
  {
    Lookup(param);
  }

  /** Messages of any other type are refused. */
  lemma OtherRefused(s: Server, f: Fields)
    requires "type" in f && f["type"] != JString("scalar") && f["type"] != JString("profile_swap")
    requires f["type"] != JString("batch_begin") && f["type"] != JString("batch_commit") && f["type"] != JString("batch_abort")
    ensures Refused(s, Dispatch(s, f))
  {
  }
}

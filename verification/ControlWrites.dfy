/** What an applied message means to the link it names, up to the slot that takes it over. */
module ControlWrites {
  import opened Wrappers
  import opened Json
  import opened RuntimeControl
  import opened Control
  import opened ControlBatch
  import opened ControlExact

  /** The shadow's value of a parameter (src/control_server.cpp:232-242); nothing for an
      unknown name. */
  function ReadParam(m: Mutable, name: string): Option<real> {
    if name == "path_loss_db" then Some(m.pathLossDb)
    else if name == "awgn_snr_db" then Some(m.awgnSnrDb)
    else if name == "los_k_db" then Some(m.losKDb)
    else if name == "cfo_hz" then Some(m.cfoHz)
    else if name == "tap0_delay_samples" then Some(m.tap0Delay)
    else if name == "tap0_gain_db" then Some(m.tap0GainDb)
    else if name == "tap0_phase_rad" then Some(m.tap0PhaseRad)
    else None
  }

  /** The parameters that can be read are the whitelist, and writing one changes that one. */
  lemma WriteThenRead(m: Mutable, name: string, v: real, other: string)
    ensures ReadParam(m, name).Some? <==> FindParam(name).Some?
    ensures FindParam(name).Some? ==> ReadParam(WithParam(m, name, v), name) == Some(v)
    ensures other != name ==> ReadParam(WithParam(m, name, v), other) == ReadParam(m, other)
  {
    Whitelist(name);
    hide FindParam;
  }

  lemma {:induction false} Whitelist(name: string)
    ensures FindParam(name).Some? <==> exists k :: 0 <= k < |PARAM_SPECS| && PARAM_SPECS[k].name == name
    ensures ReadParam(Mutable(0.0, 0.0, 0.0, 0.0, 0.0, 0.0, 0.0), name).Some? <==> FindParam(name).Some?
  {
    Found(name, 0);
    assert PARAM_SPECS[0].name == "path_loss_db" && PARAM_SPECS[1].name == "awgn_snr_db";
    assert PARAM_SPECS[2].name == "los_k_db" && PARAM_SPECS[3].name == "cfo_hz";
    assert PARAM_SPECS[4].name == "tap0_delay_samples" && PARAM_SPECS[5].name == "tap0_gain_db";
    assert PARAM_SPECS[6].name == "tap0_phase_rad";
  }

  lemma {:induction false} Found(name: string, k: nat)
    requires k <= |PARAM_SPECS|
    ensures FindFrom(name, k).Some? <==> exists j :: k <= j < |PARAM_SPECS| && PARAM_SPECS[j].name == name
    decreases |PARAM_SPECS| - k
  {
    if k < |PARAM_SPECS| {
      Found(name, k + 1);
    }
  }

  /** A scalar message answered "updated" has set its parameter on its link to its value, with
      its gate and a new version; every other parameter, the profile, every other link and
      every batch are as before. */
  lemma UpdatedExactly(s: Server, f: Fields)
    requires Dispatch(s, f).1.Updated?
    ensures "link_id" in f && f["link_id"].JString? && "param" in f && f["param"].JString? && "value" in f && f["value"].JNumber?
    ensures var (s', r) := Dispatch(s, f);
      var link, param := f["link_id"].s, f["param"].s;
      && link in s.links && s'.links.Keys == s.links.Keys && s'.open == s.open
      && (forall l :: l in s.links && l != link ==> s'.links[l] == s.links[l])
      && ReadParam(s'.links[link].view.shadow, param) == Some(f["value"].n)
      && (forall p :: p != param ==> ReadParam(s'.links[link].view.shadow, p) == ReadParam(s.links[link].view.shadow, p))
      && GateField(f, s'.links[link].view.gate)
      && s'.links[link].view.seqno == s.links[link].view.seqno + 1 == r.seqno
      && s'.links[link].view.profile == s.links[link].view.profile && s'.links[link].view.pending == s.links[link].view.pending
  {
    ScalarReply(s, f);
    GateIs(f, GetGate(f).value);
    var op := ScalarOp(s, f).value;
    forall p | p != op.param
      ensures ReadParam(WithParam(s.links[op.link].view.shadow, op.param, op.value), p) == ReadParam(s.links[op.link].view.shadow, p)
    {
      WriteThenRead(s.links[op.link].view.shadow, op.param, op.value, p);
    }
    WriteThenRead(s.links[op.link].view.shadow, op.param, op.value, "");
    hide ReadParam, WithParam, FindParam, Accepts, GateField;
  }

  /** Only a scalar message is answered "updated". */
  lemma ScalarReply(s: Server, f: Fields)
    requires Dispatch(s, f).1.Updated?
    ensures ScalarOp(s, f).Some? && GetGate(f).Some? && GetTarget(s, f) == Direct && FindParam(ScalarOp(s, f).value.param).Some?
    ensures Dispatch(s, f) == Deliver(s, f, ScalarOp(s, f).value, GetGate(f).value)
    ensures "link_id" in f && f["link_id"].JString? && "param" in f && f["param"].JString? && "value" in f && f["value"].JNumber?
    ensures ScalarOp(s, f).value == StagedScalar(f["link_id"].s, f["param"].s, f["value"].n)
  {
    hide TapOf, FadingOf, CommitOps, FindParam, Accepts;
  }

  /** With nothing pending before it, the update reaches the link's live parameters at the first
      slot not before its gate, and at no earlier one. */
  lemma UpdateTakesEffect(s: Server, f: Fields, v: LinkVars)
    requires Dispatch(s, f).1.Updated? && "link_id" in f && f["link_id"].JString? && f["link_id"].s in s.links
    requires v.liveSeqno == s.links[f["link_id"].s].view.seqno && v.live == s.links[f["link_id"].s].view.shadow
    ensures f["link_id"].s in Dispatch(s, f).0.links && GateField(f, Dispatch(s, f).0.links[f["link_id"].s].view.gate)
    ensures "param" in f && f["param"].JString?
    ensures "value" in f && f["value"].JNumber?
    ensures forall leads :: Snapped(v, Dispatch(s, f).0.links[f["link_id"].s].view, leads).live ==
              if v.nextSlot < Dispatch(s, f).0.links[f["link_id"].s].view.gate then v.live
              else WithParam(v.live, f["param"].s, f["value"].n)
  {
    ScalarReply(s, f);
    GateIs(f, GetGate(f).value);
    hide GateField, WithParam, FindParam, Accepts, ScalarOp, GetGate, GetTarget;
  }

  // ---- Profiles, written and read ------------------------------------------------------------------

  function TapValue(t: TapSpec): Value {
    JObject(map["delay_samples" := JNumber(t.delay), "gain_db" := JNumber(t.gainDb), "phase_rad" := JNumber(t.phaseRad),
                "is_los" := JBool(t.isLos), "los_k_db" := JNumber(t.losKDb), "los_angle_rad" := JNumber(t.losAngle)])
  }

  predicate TapFits(t: TapSpec) {
    0.0 <= t.delay <= 1023.0 && -100.0 <= t.gainDb <= 20.0
  }

  /** A tap written out as an object is read back field by field, exactly when it is in range. */
  lemma TapRoundTrip(t: TapSpec)
    ensures TapOf(TapValue(t)) == if TapFits(t) then Some(t) else None
  {
  }

  function TapValues(ts: seq<TapSpec>): (vs: seq<Value>)
    ensures |vs| == |ts| && forall k :: 0 <= k < |ts| ==> vs[k] == TapValue(ts[k])
  {
    seq(|ts|, k requires 0 <= k < |ts| => TapValue(ts[k]))
  }

  lemma {:induction false} TapsRoundTrip(ts: seq<TapSpec>)
    requires forall k :: 0 <= k < |ts| ==> TapFits(ts[k])
    ensures TapsOf(TapValues(ts)) == Some(ts)
  {
    if ts != [] {
      var rest, last := ts[..|ts| - 1], ts[|ts| - 1];
      TapsRoundTrip(rest);
      TapRoundTrip(last);
      assert TapValues(ts)[..|ts| - 1] == TapValues(rest);
      assert rest + [last] == ts;
      hide TapOf, TapValue, TapFits;
    }
  }

  function FadingValue(g: Fading): Value {
    JObject(map["enabled" := JBool(g.enabled), "f_d_max_hz" := JNumber(g.dopplerHz), "grid_us" := JNumber(g.gridUs)])
  }

  lemma FadingRoundTrip(g: Fading, f: Fields)
    requires "fading" in f && f["fading"] == FadingValue(g)
    ensures FadingOf(f) == Some(g)
  {
  }

  /** A swap message for `link` that spells out the whole profile. */
  predicate SwapMessage(f: Fields, link: string, p: Profile, gate: nat) {
    && "type" in f && f["type"] == JString("profile_swap") && "link_id" in f && f["link_id"] == JString(link)
    && "taps" in f && f["taps"] == JArray(TapValues(p.taps)) && "fading" in f && f["fading"] == FadingValue(p.fading)
    && "force" in f && f["force"] == JBool(p.force) && "batch_id" !in f
    && "take_effect_at_slot" in f && f["take_effect_at_slot"] == JNumber(gate as real)
  }

  /** Every profile within the limits arrives in its link's shadow exactly as it was sent, marked
      pending, behind its gate, under a new version, the scalars untouched. */
  lemma SwapRoundTrip(s: Server, f: Fields, link: string, p: Profile, gate: nat)
    requires SwapMessage(f, link, p, gate) && link in s.links && !TooLong(s, link)
    requires 1 <= |p.taps| <= MAX_TAPS && forall k :: 0 <= k < |p.taps| ==> TapFits(p.taps[k])
    ensures Dispatch(s, f).1.Swapped? && Dispatch(s, f).0.links.Keys == s.links.Keys
    ensures Dispatch(s, f).0.links[link].view ==
            s.links[link].view.(profile := p, pending := true, gate := gate, seqno := s.links[link].view.seqno + 1)
    ensures forall l :: l in s.links && l != link ==> Dispatch(s, f).0.links[l] == s.links[l]
  {
    TapsRoundTrip(p.taps);
    FadingRoundTrip(p.fading, f);
    assert (gate as real).Floor == gate;
    hide TapsOf, FadingOf, TapValues, FadingValue, TooLong, TapFits, Scalar, Begin, Commit, Abort;
    assert ProfileOp(s, f) == Some(StagedProfile(link, p));
    assert GetGate(f) == Some(gate) && GetTarget(s, f) == Direct;
  }
}

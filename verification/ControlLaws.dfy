/** What every message keeps, and what committing a batch amounts to. */
module ControlLaws {
  import opened Wrappers
  import opened Json
  import opened RuntimeControl
  import opened Control

  // ---- Messages one after the other ------------------------------------------------------------

  function HandleAll(stod: Conversion, s: Server, bodies: seq<string>): Server {
    if bodies == [] then s
    else Handle(stod, HandleAll(stod, s, bodies[..|bodies| - 1]), bodies[|bodies| - 1]).0
  }

  predicate Fresh(s: Server) {
    s.open == map[] && s.received == s.applied == s.rejected == s.begun == s.committed == s.aborted == 0
  }

  // ---- Laws of every reachable state ------------------------------------------------------------

  /** A runtime-written field is within its parameter's range. */
  predicate FieldOk(first: real, now: real, name: string) {
    now == first || (FindParam(name).Some? && Accepts(FindParam(name).value, now))
  }

  predicate ShadowOk(first: Mutable, now: Mutable) {
    && FieldOk(first.pathLossDb, now.pathLossDb, "path_loss_db")
    && FieldOk(first.awgnSnrDb, now.awgnSnrDb, "awgn_snr_db")
    && FieldOk(first.losKDb, now.losKDb, "los_k_db")
    && FieldOk(first.cfoHz, now.cfoHz, "cfo_hz")
    && FieldOk(first.tap0Delay, now.tap0Delay, "tap0_delay_samples")
    && FieldOk(first.tap0GainDb, now.tap0GainDb, "tap0_gain_db")
    && FieldOk(first.tap0PhaseRad, now.tap0PhaseRad, "tap0_phase_rad")
  }

  predicate ProfileOk(p: Profile) {
    && 1 <= |p.taps| <= MAX_TAPS
    && forall k :: 0 <= k < |p.taps| ==> 0.0 <= p.taps[k].delay <= 1023.0 && -100.0 <= p.taps[k].gainDb <= 20.0
  }

  /** A link that has only ever been written with accepted values. */
  predicate LinkOk(first: Link, now: Link) {
    && ShadowOk(first.view.shadow, now.view.shadow)
    && (now.view.profile == first.view.profile || ProfileOk(now.view.profile))
    && (first.view.pending ==> now.view.pending) && first.view.seqno <= now.view.seqno
    && now.ring == first.ring && now.slotLength == first.slotLength
  }

  /** A staged operation names a live link and carries what its message was checked for. */
  predicate OpOk(links: Links, op: StagedOp) {
    op.link in links &&
    match op
    case StagedScalar(_, param, value) => FindParam(param).Some? && Accepts(FindParam(param).value, value)
    case StagedProfile(_, profile) => ProfileOk(profile)
  }

  predicate OpsOk(links: Links, ops: seq<StagedOp>) {
    forall k :: 0 <= k < |ops| ==> OpOk(links, ops[k])
  }

  /** Every message is counted exactly once, and every open batch was begun and not closed. */
  predicate Counted(s: Server) {
    && s.received == s.applied + s.rejected + s.begun + s.committed + s.aborted
    && |s.open| + s.committed + s.aborted == s.begun
  }

  ghost predicate Lawful(s0: Server, s: Server) {
    && s.links.Keys == s0.links.Keys && s.cap == s0.cap
    && (forall l :: l in s.links ==> LinkOk(s0.links[l], s.links[l]))
    && (forall id :: id in s.open ==> id != "" && OpsOk(s.links, s.open[id]))
  }

  lemma {:induction false} TapsFit(vs: seq<Value>)
    requires TapsOf(vs).Some?
    ensures forall k :: 0 <= k < |vs| ==>
              0.0 <= TapsOf(vs).value[k].delay <= 1023.0 && -100.0 <= TapsOf(vs).value[k].gainDb <= 20.0
  {
    if vs != [] {
      TapsFit(vs[..|vs| - 1]);
    }
  }

  lemma ScalarChecked(s: Server, f: Fields)
    requires ScalarOp(s, f).Some?
    ensures OpOk(s.links, ScalarOp(s, f).value)
  {
  }

  lemma ProfileChecked(s: Server, f: Fields)
    requires ProfileOp(s, f).Some?
    ensures OpOk(s.links, ProfileOp(s, f).value)
  {
    TapsFit(f["taps"].items);
  }

  lemma WithParamOk(first: Mutable, m: Mutable, name: string, v: real)
    requires ShadowOk(first, m) && FindParam(name).Some? && Accepts(FindParam(name).value, v)
    ensures ShadowOk(first, WithParam(m, name, v))
  {
    hide FindParam, Accepts;
  }

  lemma OpKeepsLink(first: Link, l: Link, links: Links, op: StagedOp, gate: nat)
    requires LinkOk(first, l) && OpOk(links, op)
    ensures LinkOk(first, OpLink(l, op, gate))
  {
    hide ShadowOk, ProfileOk, WithParam;
    if op.StagedScalar? {
      WithParamOk(first.view.shadow, l.view.shadow, op.param, op.value);
    }
  }

  // ---- Committing ------------------------------------------------------------------------------------

  /** The operations carried out one after the other, each with the same gate. */
  function OpsDone(links: Links, ops: seq<StagedOp>, gate: nat): Links {
    if ops == [] then links
    else
      var before, op := OpsDone(links, ops[..|ops| - 1], gate), ops[|ops| - 1];
      if op.link in before then before[op.link := OpLink(before[op.link], op, gate)] else before
  }

  lemma {:induction false} DoneKeys(links: Links, ops: seq<StagedOp>, gate: nat)
    ensures OpsDone(links, ops, gate).Keys == links.Keys
  {
    if ops != [] {
      DoneKeys(links, ops[..|ops| - 1], gate);
    }
  }

  /** Committing what was staged skips nothing: the branches for a vanished link and an unknown
      parameter are never taken. */
  lemma {:induction false} CommitTakesAll(links: Links, ops: seq<StagedOp>, gate: nat)
    requires OpsOk(links, ops)
    ensures CommitOps(links, ops, gate) == (OpsDone(links, ops, gate), |ops|)
  {
    if ops != [] {
      var rest, op := ops[..|ops| - 1], ops[|ops| - 1];
      CommitTakesAll(links, rest, gate);
      DoneKeys(links, rest, gate);
      assert OpOk(links, op);
    }
  }

  lemma {:induction false} DoneKeeps(s0: Server, links: Links, ops: seq<StagedOp>, gate: nat)
    requires links.Keys == s0.links.Keys && OpsOk(links, ops)
    requires forall l :: l in links ==> LinkOk(s0.links[l], links[l])
    ensures OpsDone(links, ops, gate).Keys == links.Keys
    ensures forall l :: l in links ==> LinkOk(s0.links[l], OpsDone(links, ops, gate)[l])
  {
    if ops != [] {
      var rest, op := ops[..|ops| - 1], ops[|ops| - 1];
      DoneKeeps(s0, links, rest, gate);
      assert OpOk(links, op);
      OpKeepsLink(s0.links[op.link], OpsDone(links, rest, gate)[op.link], links, op, gate);
      hide LinkOk, OpLink;
    }
  }

  // ---- Every message keeps the laws ---------------------------------------------------------------------

  /** Operations stay in order when only the links' contents change. */
  lemma SameKeysOps(links: Links, links': Links, ops: seq<StagedOp>)
    requires links'.Keys == links.Keys && OpsOk(links, ops)
    ensures OpsOk(links', ops)
  {
    forall k | 0 <= k < |ops| ensures OpOk(links', ops[k]) {
      assert OpOk(links, ops[k]);
    }
  }

  lemma DeliverKeeps(s0: Server, s: Server, f: Fields, op: StagedOp, gate: nat)
    requires Lawful(s0, s) && OpOk(s.links, op)
    ensures Lawful(s0, Deliver(s, f, op, gate).0)
  {
    OpKeepsLink(s0.links[op.link], s.links[op.link], s.links, op, gate);
    hide LinkOk, OpLink, OpOk, OpsOk;
    if GetTarget(s, f).Direct? {
      DirectKeeps(s0, s, op, gate);
    } else if GetTarget(s, f).Batch? {
      StageKeeps(s.links, s.open[GetTarget(s, f).id], op);
    }
  }

  lemma StageKeeps(links: Links, ops: seq<StagedOp>, op: StagedOp)
    requires OpsOk(links, ops) && OpOk(links, op)
    ensures OpsOk(links, ops + [op])
  {
    hide OpOk;
  }

  lemma DirectKeeps(s0: Server, s: Server, op: StagedOp, gate: nat)
    requires Lawful(s0, s) && op.link in s.links && LinkOk(s0.links[op.link], OpLink(s.links[op.link], op, gate))
    ensures Lawful(s0, s.(links := s.links[op.link := OpLink(s.links[op.link], op, gate)]))
  {
    hide LinkOk, OpLink, OpsOk;
    var links' := s.links[op.link := OpLink(s.links[op.link], op, gate)];
    forall id | id in s.open ensures id != "" && OpsOk(links', s.open[id]) {
      SameKeysOps(s.links, links', s.open[id]);
    }
  }

  lemma SameKeyOp(links: Links, links': Links, op: StagedOp)
    requires links'.Keys == links.Keys && OpOk(links, op)
    ensures OpOk(links', op)
  {
  }

  lemma CommitKeeps(s0: Server, s: Server, f: Fields)
    requires Lawful(s0, s)
    ensures Lawful(s0, Commit(s, f).0)
  {
    var s' := Commit(s, f).0;
    if Commit(s, f).1.Committed? {
      var id, gate := f["id"].s, GetGate(f).value;
      CommitTakesAll(s.links, s.open[id], gate);
      DoneKeeps(s0, s.links, s.open[id], gate);
      hide LinkOk, OpsDone, CommitOps;
      forall i | i in s'.open ensures i != "" && OpsOk(s'.links, s'.open[i]) {
        SameKeysOps(s.links, s'.links, s.open[i]);
      }
    }
  }

  lemma DispatchKeeps(s0: Server, s: Server, f: Fields)
    requires Lawful(s0, s)
    ensures Lawful(s0, Dispatch(s, f).0)
  {
    hide LinkOk, OpsOk, Deliver, ScalarOp, ProfileOp, OpOk, Commit;
    if ScalarOp(s, f).Some? && GetGate(f).Some? {
      ScalarChecked(s, f);
      DeliverKeeps(s0, s, f, ScalarOp(s, f).value, GetGate(f).value);
    }
    if ProfileOp(s, f).Some? && GetGate(f).Some? {
      ProfileChecked(s, f);
      DeliverKeeps(s0, s, f, ProfileOp(s, f).value, GetGate(f).value);
    }
    CommitKeeps(s0, s, f);
    BeginKeeps(s0, s, f);
  }

  lemma BeginKeeps(s0: Server, s: Server, f: Fields)
    requires Lawful(s0, s)
    ensures Lawful(s0, Begin(s, f).0) && Lawful(s0, Abort(s, f).0)
  {
    assert OpsOk(s.links, []);
    hide LinkOk, OpsOk;
  }

  lemma HandleKeeps(stod: Conversion, s0: Server, s: Server, body: string)
    requires Lawful(s0, s)
    ensures Lawful(s0, Handle(stod, s, body).0)
  {
    hide Dispatch, ReadObject, LinkOk, OpsOk;
    var s1 := s.(received := s.received + 1);
    assert Lawful(s0, s1);
    Bookkeeping(s0, s1);
    var r := ReadObject(stod, body, 0);
    if r.Ok? {
      DispatchKeeps(s0, s1, r.value);
    }
  }

  lemma Bookkeeping(s0: Server, s: Server)
    requires Lawful(s0, s)
    ensures Lawful(s0, Reject(s).0)
  {
  }

  // ---- Counting ------------------------------------------------------------------------------------------

  /** What was counted before this message. */
  predicate Pending(s: Server) {
    && s.received == s.applied + s.rejected + s.begun + s.committed + s.aborted + 1
    && |s.open| + s.committed + s.aborted == s.begun
  }

  lemma CountDeliver(s: Server, f: Fields, op: StagedOp, gate: nat)
    requires Pending(s) && op.link in s.links
    ensures Counted(Deliver(s, f, op, gate).0)
  {
    match GetTarget(s, f)
    case Batch(id) =>
      assert s.open[id := s.open[id] + [op]].Keys == s.open.Keys;
      SameSize(s.open, s.open[id := s.open[id] + [op]]);
    case _ =>
  }

  lemma SameSize(a: map<string, seq<StagedOp>>, b: map<string, seq<StagedOp>>)
    requires a.Keys == b.Keys
    ensures |a| == |b|
  {
    assert |a| == |a.Keys| && |b| == |b.Keys|;
  }

  lemma Removed(a: map<string, seq<StagedOp>>, id: string)
    requires id in a
    ensures |a - {id}| + 1 == |a|
  {
    assert (a - {id}).Keys == a.Keys - {id};
    assert |a| == |a.Keys| && |a - {id}| == |(a - {id}).Keys|;
  }

  lemma Added(a: map<string, seq<StagedOp>>, id: string)
    requires id !in a
    ensures |a[id := []]| == |a| + 1
  {
    assert a[id := []].Keys == a.Keys + {id};
    assert |a| == |a.Keys| && |a[id := []]| == |a[id := []].Keys|;
  }

  lemma CountOps(s: Server, f: Fields)
    requires Pending(s)
    ensures Counted(Scalar(s, f).0) && Counted(Swap(s, f).0)
  {
    hide Deliver, ScalarOp, ProfileOp, GetGate;
    if ScalarOp(s, f).Some? && GetGate(f).Some? {
      CountDeliver(s, f, ScalarOp(s, f).value, GetGate(f).value);
    }
    if ProfileOp(s, f).Some? && GetGate(f).Some? {
      CountDeliver(s, f, ProfileOp(s, f).value, GetGate(f).value);
    }
  }

  lemma CountBatches(s: Server, f: Fields)
    requires Pending(s)
    ensures Counted(Begin(s, f).0) && Counted(Commit(s, f).0) && Counted(Abort(s, f).0)
  {
    hide CommitOps, GetGate;
    if "id" in f && f["id"].JString? {
      if f["id"].s in s.open {
        Removed(s.open, f["id"].s);
      } else {
        Added(s.open, f["id"].s);
      }
    }
  }

  lemma CountDispatch(s: Server, f: Fields)
    requires Pending(s)
    ensures Counted(Dispatch(s, f).0)
  {
    CountOps(s, f);
    CountBatches(s, f);
    hide Scalar, Swap, Begin, Commit, Abort;
  }

  lemma CountHandle(stod: Conversion, s: Server, body: string)
    requires Counted(s)
    ensures Counted(Handle(stod, s, body).0)
  {
    hide Dispatch, ReadObject;
    var s1 := s.(received := s.received + 1);
    assert Pending(s1);
    var r := ReadObject(stod, body, 0);
    if r.Ok? {
      CountDispatch(s1, r.value);
    }
  }

  /** In every state the server can reach, by whatever messages: each runtime-written field is in
      its range, each profile fits, each staged operation names a live link and a known
      parameter, and the counters add up. */
  lemma {:induction false} ServerLaws(stod: Conversion, s0: Server, bodies: seq<string>)
    requires Fresh(s0)
    ensures Lawful(s0, HandleAll(stod, s0, bodies)) && Counted(HandleAll(stod, s0, bodies))
  {
    if bodies != [] {
      ServerLaws(stod, s0, bodies[..|bodies| - 1]);
      var s := HandleAll(stod, s0, bodies[..|bodies| - 1]);
      hide Lawful, Counted, Handle;
      HandleKeeps(stod, s0, s, bodies[|bodies| - 1]);
      CountHandle(stod, s, bodies[|bodies| - 1]);
    }
  }
}

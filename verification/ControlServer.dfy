/** The control server itself: its maps and counters, and the links' controls it writes. */
module ControlServers {
  import opened Wrappers
  import opened Json
  import opened RuntimeControl
  import opened Control

  function LinkOf(c: LinkControl): Link
    reads c
  {
    Link(c.ControlView(), c.currentSlot, c.dlSizeHint, c.slotCountHint)
  }

  class ControlServer {
    const linkMap: map<string, LinkControl?>
    const warmupCap: nat
    const stod: Conversion

    var openBatches: map<string, seq<StagedOp>>
    var msgsReceived: nat
    var updatesApplied: nat
    var updatesRejected: nat
    var batchesCommitted: nat
    var batchesAborted: nat
    ghost var batchesBegun: nat

    ghost function Controls(): set<object> {
      set l | l in linkMap && linkMap[l] != null :: linkMap[l]
    }

    lemma Elsewhere()
      ensures this !in Controls()
    {
      forall l | l in linkMap && linkMap[l] != null ensures linkMap[l] as object != this {
      }
    }

    /** Every link has a control of its own. */
    ghost predicate Valid() {
      forall a, b :: a in linkMap && b in linkMap && a != b && linkMap[a] != null ==> linkMap[a] != linkMap[b]
    }

    ghost function Linked(): (ls: Links)
      reads Controls()
    {
      map l | l in linkMap && linkMap[l] != null :: LinkOf(linkMap[l])
    }

    ghost function Snapshot(): Server
      reads this, Controls()
    {
      Server(Linked(), warmupCap, openBatches, msgsReceived, updatesApplied, updatesRejected,
             batchesBegun, batchesCommitted, batchesAborted)
    }

    constructor (links: map<string, LinkControl?>, cap: nat, conversion: Conversion)
      requires forall a, b :: a in links && b in links && a != b && links[a] != null ==> links[a] != links[b]
      ensures Valid() && linkMap == links && warmupCap == cap && stod == conversion
      ensures Snapshot() == Server(Linked(), cap, map[], 0, 0, 0, 0, 0, 0)
    {
      linkMap, warmupCap, stod, openBatches := links, cap, conversion, map[];
      msgsReceived, updatesApplied, updatesRejected, batchesBegun, batchesCommitted, batchesAborted := 0, 0, 0, 0, 0, 0;
    }

    // ---- Whitelist ----------------------------------------------------------------------------

    static method FindParamSpec(name: string) returns (r: Option<ParamSpec>)
      ensures r == FindParam(name)
    {
      for k := 0 to |PARAM_SPECS|
        invariant FindFrom(name, k) == FindParam(name)
      {
        if PARAM_SPECS[k].name == name {
          return Some(PARAM_SPECS[k]);
        }
      }
      r := None;
    }

    /** Writes the field and bumps the version; unknown names change nothing. */
    static method ApplyUpdate(ctl: LinkControl, name: string, value: real) returns (ok: bool)
      modifies ctl`shadow, ctl`seqno
      ensures FindParam(name).Some? ==> ok
      ensures ok ==> ctl.shadow == WithParam(old(ctl.shadow), name, value) && ctl.seqno == old(ctl.seqno) + 1
      ensures !ok ==> ctl.shadow == old(ctl.shadow) && ctl.seqno == old(ctl.seqno)
    {
      ok := true;
      if name == "path_loss_db" {
        ctl.shadow := ctl.shadow.(pathLossDb := value);
      } else if name == "awgn_snr_db" {
        ctl.shadow := ctl.shadow.(awgnSnrDb := value);
      } else if name == "los_k_db" {
        ctl.shadow := ctl.shadow.(losKDb := value);
      } else if name == "cfo_hz" {
        ctl.shadow := ctl.shadow.(cfoHz := value);
      } else if name == "tap0_delay_samples" {
        ctl.shadow := ctl.shadow.(tap0Delay := value);
      } else if name == "tap0_gain_db" {
        ctl.shadow := ctl.shadow.(tap0GainDb := value);
      } else if name == "tap0_phase_rad" {
        ctl.shadow := ctl.shadow.(tap0PhaseRad := value);
      } else {
        KnownNames(name);
        return false;
      }
      ctl.seqno := ctl.seqno + 1;
    }

    // ---- Writing a link -------------------------------------------------------------------------

    /** Carries an operation out on its link, gate first and version last for a scalar; a profile
        goes before its gate. */
    method Apply(op: StagedOp, gate: nat)
      requires Valid() && op.link in Linked() && (op.StagedScalar? ==> FindParam(op.param).Some?)
      modifies linkMap[op.link]
      ensures Linked() == old(Linked())[op.link := OpLink(old(Linked())[op.link], op, gate)]
    {
      var ctl: LinkControl := linkMap[op.link];
      match op
      case StagedScalar(_, param, value) =>
        ctl.takeEffectAtSlot := gate;
        var ok := ApplyUpdate(ctl, param, value);
        assert ok;
      case StagedProfile(_, profile) =>
        ctl.shadowProfile := profile;
        ctl.profilePending := true;
        ctl.takeEffectAtSlot := gate;
        ctl.seqno := ctl.seqno + 1;
    }

    method EmitRejection() returns (reply: Reply)
      modifies this`updatesRejected
      ensures (Snapshot(), reply) == Reject(old(Snapshot()))
    {
      Elsewhere();
      updatesRejected := updatesRejected + 1;
      reply := Rejected;
    }

    method ResolveOptionalBatch(f: Fields) returns (t: Target)
      ensures t == GetTarget(Snapshot(), f)
    {
      if "batch_id" !in f {
        return Direct;
      }
      if !f["batch_id"].JString? {
        return Bad;
      }
      var id := f["batch_id"].s;
      if id == "" || id !in openBatches {
        return Bad;
      }
      t := Batch(id);
    }

    /** Stages a validated operation, or carries it out. */
    method DeliverOp(f: Fields, op: StagedOp, gate: nat) returns (reply: Reply)
      requires Valid() && op.link in Linked() && (op.StagedScalar? ==> FindParam(op.param).Some?)
      modifies this, Controls()
      ensures (Snapshot(), reply) == Deliver(old(Snapshot()), f, op, gate)
    {
      var target := ResolveOptionalBatch(f);
      hide OpLink, FindParam;
      if target.Bad? {
        reply := EmitRejection();
      } else if target.Batch? {
        reply := StageOp(target.id, op);
      } else {
        reply := ApplyNow(op, gate);
      }
    }

    method StageOp(id: string, op: StagedOp) returns (reply: Reply)
      requires id in openBatches
      modifies this
      ensures reply == Staged
      ensures var s := old(Snapshot());
        Snapshot() == s.(open := s.open[id := s.open[id] + [op]], applied := s.applied + 1)
    {
      Elsewhere();
      openBatches := openBatches[id := openBatches[id] + [op]];
      updatesApplied := updatesApplied + 1;
      reply := Staged;
    }

    method ApplyNow(op: StagedOp, gate: nat) returns (reply: Reply)
      requires Valid() && op.link in Linked() && (op.StagedScalar? ==> FindParam(op.param).Some?)
      modifies this`updatesApplied, linkMap[op.link]
      ensures var s := old(Snapshot());
        var l := OpLink(s.links[op.link], op, gate);
        var at := Later(l.view.gate, l.now);
        Snapshot() == s.(links := s.links[op.link := l], applied := s.applied + 1) &&
        reply == if op.StagedScalar? then Updated(l.view.seqno, at) else Swapped(l.view.seqno, at, at + 1)
    {
      hide OpLink, FindParam;
      Elsewhere();
      Apply(op, gate);
      var ctl: LinkControl := linkMap[op.link];
      assert Linked()[op.link] == LinkOf(ctl);
      var now := ctl.currentSlot;
      var at := if ctl.takeEffectAtSlot > now then ctl.takeEffectAtSlot else now;
      reply := if op.StagedScalar? then Updated(ctl.seqno, at) else Swapped(ctl.seqno, at, at + 1);
      updatesApplied := updatesApplied + 1;
    }

    // ---- Updates and swaps --------------------------------------------------------------------------

    method HandleScalarUpdate(f: Fields) returns (reply: Reply)
      requires Valid()
      modifies this, Controls()
      ensures (Snapshot(), reply) == Scalar(old(Snapshot()), f)
    {
      var op := CheckScalar(f);
      var gate := GetGate(f);
      if op.None? || gate.None? {
        reply := EmitRejection();
      } else {
        reply := DeliverOp(f, op.value, gate.value);
      }
    }

    method CheckScalar(f: Fields) returns (op: Option<StagedOp>)
      requires Valid()
      ensures op == ScalarOp(Snapshot(), f)
      ensures op.Some? ==> op.value.link in Linked() && op.value.StagedScalar? && FindParam(op.value.param).Some?
    {
      if "link_id" !in f || "param" !in f || "value" !in f {
        return None;
      }
      if !f["link_id"].JString? || !f["param"].JString? || !f["value"].JNumber? {
        return None;
      }
      var link, param, value := f["link_id"].s, f["param"].s, f["value"].n;
      if link !in linkMap || linkMap[link] == null {
        return None;
      }
      var spec := FindParamSpec(param);
      if spec.None? {
        return None;
      }
      if value < spec.value.min || value > spec.value.max {
        return None;
      }
      if spec.value.isInt && value != value.Floor as real {
        return None;
      }
      op := Some(StagedScalar(link, param, value));
    }

    method HandleProfileSwap(f: Fields) returns (reply: Reply)
      requires Valid()
      modifies this, Controls()
      ensures (Snapshot(), reply) == Swap(old(Snapshot()), f)
    {
      var op := CheckProfile(f);
      var gate := GetGate(f);
      if op.None? || gate.None? {
        reply := EmitRejection();
      } else {
        reply := DeliverOp(f, op.value, gate.value);
      }
    }

    method CheckProfile(f: Fields) returns (op: Option<StagedOp>)
      requires Valid()
      ensures op == ProfileOp(Snapshot(), f)
      ensures op.Some? ==> op.value.link in Linked() && op.value.StagedProfile?
    {
      if "link_id" !in f || !f["link_id"].JString? {
        return None;
      }
      var link := f["link_id"].s;
      if link !in linkMap || linkMap[link] == null {
        return None;
      }
      var ctl: LinkControl := linkMap[link];
      if warmupCap > 0 && ctl.dlSizeHint > 0 && ctl.slotCountHint > 0 {
        var span := (ctl.dlSizeHint + ctl.slotCountHint - 1) / ctl.slotCountHint;
        if span > warmupCap {
          return None;
        }
      }
      if "taps" !in f || !f["taps"].JArray? || |f["taps"].items| == 0 || |f["taps"].items| > MAX_TAPS {
        return None;
      }
      var taps := ParseTaps(f["taps"].items);
      var fading, force := FadingOf(f), GetBool(f, "force", false);
      if taps.None? || fading.None? || force.None? {
        return None;
      }
      op := Some(StagedProfile(link, Profile(taps.value, fading.value, force.value)));
    }

    static method ParseTaps(vs: seq<Value>) returns (taps: Option<seq<TapSpec>>)
      ensures taps == TapsOf(vs)
    {
      var staged: seq<TapSpec> := [];
      for k := 0 to |vs|
        invariant TapsOf(vs[..k]) == Some(staged)
      {
        assert vs[..k + 1][..k] == vs[..k];
        var t := TapOf(vs[k]);
        if t.None? {
          NoTaps(vs, k + 1);
          return None;
        }
        staged := staged + [t.value];
      }
      assert vs[..|vs|] == vs;
      taps := Some(staged);
    }

    // ---- Batches --------------------------------------------------------------------------------------

    method HandleBatchBegin(f: Fields) returns (reply: Reply)
      modifies this
      ensures (Snapshot(), reply) == Begin(old(Snapshot()), f)
    {
      if "id" !in f || !f["id"].JString? || f["id"].s == "" || f["id"].s in openBatches {
        reply := EmitRejection();
        return;
      }
      Elsewhere();
      openBatches := openBatches[f["id"].s := []];
      batchesBegun := batchesBegun + 1;
      reply := Begun(f["id"].s);
    }

    method HandleBatchCommit(f: Fields) returns (reply: Reply)
      requires Valid()
      modifies this, Controls()
      ensures (Snapshot(), reply) == Commit(old(Snapshot()), f)
    {
      if "id" !in f || !f["id"].JString? || f["id"].s !in openBatches {
        reply := EmitRejection();
        return;
      }
      var id := f["id"].s;
      var gate := GetGate(f);
      if gate.None? {
        reply := EmitRejection();
        return;
      }
      var applied := CommitAll(openBatches[id], gate.value);
      batchesCommitted := batchesCommitted + 1;
      openBatches := openBatches - {id};
      reply := Committed(applied, gate.value);
    }

    /** The staged operations in order; what cannot be applied any more is skipped. */
    method CommitAll(ops: seq<StagedOp>, gate: nat) returns (applied: nat)
      requires Valid()
      modifies Controls()
      ensures (Linked(), applied) == CommitOps(old(Linked()), ops, gate)
    {
      applied := 0;
      for k := 0 to |ops|
        invariant (Linked(), applied) == CommitOps(old(Linked()), ops[..k], gate)
      {
        assert ops[..k + 1][..k] == ops[..k];
        var op := ops[k];
        ghost var was := Linked();
        if op.link in linkMap && linkMap[op.link] != null {
          if op.StagedScalar? {
            var spec := FindParamSpec(op.param);
            if spec.None? {
              WriteGate(op.link, gate);
              continue;
            }
          }
          Apply(op, gate);
          applied := applied + 1;
        }
      }
      assert ops[..|ops|] == ops;
    }

    method WriteGate(link: string, gate: nat)
      requires Valid() && link in Linked()
      modifies linkMap[link]
      ensures Linked() == old(Linked())[link := old(Linked())[link].(view := old(Linked())[link].view.(gate := gate))]
    {
      var ctl: LinkControl := linkMap[link];
      ctl.takeEffectAtSlot := gate;
    }

    method HandleBatchAbort(f: Fields) returns (reply: Reply)
      modifies this
      ensures (Snapshot(), reply) == Abort(old(Snapshot()), f)
    {
      if "id" !in f || !f["id"].JString? || f["id"].s !in openBatches {
        reply := EmitRejection();
        return;
      }
      Elsewhere();
      var dropped := |openBatches[f["id"].s]|;
      openBatches := openBatches - {f["id"].s};
      batchesAborted := batchesAborted + 1;
      reply := Aborted(dropped);
    }

    // ---- One message --------------------------------------------------------------------------------------

    /** Reads the body and hands it to the handler its type names. */
    method HandleMessage(body: string) returns (reply: Reply)
      requires Valid()
      modifies this, Controls()
      ensures (Snapshot(), reply) == Handle(stod, old(Snapshot()), body)
    {
      hide ReadObject, Dispatch;
      CountMessage();
      var r := ReadBody(body);
      if r.Err? {
        reply := EmitRejection();
        return;
      }
      reply := HandleFields(r.value);
    }

    method CountMessage()
      modifies this`msgsReceived
      ensures Snapshot() == old(Snapshot()).(received := old(Snapshot()).received + 1)
    {
      Elsewhere();
      msgsReceived := msgsReceived + 1;
    }

    method ReadBody(body: string) returns (r: Read<Fields>)
      ensures r == ReadObject(stod, body, 0)
    {
      var reader := new JsonReader(body, stod);
      r := reader.TakeObject();
    }

    method HandleFields(f: Fields) returns (reply: Reply)
      requires Valid()
      modifies this, Controls()
      ensures (Snapshot(), reply) == Dispatch(old(Snapshot()), f)
    {
      var kind := GetString(f, "type", "scalar");
      if kind.None? {
        reply := EmitRejection();
      } else if kind.value == "scalar" {
        reply := HandleScalarUpdate(f);
      } else if kind.value == "profile_swap" {
        reply := HandleProfileSwap(f);
      } else if kind.value == "batch_begin" {
        reply := HandleBatchBegin(f);
      } else if kind.value == "batch_commit" {
        reply := HandleBatchCommit(f);
      } else if kind.value == "batch_abort" {
        reply := HandleBatchAbort(f);
      } else {
        reply := EmitRejection();
      }
    }
  }

  lemma KnownNames(name: string)
    ensures FindParam(name).Some? ==>
              name in {"path_loss_db", "awgn_snr_db", "los_k_db", "cfo_hz", "tap0_delay_samples", "tap0_gain_db", "tap0_phase_rad"}
  {
  }

  lemma {:induction false} NoTaps(vs: seq<Value>, k: nat)
    requires k <= |vs| && TapsOf(vs[..k]).None?
    ensures TapsOf(vs).None?
    decreases |vs| - k
  {
    if k == |vs| {
      assert vs[..k] == vs;
    } else {
      assert vs[..k + 1][..k] == vs[..k];
      NoTaps(vs, k + 1);
    }
  }
}

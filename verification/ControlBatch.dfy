/** Committing a batch is sending its operations one by one with the commit's gate. */
module ControlBatch {
  import opened Wrappers
  import opened Json
  import opened RuntimeControl
  import opened Control
  import opened ControlLaws

  // ---- Which messages write -----------------------------------------------------------------------

  /** Only an update, a swap or a commit touches any link; staging, opening, aborting and every
      rejection leave all of them as they are. */
  lemma OnlyAppliedMessagesWrite(s: Server, f: Fields)
    ensures var (s', r) := Dispatch(s, f);
      r.Updated? || r.Swapped? || r.Committed? || s'.links == s.links
  {
    hide ScalarOp, ProfileOp, CommitOps, OpLink;
  }

  // ---- Sequences of messages --------------------------------------------------------------------------

  function DispatchAll(s: Server, fs: seq<Fields>): Server {
    if fs == [] then s else Dispatch(DispatchAll(s, fs[..|fs| - 1]), fs[|fs| - 1]).0
  }

  /** Every one of the messages is answered "staged". */
  predicate AllStaged(s: Server, fs: seq<Fields>) {
    fs == [] ||
    (AllStaged(s, fs[..|fs| - 1]) && Dispatch(DispatchAll(s, fs[..|fs| - 1]), fs[|fs| - 1]).1.Staged?)
  }

  /** The same message for immediate delivery with gate `t`. */
  function Unbatched(f: Fields, t: nat): Fields {
    (f - {"batch_id"})["take_effect_at_slot" := JNumber(t as real)]
  }

  function AllUnbatched(fs: seq<Fields>, t: nat): (gs: seq<Fields>)
    ensures |gs| == |fs| && forall k :: 0 <= k < |fs| ==> gs[k] == Unbatched(fs[k], t)
  {
    seq(|fs|, k requires 0 <= k < |fs| => Unbatched(fs[k], t))
  }

  function Kind(f: Fields): Option<string> {
    GetString(f, "type", "scalar")
  }

  /** The operation a message asks for. */
  function OpOf(s: Server, f: Fields): Option<StagedOp> {
    if Kind(f) == Some("scalar") then ScalarOp(s, f)
    else if Kind(f) == Some("profile_swap") then ProfileOp(s, f)
    else None
  }

  /** Servers that check operations alike. */
  predicate Alike(s: Server, s': Server) {
    && s'.links.Keys == s.links.Keys && s'.cap == s.cap
    && forall l :: l in s.links ==> s'.links[l].ring == s.links[l].ring && s'.links[l].slotLength == s.links[l].slotLength
  }

  lemma SameOp(s: Server, s': Server, f: Fields)
    requires Alike(s, s')
    ensures OpOf(s', f) == OpOf(s, f)
  {
    if "link_id" in f && f["link_id"].JString? && f["link_id"].s in s.links {
      assert TooLong(s', f["link_id"].s) <==> TooLong(s, f["link_id"].s);
    }
    hide TapsOf, FadingOf, FindParam, Accepts, TooLong;
  }

  lemma UnbatchedOp(s: Server, f: Fields, t: nat)
    ensures OpOf(s, Unbatched(f, t)) == OpOf(s, f) && Kind(Unbatched(f, t)) == Kind(f)
    ensures GetGate(Unbatched(f, t)) == Some(t) && GetTarget(s, Unbatched(f, t)) == Direct
  {
    hide TapsOf, FindParam, Accepts, TooLong, FadingOf;
    var g := Unbatched(f, t);
    assert forall key :: key != "batch_id" && key != "take_effect_at_slot" ==> (key in g <==> key in f);
    assert forall key :: key in g && key != "take_effect_at_slot" ==> g[key] == f[key];
    assert (t as real).Floor == t;
    SameFading(f, g);
  }

  lemma SameFading(f: Fields, g: Fields)
    requires "fading" in g <==> "fading" in f
    requires "fading" in f ==> g["fading"] == f["fading"]
    ensures FadingOf(g) == FadingOf(f)
  {
  }

  /** What a staged message did. */
  lemma StagedMessage(s: Server, f: Fields, id: string)
    requires Dispatch(s, f).1.Staged? && "batch_id" in f && f["batch_id"] == JString(id)
    ensures OpOf(s, f).Some? && OpOk(s.links, OpOf(s, f).value) && id in s.open
    ensures Dispatch(s, f).0 ==
            s.(open := s.open[id := s.open[id] + [OpOf(s, f).value]], applied := s.applied + 1)
  {
    if ScalarOp(s, f).Some? {
      ScalarChecked(s, f);
    }
    if ProfileOp(s, f).Some? {
      ProfileChecked(s, f);
    }
    hide ScalarOp, ProfileOp, OpOk, GetGate, Commit, Begin, Abort;
  }

  /** What the same message does when delivered at once. */
  lemma DirectMessage(s: Server, f: Fields, t: nat)
    requires OpOf(s, f).Some? && OpOk(s.links, OpOf(s, f).value)
    ensures var op := OpOf(s, f).value;
      var s' := Dispatch(s, Unbatched(f, t)).0;
      s'.links == s.links[op.link := OpLink(s.links[op.link], op, t)] && s'.open == s.open && s'.cap == s.cap
  {
    UnbatchedOp(s, f, t);
    hide ScalarOp, ProfileOp, OpOk, GetGate, GetTarget, Commit, Begin, Abort, OpLink, Unbatched, TooLong;
    assert OpOf(s, f).value.link in s.links;
  }

  function OpsList(s: Server, fs: seq<Fields>): seq<StagedOp> {
    if fs == [] then []
    else OpsList(s, fs[..|fs| - 1]) + match OpOf(s, fs[|fs| - 1]) case None => [] case Some(op) => [op]
  }

  predicate ForBatch(fs: seq<Fields>, id: string) {
    forall k :: 0 <= k < |fs| ==> "batch_id" in fs[k] && fs[k]["batch_id"] == JString(id)
  }

  /** Each message asks for an operation that checks out against `s`. */
  ghost predicate Checked(s: Server, fs: seq<Fields>) {
    forall k :: 0 <= k < |fs| ==> OpOf(s, fs[k]).Some? && OpOk(s.links, OpOf(s, fs[k]).value)
  }

  lemma OpsOkNone(links: Links)
    ensures OpsOk(links, [])
  {
  }

  lemma CheckedSnoc(s: Server, fs: seq<Fields>)
    requires fs != [] && Checked(s, fs[..|fs| - 1])
    requires OpOf(s, fs[|fs| - 1]).Some? && OpOk(s.links, OpOf(s, fs[|fs| - 1]).value)
    ensures Checked(s, fs)
  {
    hide OpOf, OpOk;
    forall k | 0 <= k < |fs| ensures OpOf(s, fs[k]).Some? && OpOk(s.links, OpOf(s, fs[k]).value) {
      assert k < |fs| - 1 ==> fs[k] == fs[..|fs| - 1][k];
    }
  }

  lemma OpsOkSnoc(links: Links, ops: seq<StagedOp>, op: StagedOp)
    requires OpsOk(links, ops) && OpOk(links, op)
    ensures OpsOk(links, ops + [op])
  {
  }

  /** Staging collects the operations in order and touches no link. */
  lemma {:induction false} Staging(s: Server, fs: seq<Fields>, id: string)
    requires id in s.open && s.open[id] == [] && AllStaged(s, fs) && ForBatch(fs, id)
    ensures var s' := DispatchAll(s, fs);
      s'.links == s.links && s'.cap == s.cap && s'.open == s.open[id := OpsList(s, fs)]
    ensures Checked(s, fs) && OpsOk(s.links, OpsList(s, fs)) && |OpsList(s, fs)| == |fs|
  {
    hide OpOf, OpOk, OpsOk, Dispatch, Checked;
    if fs != [] {
      var rest, f := fs[..|fs| - 1], fs[|fs| - 1];
      Staging(s, rest, id);
      var before := DispatchAll(s, rest);
      StagedMessage(before, f, id);
      SameOp(s, before, f);
      OpsOkSnoc(s.links, OpsList(s, rest), OpOf(s, f).value);
      CheckedSnoc(s, fs);
    } else {
      OpsOkNone(s.links);
      NoneChecked(s);
      assert s.open == s.open[id := []];
    }
  }

  lemma NoneChecked(s: Server)
    ensures Checked(s, [])
  {
  }

  /** Sending them one by one carries them out in order. */
  lemma {:induction false} Sending(s: Server, fs: seq<Fields>, t: nat)
    requires Checked(s, fs)
    ensures var s' := DispatchAll(s, AllUnbatched(fs, t));
      s'.links == OpsDone(s.links, OpsList(s, fs), t) && s'.open == s.open && Alike(s, s')
  {
    if fs != [] {
      var rest, f := fs[..|fs| - 1], fs[|fs| - 1];
      assert Checked(s, rest) by {
        forall k | 0 <= k < |rest| ensures OpOf(s, rest[k]).Some? && OpOk(s.links, OpOf(s, rest[k]).value) {
          assert rest[k] == fs[k];
        }
      }
      Sending(s, rest, t);
      LastSent(s, rest, f, t);
      assert AllUnbatched(fs, t)[..|fs| - 1] == AllUnbatched(rest, t);
      assert AllUnbatched(fs, t)[|fs| - 1] == Unbatched(f, t);
      var ops, op := OpsList(s, rest), OpOf(s, f).value;
      assert OpsList(s, fs) == ops + [op] && (ops + [op])[..|ops|] == ops;
    }
  }

  lemma LastSent(s: Server, rest: seq<Fields>, f: Fields, t: nat)
    requires OpOf(s, f).Some? && OpOk(s.links, OpOf(s, f).value)
    requires var b := DispatchAll(s, AllUnbatched(rest, t));
      b.links == OpsDone(s.links, OpsList(s, rest), t) && b.open == s.open && Alike(s, b)
    ensures var b := DispatchAll(s, AllUnbatched(rest, t));
      var s', op := Dispatch(b, Unbatched(f, t)).0, OpOf(s, f).value;
      op.link in b.links && s'.links == b.links[op.link := OpLink(b.links[op.link], op, t)] && s'.open == s.open && Alike(s, s')
  {
    var b := DispatchAll(s, AllUnbatched(rest, t));
    SameOp(s, b, f);
    SameKeyOp(s.links, b.links, OpOf(s, f).value);
    DirectMessage(b, f, t);
    hide DispatchAll, Dispatch, OpOf, OpsDone, OpsList;
  }

  lemma Opened(s: Server, begin: Fields, id: string)
    requires id != "" && id !in s.open && "id" in begin && begin["id"] == JString(id)
    ensures Begin(s, begin).0 == s.(open := s.open[id := []], begun := s.begun + 1)
  {
  }

  lemma CommitOf(s: Server, commit: Fields, id: string, t: nat)
    requires "id" in commit && commit["id"] == JString(id) && GetGate(commit) == Some(t)
    requires id in s.open && OpsOk(s.links, s.open[id])
    ensures var ops := s.open[id];
      Commit(s, commit) ==
        (s.(links := OpsDone(s.links, ops, t), open := s.open - {id}, committed := s.committed + 1), Committed(|ops|, t))
  {
    CommitTakesAll(s.links, s.open[id], t);
    hide CommitOps, OpsDone, OpsOk, GetGate;
  }

  lemma Closed(open: map<string, seq<StagedOp>>, id: string, ops: seq<StagedOp>)
    requires id !in open
    ensures open[id := []][id := ops] - {id} == open
  {
  }

  /** A batch, opened, filled and committed with gate `t`, leaves every link - shadow, profile,
      pending mark, gate and version - exactly as the same messages sent unbatched in order
      with gate `t`; until the commit no link has changed; and the commit reports every
      operation applied. */
  lemma CommitRefinesSends(s: Server, id: string, begin: Fields, fs: seq<Fields>, commit: Fields, t: nat)
    requires id != "" && id !in s.open && "id" in begin && begin["id"] == JString(id)
    requires ForBatch(fs, id) && AllStaged(Begin(s, begin).0, fs)
    requires "id" in commit && commit["id"] == JString(id) && GetGate(commit) == Some(t)
    ensures var filled := DispatchAll(Begin(s, begin).0, fs);
      filled.links == s.links &&
      Commit(filled, commit).1 == Committed(|fs|, t) &&
      Commit(filled, commit).0.links == DispatchAll(s, AllUnbatched(fs, t)).links &&
      Commit(filled, commit).0.open == DispatchAll(s, AllUnbatched(fs, t)).open == s.open
  {
    hide *;
    Opened(s, begin, id);
    var s1 := Begin(s, begin).0;
    Staging(s1, fs, id);
    var filled := DispatchAll(s1, fs);
    ListSame(s, s1, fs);
    Sending(s, fs, t);
    CommitOf(filled, commit, id, t);
    Closed(s.open, id, OpsList(s, fs));
  }

  lemma {:induction false} ListSame(s: Server, s': Server, fs: seq<Fields>)
    requires s'.links == s.links && s'.cap == s.cap
    ensures OpsList(s', fs) == OpsList(s, fs) && (Checked(s', fs) <==> Checked(s, fs))
  {
    forall k | 0 <= k < |fs| ensures OpOf(s', fs[k]) == OpOf(s, fs[k]) {
      SameOp(s, s', fs[k]);
    }
    hide OpOf;
    if fs != [] {
      ListSame(s, s', fs[..|fs| - 1]);
    }
  }

  /** Aborting drops exactly what was staged, and nothing else. */
  lemma AbortDropsStaged(s: Server, id: string, begin: Fields, fs: seq<Fields>, abort: Fields)
    requires id != "" && id !in s.open && "id" in begin && begin["id"] == JString(id)
    requires ForBatch(fs, id) && AllStaged(Begin(s, begin).0, fs)
    requires "id" in abort && abort["id"] == JString(id)
    ensures var (s', r) := Abort(DispatchAll(Begin(s, begin).0, fs), abort);
      r == Aborted(|fs|) && s'.links == s.links && s'.open == s.open
  {
    hide *;
    Opened(s, begin, id);
    var s1 := Begin(s, begin).0;
    Staging(s1, fs, id);
    AbortOf(DispatchAll(s1, fs), abort, id);
    Closed(s.open, id, OpsList(s1, fs));
  }

  lemma AbortOf(s: Server, abort: Fields, id: string)
    requires "id" in abort && abort["id"] == JString(id) && id in s.open
    ensures Abort(s, abort) == (s.(open := s.open - {id}, aborted := s.aborted + 1), Aborted(|s.open[id]|))
  {
  }
}

/**
 A gated update with others behind it.  One gate serves every write of a link, so an update
 waits for the last gate written (src/control_server.cpp:580-586, 747-751, 843-853;
 include/ocudu_gpu_channel/runtime_control.h:150-192).
 */
module GateQueue {
  import opened Snap

  /** The operations a run has begun, in order. */
  function BegunOps(acts: seq<Action>): seq<seq<Write>> {
    if acts == [] then []
    else
      var rest, last := acts[..|acts| - 1], acts[|acts| - 1];
      if last.Begin? then BegunOps(rest) + [last.op] else BegunOps(rest)
  }

  /** Operation `k` sets the gate to `ts[k]` and publishes. */
  ghost predicate Queue(c: Config, ops: seq<seq<Write>>, ts: seq<nat>) {
    |ops| == |ts| && forall k :: 0 <= k < |ops| ==> Operation(c, ops[k]) && Gated(ops[k], ts[k])
  }

  /** However the threads interleave over the queue or part of it, the link stays as it was in
      every state before slot `t`. */
  ghost predicate HiddenUntil(c: Config, s0: State, ops: seq<seq<Write>>, t: nat)
    requires Shape(c, s0)
  {
    forall acts :: CanRun(c, s0, acts) && BegunOps(acts) <= ops && Run(c, s0, acts).slot < t ==> Unchanged(s0, Run(c, s0, acts))
  }

  function AllPublished(sh: Shared, ops: seq<seq<Write>>): (sh': Shared)
    ensures |sh'.shadow| == |sh.shadow| && |sh'.profile| == |sh.profile|
  {
    if ops == [] then sh else AllWritten(AllPublished(sh, ops[..|ops| - 1]), ops[|ops| - 1])
  }

  // ---- Late gates hide ---------------------------------------------------------------------------

  predicate LateGates(ws: seq<Write>, t: nat) {
    forall k :: 0 <= k < |ws| && ws[k].SetGate? ==> ws[k].slot >= t
  }

  predicate SetsGate(ws: seq<Write>) {
    exists k :: 0 <= k < |ws| && ws[k].SetGate?
  }

  predicate EndsInBump(ws: seq<Write>) {
    ws != [] ==> ws[|ws| - 1] == Bump && forall k :: 0 <= k < |ws| - 1 ==> ws[k] != Bump
  }

  /** Before slot `t` nothing has been copied: either nothing is published, or the gate is late. */
  predicate Waiting(c: Config, s0: State, t: nat, s: State) {
    && Shape(c, s) && s.sh.seqno >= s0.sh.seqno && LateGates(s.todo, t) && EndsInBump(s.todo)
    && (s.todo != [] ==> s.sh.gate >= t || SetsGate(s.todo))
    && (s.sh.seqno > s0.sh.seqno ==> s.sh.gate >= t)
    && (s.slot < t ==>
          && Unchanged(s0, s)
          && (s.pc == Start || s.pc == LoadSeqno || (s.pc.LoadGate? && s.sh.seqno > s0.sh.seqno)))
  }

  lemma WaitingBegins(c: Config, s0: State, t: nat, s: State, op: seq<Write>, ti: nat)
    requires Waiting(c, s0, t, s) && s.todo == [] && Operation(c, op) && Gated(op, ti) && ti >= t
    ensures Waiting(c, s0, t, Next(c, s, Begin(op)))
  {
    var k :| 0 <= k < |op| && op[k] == SetGate(ti);
  }

  lemma WaitingControl(c: Config, s0: State, t: nat, s: State)
    requires Waiting(c, s0, t, s) && s.todo != []
    ensures Waiting(c, s0, t, ControlStep(s))
  {
    var s' := ControlStep(s);
    assert forall k :: 0 <= k < |s'.todo| ==> s'.todo[k] == s.todo[k + 1];
    if s.sh.gate < t {
      var k :| 0 <= k < |s.todo| && s.todo[k].SetGate?;
      assert k > 0 ==> s'.todo[k - 1] == s.todo[k];
    }
    assert s.todo[0] == Bump <==> |s.todo| == 1;
  }

  lemma WaitingLink(c: Config, s0: State, t: nat, s: State)
    requires Waiting(c, s0, t, s) && Current(s0)
    ensures Waiting(c, s0, t, LinkStep(c, s))
  {
  }

  lemma {:induction false} WaitingRun(c: Config, s0: State, ops: seq<seq<Write>>, ts: seq<nat>, t: nat, acts: seq<Action>)
    requires Calm(c, s0) && Queue(c, ops, ts) && forall k :: 0 <= k < |ts| ==> ts[k] >= t
    requires CanRun(c, s0, acts) && BegunOps(acts) <= ops
    ensures Waiting(c, s0, t, Run(c, s0, acts))
    decreases |acts|
  {
    if acts != [] {
      var rest, last := acts[..|acts| - 1], acts[|acts| - 1];
      WaitingRun(c, s0, ops, ts, t, rest);
      var s := Run(c, s0, rest);
      match last
      case Begin(op) =>
        var k := |BegunOps(rest)|;
        assert op == ops[k];
        WaitingBegins(c, s0, t, s, op, ts[k]);
      case Control => WaitingControl(c, s0, t, s);
      case Link => WaitingLink(c, s0, t, s);
    }
  }

  // ---- An early gate shows -----------------------------------------------------------------------

  lemma Extend(c: Config, s0: State, acts: seq<Action>, a: Action)
    requires Shape(c, s0) && CanRun(c, s0, acts) && Enabled(c, Run(c, s0, acts), a)
    ensures CanRun(c, s0, acts + [a]) && Run(c, s0, acts + [a]) == Next(c, Run(c, s0, acts), a)
    ensures BegunOps(acts + [a]) == if a.Begin? then BegunOps(acts) + [a.op] else BegunOps(acts)
  {
    assert (acts + [a])[..|acts + [a]| - 1] == acts;
  }

  /** The operation under way carried out with the link standing still. */
  lemma {:induction false} Publish(c: Config, s0: State, acts: seq<Action>) returns (acts': seq<Action>)
    requires Shape(c, s0) && CanRun(c, s0, acts)
    ensures CanRun(c, s0, acts') && BegunOps(acts') == BegunOps(acts)
    ensures var s := Run(c, s0, acts); Run(c, s0, acts') == s.(sh := AllWritten(s.sh, s.todo), todo := [])
    decreases |Run(c, s0, acts).todo|
  {
    if Run(c, s0, acts).todo == [] {
      acts' := acts;
    } else {
      Extend(c, s0, acts, Control);
      acts' := Publish(c, s0, acts + [Control]);
    }
  }

  /** Nothing new to see: the link lets slots pass, up to the one that looks at slot `n`. */
  lemma {:induction false} LetPass(c: Config, s0: State, acts: seq<Action>, n: nat) returns (acts': seq<Action>)
    requires Shape(c, s0) && CanRun(c, s0, acts)
    requires var s := Run(c, s0, acts); s.todo == [] && Current(s) && (s.pc == Start || s.pc == LoadSeqno) && s.slot <= n
    ensures CanRun(c, s0, acts') && BegunOps(acts') == BegunOps(acts)
    ensures var s, s' := Run(c, s0, acts), Run(c, s0, acts');
      s'.pc == LoadSeqno && s'.slot == n && s'.todo == [] && s'.sh == s.sh && Unchanged(s, s')
    decreases n - Run(c, s0, acts).slot, if Run(c, s0, acts).pc == Start then 1 else 0
  {
    var s := Run(c, s0, acts);
    if s.pc == LoadSeqno && s.slot == n {
      acts' := acts;
    } else {
      Extend(c, s0, acts, Link);
      acts' := LetPass(c, s0, acts + [Link], n);
    }
  }

  lemma {:induction false} GateAfter(sh: Shared, ws: seq<Write>, t: nat)
    requires forall k :: 0 <= k < |ws| && ws[k].SetGate? ==> ws[k].slot == t
    requires sh.gate == t || exists k :: 0 <= k < |ws| && ws[k] == SetGate(t)
    ensures AllWritten(sh, ws).gate == t
    decreases |ws|
  {
    if ws != [] {
      if sh.gate != t {
        var k :| 0 <= k < |ws| && ws[k] == SetGate(t);
        assert k > 0 ==> ws[1..][k - 1] == ws[k];
      }
      GateAfter(Written(sh, ws[0]), ws[1..], t);
    }
  }

  lemma {:induction false} SeqnoAfter(sh: Shared, ws: seq<Write>)
    requires EndsInBump(ws)
    ensures AllWritten(sh, ws).seqno == if ws == [] then sh.seqno else sh.seqno + 1
    decreases |ws|
  {
    if ws != [] {
      assert ws[0] == Bump <==> |ws| == 1;
      SeqnoAfter(Written(sh, ws[0]), ws[1..]);
    }
  }

  lemma OperationEnds(c: Config, op: seq<Write>)
    requires Operation(c, op)
    ensures op != [] && EndsInBump(op)
  {
  }

  /** A whole queue published while the link stands still. */
  lemma {:induction false} PublishAll(c: Config, s0: State, acts: seq<Action>, ops: seq<seq<Write>>) returns (acts': seq<Action>)
    requires Shape(c, s0) && CanRun(c, s0, acts) && Run(c, s0, acts).todo == []
    requires forall k :: 0 <= k < |ops| ==> Operation(c, ops[k])
    ensures CanRun(c, s0, acts') && BegunOps(acts') == BegunOps(acts) + ops
    ensures var s := Run(c, s0, acts); Run(c, s0, acts') == s.(sh := AllPublished(s.sh, ops))
    ensures AllPublished(Run(c, s0, acts).sh, ops).seqno == Run(c, s0, acts).sh.seqno + |ops|
    decreases |ops|
  {
    hide CanRun, Run, BegunOps, AllWritten, Operation;
    if ops == [] {
      acts' := acts;
    } else {
      OperationEnds(c, ops[|ops| - 1]);
      var last := ops[|ops| - 1];
      var mid := PublishAll(c, s0, acts, ops[..|ops| - 1]);
      Extend(c, s0, mid, Begin(last));
      acts' := Publish(c, s0, mid + [Begin(last)]);
      SeqnoAfter(Run(c, s0, mid).sh, last);
      assert ops[..|ops| - 1] + [last] == ops;
    }
  }

  /** A copy nobody interrupts, up to the moment its version is stored. */
  lemma {:induction false} CopyAll(c: Config, s0: State, acts: seq<Action>) returns (acts': seq<Action>)
    requires Shape(c, s0) && CanRun(c, s0, acts)
    requires var s := Run(c, s0, acts); s.pc.CopyField? && s.live[..s.pc.i] == s.sh.shadow[..s.pc.i]
    ensures CanRun(c, s0, acts') && BegunOps(acts') == BegunOps(acts)
    ensures var s, s' := Run(c, s0, acts), Run(c, s0, acts');
      s'.slot == s.slot && s'.sh == s.sh && s'.live == s.sh.shadow && s'.liveSeqno == s.pc.observed
    decreases FIELDS - Run(c, s0, acts).pc.i
  {
    var s := Run(c, s0, acts);
    Grow(s.live, s.sh.shadow, s.pc.i);
    Extend(c, s0, acts, Link);
    var next := acts + [Link];
    if s.pc.i + 1 < FIELDS {
      acts' := CopyAll(c, s0, next);
    } else {
      Extend(c, s0, next, Link);
      acts' := next + [Link];
    }
  }

  /** A follower gated early lets everything written so far through: in this interleaving, before
      the first update's slot, the link already runs the shadow with the first update in it. */
  lemma EarlyGateShows(c: Config, s0: State, ops: seq<seq<Write>>, ts: seq<nat>, i: nat, t: nat) returns (acts: seq<Action>)
    requires Calm(c, s0) && Queue(c, ops, ts) && i < |ops| && ts[i] < t && s0.slot < t
    ensures CanRun(c, s0, acts) && BegunOps(acts) == ops[..i + 1]
    ensures var s := Run(c, s0, acts);
      s.slot < t && s.sh == AllPublished(s0.sh, ops[..i + 1]) && s.live == s.sh.shadow && s.liveSeqno == s.sh.seqno > s0.liveSeqno
  {
    hide Calm, AllPublished, Queue, CanRun, Run, BegunOps;
    CalmFacts(c, s0);
    QueueFacts(c, ops, ts);
    var n := if ts[i] > s0.slot then ts[i] else s0.slot;
    var waited := LetPass(c, s0, [], n);
    var before := PublishAll(c, s0, waited, ops[..i + 1]);
    LastGate(s0.sh, c, ops, ts, i);
    Extend(c, s0, before, Link);
    Extend(c, s0, before + [Link], Link);
    acts := CopyAll(c, s0, before + [Link] + [Link]);
  }

  lemma CalmFacts(c: Config, s0: State)
    requires Calm(c, s0)
    ensures Shape(c, s0) && s0.todo == [] && Current(s0) && (s0.pc == Start || s0.pc == LoadSeqno)
    ensures CanRun(c, s0, []) && Run(c, s0, []) == s0 && BegunOps([]) == []
  {
  }

  lemma QueueFacts(c: Config, ops: seq<seq<Write>>, ts: seq<nat>)
    requires Queue(c, ops, ts)
    ensures |ops| == |ts| && forall k :: 0 <= k < |ops| ==> Operation(c, ops[k])
  {
  }

  /** After any of the queue's operations the gate is that operation's. */
  lemma LastGate(sh: Shared, c: Config, ops: seq<seq<Write>>, ts: seq<nat>, i: nat)
    requires Queue(c, ops, ts) && i < |ops|
    ensures AllPublished(sh, ops[..i + 1]).gate == ts[i]
  {
    assert ops[..i + 1][..i] == ops[..i];
    GateAfter(AllPublished(sh, ops[..i]), ops[i], ts[i]);
  }

  // ---- Exactly -------------------------------------------------------------------------------------

  /** An update gated at a slot still to come, with any updates behind it: over every interleaving
      nothing of it shows before its slot precisely when none of the followers is gated earlier. */
  lemma GateProtectsExactly(c: Config, s0: State, ops: seq<seq<Write>>, ts: seq<nat>)
    requires Calm(c, s0) && Queue(c, ops, ts) && ops != []
    ensures HiddenUntil(c, s0, ops, ts[0]) <==> s0.slot >= ts[0] || forall i :: 0 <= i < |ts| ==> ts[i] >= ts[0]
  {
    var t := ts[0];
    if s0.slot >= t {
      forall acts | CanRun(c, s0, acts) ensures Run(c, s0, acts).slot >= t {
        SlotsGrow(c, s0, acts);
      }
    } else if forall i :: 0 <= i < |ts| ==> ts[i] >= t {
      forall acts | CanRun(c, s0, acts) && BegunOps(acts) <= ops && Run(c, s0, acts).slot < t
        ensures Unchanged(s0, Run(c, s0, acts))
      {
        WaitingRun(c, s0, ops, ts, t, acts);
      }
    } else {
      var i :| 0 <= i < |ts| && ts[i] < t;
      var acts := EarlyGateShows(c, s0, ops, ts, i, t);
      assert !Unchanged(s0, Run(c, s0, acts));
    }
  }

  lemma {:induction false} SlotsGrow(c: Config, s0: State, acts: seq<Action>)
    requires Shape(c, s0) && CanRun(c, s0, acts)
    ensures Run(c, s0, acts).slot >= s0.slot
    decreases |acts|
  {
    if acts != [] {
      SlotsGrow(c, s0, acts[..|acts| - 1]);
    }
  }
}

/**
 The shadow protocol of include/ocudu_gpu_channel/runtime_control.h:150-192 with its writers
 in src/control_server.cpp:580-586, 747-751 and 843-853, one field access at a time.  The
 control thread and one link's thread interleave freely; accesses are sequentially
 consistent and counters do not wrap.
 */
module Snap {

  const FIELDS: nat := 7

  /** One access by the control thread. */
  datatype Write =
    | SetGate(slot: nat)
    | SetField(field: nat, value: real)
    | SetWord(word: nat, value: real)
    | SetPending
    | Bump

  /** Where the link's thread is within its slot. */
  datatype Pc =
    | Start
    | LoadSeqno
    | LoadGate(observed: nat)
    | CopyField(observed: nat, i: nat)
    | StoreSeqno(observed: nat)
    | LoadPending
    | LoadForce
    | CopyWord(j: nat)
    | Activate

  /** What the two threads share; `profile[0]` is the profile's force flag, 0.0 when clear. */
  datatype Shared = Shared(shadow: seq<real>, profile: seq<real>, pending: bool, gate: nat, seqno: nat)

  datatype State = State(
    sh: Shared, currentSlot: nat, todo: seq<Write>,
    live: seq<real>, liveProfile: seq<real>, active: bool, liveSeqno: nat, slot: nat, pc: Pc)

  /** A link whose chain leads with a tdl takes any profile; another one only a forced one. */
  datatype Config = Config(leads: bool, words: nat)

  predicate Shape(c: Config, s: State) {
    && |s.sh.shadow| == |s.live| == FIELDS && |s.sh.profile| == |s.liveProfile| == c.words > 0
    && (s.pc.CopyField? ==> s.pc.i < FIELDS) && (s.pc.CopyWord? ==> s.pc.j < c.words)
  }

  // ---- The control thread ---------------------------------------------------------------------

  /** An operation: writes, then the one bump that publishes them. */
  predicate Operation(c: Config, op: seq<Write>) {
    && op != [] && op[|op| - 1] == Bump
    && forall k :: 0 <= k < |op| - 1 ==> op[k] != Bump && Fits(c, op[k])
  }

  predicate Fits(c: Config, w: Write) {
    (w.SetField? ==> w.field < FIELDS) && (w.SetWord? ==> w.word < c.words)
  }

  function ScalarUpdate(field: nat, value: real, gate: nat): seq<Write> {
    [SetGate(gate), SetField(field, value), Bump]
  }

  function Words(ws: seq<real>): (w: seq<Write>)
    ensures |w| == |ws| && forall k :: 0 <= k < |w| ==> w[k] == SetWord(k, ws[k])
  {
    seq(|ws|, k requires 0 <= k < |ws| => SetWord(k, ws[k]))
  }

  function ProfileSwap(ws: seq<real>, gate: nat): seq<Write> {
    Words(ws) + [SetPending, SetGate(gate), Bump]
  }

  /** A committed batch gates each operation first. */
  function BatchedProfile(ws: seq<real>, gate: nat): seq<Write> {
    [SetGate(gate)] + Words(ws) + [SetPending, Bump]
  }

  function Written(sh: Shared, w: Write): (sh': Shared)
    ensures |sh'.shadow| == |sh.shadow| && |sh'.profile| == |sh.profile|
  {
    match w
    case SetGate(t) => sh.(gate := t)
    case SetField(f, v) => if f < |sh.shadow| then sh.(shadow := sh.shadow[f := v]) else sh
    case SetWord(k, v) => if k < |sh.profile| then sh.(profile := sh.profile[k := v]) else sh
    case SetPending => sh.(pending := true)
    case Bump => sh.(seqno := sh.seqno + 1)
  }

  /** An operation carried out in one go. */
  function AllWritten(sh: Shared, ws: seq<Write>): (sh': Shared)
    ensures |sh'.shadow| == |sh.shadow| && |sh'.profile| == |sh.profile|
    decreases |ws|
  {
    if ws == [] then sh else AllWritten(Written(sh, ws[0]), ws[1..])
  }

  /** The next access of the operation under way. */
  function ControlStep(s: State): State
    requires s.todo != []
  {
    s.(sh := Written(s.sh, s.todo[0]), todo := s.todo[1..])
  }

  // ---- The link's thread ------------------------------------------------------------------------

  function Done(s: State): State {
    s.(pc := Start, slot := s.slot + 1)
  }

  function LinkStep(c: Config, s: State): (s': State)
    requires Shape(c, s)
    ensures Shape(c, s')
  {
    match s.pc
    case Start => s.(currentSlot := s.slot, pc := LoadSeqno)
    case LoadSeqno => if s.sh.seqno == s.liveSeqno then Done(s) else s.(pc := LoadGate(s.sh.seqno))
    case LoadGate(observed) => if s.sh.gate > s.slot then Done(s) else s.(pc := CopyField(observed, 0))
    case CopyField(observed, i) =>
      s.(live := s.live[i := s.sh.shadow[i]], pc := if i + 1 < FIELDS then CopyField(observed, i + 1) else StoreSeqno(observed))
    case StoreSeqno(observed) => s.(liveSeqno := observed, pc := LoadPending)
    case LoadPending => if !s.sh.pending then Done(s) else if c.leads then s.(pc := CopyWord(0)) else s.(pc := LoadForce)
    case LoadForce => if s.sh.profile[0] == 0.0 then Done(s) else s.(pc := CopyWord(0))
    case CopyWord(j) =>
      s.(liveProfile := s.liveProfile[j := s.sh.profile[j]], pc := if j + 1 < c.words then CopyWord(j + 1) else Activate)
    case Activate => Done(s.(active := true))
  }

  // ---- Runs ----------------------------------------------------------------------------------------

  datatype Action = Begin(op: seq<Write>) | Control | Link

  predicate Enabled(c: Config, s: State, a: Action) {
    match a
    case Begin(op) => s.todo == [] && Operation(c, op)
    case Control => s.todo != []
    case Link => true
  }

  function Next(c: Config, s: State, a: Action): (s': State)
    requires Shape(c, s) && Enabled(c, s, a)
    ensures Shape(c, s')
  {
    match a
    case Begin(op) => s.(todo := op)
    case Control => ControlStep(s)
    case Link => LinkStep(c, s)
  }

  predicate CanRun(c: Config, s: State, acts: seq<Action>)
    requires Shape(c, s)
    decreases |acts|, 0
  {
    acts == [] || (CanRun(c, s, acts[..|acts| - 1]) && Enabled(c, Run(c, s, acts[..|acts| - 1]), acts[|acts| - 1]))
  }

  function Run(c: Config, s: State, acts: seq<Action>): (s': State)
    requires Shape(c, s) && CanRun(c, s, acts)
    ensures Shape(c, s')
    decreases |acts|, 1
  {
    if acts == [] then s else Next(c, Run(c, s, acts[..|acts| - 1]), acts[|acts| - 1])
  }

  /** As prepared: the live parameters mirror the shadow and nothing is pending. */
  predicate Initial(c: Config, s: State) {
    && Shape(c, s) && s.live == s.sh.shadow && !s.sh.pending && s.sh.gate == 0 && s.sh.seqno == s.liveSeqno == 0
    && s.todo == [] && !s.active && s.slot == 0 && s.pc == Start
  }

  // ---- Torn copies heal ---------------------------------------------------------------------------

  /** The profile the control thread has asked for, if the link takes it. */
  predicate Eligible(c: Config, s: State)
    requires Shape(c, s)
  {
    s.sh.pending && (c.leads || s.sh.profile[0] != 0.0)
  }

  predicate CaughtUp(c: Config, s: State)
    requires Shape(c, s)
  {
    s.live == s.sh.shadow && (Eligible(c, s) ==> s.active && s.liveProfile == s.sh.profile)
  }

  /** Writes the control thread has begun and not yet published, or published under a later
      number, are the only way a copy can be torn. */
  predicate Inv(c: Config, s: State) {
    && Shape(c, s) && s.liveSeqno <= s.sh.seqno
    && (s.todo != [] ==> s.todo[|s.todo| - 1] == Bump && forall k :: 0 <= k < |s.todo| - 1 ==> s.todo[k] != Bump)
    && match s.pc
       case Start => Settled(c, s)
       case LoadSeqno => Settled(c, s)
       case LoadGate(observed) => s.liveSeqno < observed <= s.sh.seqno && Settled(c, s)
       case CopyField(observed, i) =>
         s.liveSeqno < observed <= s.sh.seqno && (s.todo == [] && observed == s.sh.seqno ==> s.live[..i] == s.sh.shadow[..i])
       case StoreSeqno(observed) =>
         s.liveSeqno < observed <= s.sh.seqno && (s.todo == [] && observed == s.sh.seqno ==> s.live == s.sh.shadow)
       case LoadPending => Current(s) ==> s.live == s.sh.shadow
       case LoadForce => Current(s) ==> s.live == s.sh.shadow && s.sh.pending && !c.leads
       case CopyWord(j) => Current(s) ==> s.live == s.sh.shadow && s.liveProfile[..j] == s.sh.profile[..j]
       case Activate => Current(s) ==> s.live == s.sh.shadow && s.liveProfile == s.sh.profile
  }

  /** No operation is under way and the link has seen the last one. */
  predicate Current(s: State) {
    s.todo == [] && s.liveSeqno == s.sh.seqno
  }

  predicate Settled(c: Config, s: State)
    requires Shape(c, s)
  {
    Current(s) ==> CaughtUp(c, s)
  }

  lemma InitInv(c: Config, s: State)
    requires Initial(c, s)
    ensures Inv(c, s)
  {
  }

  lemma StepKeepsInv(c: Config, s: State, a: Action)
    requires Inv(c, s) && Enabled(c, s, a)
    ensures Inv(c, Next(c, s, a))
  {
    if a.Link? {
      LinkKeepsInv(c, s);
    }
  }

  lemma LinkKeepsInv(c: Config, s: State)
    requires Inv(c, s)
    ensures Inv(c, LinkStep(c, s))
  {
    if s.pc.CopyField? {
      CopyFieldKeeps(c, s);
    } else if s.pc.CopyWord? {
      CopyWordKeeps(c, s);
    } else {
      OtherKeeps(c, s);
    }
  }

  lemma Grow(x: seq<real>, y: seq<real>, i: nat)
    requires |x| == |y| && i < |x| && x[..i] == y[..i]
    ensures x[i := y[i]][..i + 1] == y[..i + 1] && (i + 1 == |x| ==> x[i := y[i]] == y)
  {
    assert x[i := y[i]][..i + 1] == x[..i] + [y[i]];
    assert y[..i + 1] == y[..i] + [y[i]];
    assert i + 1 == |x| ==> x[i := y[i]][..i + 1] == x[i := y[i]] && y[..i + 1] == y;
  }

  lemma CopyFieldKeeps(c: Config, s: State)
    requires Inv(c, s) && s.pc.CopyField?
    ensures Inv(c, LinkStep(c, s))
  {
    if s.todo == [] && s.pc.observed == s.sh.seqno {
      Grow(s.live, s.sh.shadow, s.pc.i);
    }
  }

  lemma CopyWordKeeps(c: Config, s: State)
    requires Inv(c, s) && s.pc.CopyWord?
    ensures Inv(c, LinkStep(c, s))
  {
    if Current(s) {
      Grow(s.liveProfile, s.sh.profile, s.pc.j);
    }
  }

  lemma OtherKeeps(c: Config, s: State)
    requires Inv(c, s) && !s.pc.CopyField? && !s.pc.CopyWord?
    ensures Inv(c, LinkStep(c, s))
  {
  }

  lemma {:induction false} RunKeepsInv(c: Config, s: State, acts: seq<Action>)
    requires Inv(c, s) && CanRun(c, s, acts)
    ensures Inv(c, Run(c, s, acts))
    decreases |acts|
  {
    if acts != [] {
      RunKeepsInv(c, s, acts[..|acts| - 1]);
      StepKeepsInv(c, Run(c, s, acts[..|acts| - 1]), acts[|acts| - 1]);
    }
  }

  /** However reads and writes interleaved before: whenever the control thread is between
      operations, no snap is in flight and the link has seen the last number, what the link
      runs with is the shadow. */
  lemma TornCopiesHeal(c: Config, s0: State, acts: seq<Action>)
    requires Initial(c, s0) && CanRun(c, s0, acts)
    ensures var s := Run(c, s0, acts);
      s.todo == [] && s.pc == Start && s.liveSeqno == s.sh.seqno ==> CaughtUp(c, s)
  {
    InitInv(c, s0);
    RunKeepsInv(c, s0, acts);
  }

  // ---- Once the control thread is quiet --------------------------------------------------------------

  function StepsLeft(c: Config, pc: Pc): nat
    requires (pc.CopyField? ==> pc.i < FIELDS) && (pc.CopyWord? ==> pc.j < c.words)
  {
    match pc
    case LoadSeqno => c.words + FIELDS + 6
    case LoadGate(_) => c.words + FIELDS + 5
    case CopyField(_, i) => c.words + 4 + (FIELDS - i)
    case StoreSeqno(_) => c.words + 4
    case LoadPending => c.words + 3
    case LoadForce => c.words + 2
    case CopyWord(j) => c.words - j + 1
    case Activate => 1
    case Start => 0
  }

  /** The rest of the slot with the control thread standing still. */
  function FinishSlot(c: Config, s: State): (s': State)
    requires Shape(c, s)
    ensures Shape(c, s')
    decreases StepsLeft(c, s.pc)
  {
    if s.pc == Start then s else FinishSlot(c, LinkStep(c, s))
  }

  /** Somewhere in a slot that takes over, or has taken over, everything published. */
  predicate OnTrack(s: State) {
    s.todo == [] &&
    match s.pc
    case Start => s.liveSeqno == s.sh.seqno
    case LoadSeqno => s.sh.gate <= s.slot
    case LoadGate(observed) => s.sh.gate <= s.slot && observed == s.sh.seqno
    case CopyField(observed, _) => observed == s.sh.seqno
    case StoreSeqno(observed) => observed == s.sh.seqno
    case _ => s.liveSeqno == s.sh.seqno
  }

  lemma {:induction false} FinishReaches(c: Config, s: State)
    requires Inv(c, s) && OnTrack(s)
    ensures var s' := FinishSlot(c, s);
      Inv(c, s') && s'.pc == Start && s'.sh == s.sh && Current(s') && CaughtUp(c, s') &&
      s'.slot == (if s.pc == Start then s.slot else s.slot + 1)
    decreases StepsLeft(c, s.pc)
  {
    if s.pc != Start {
      LinkKeepsInv(c, s);
      StaysOnTrack(c, s);
      FinishReaches(c, LinkStep(c, s));
    }
  }

  lemma StaysOnTrack(c: Config, s: State)
    requires Shape(c, s) && OnTrack(s) && s.pc != Start
    ensures OnTrack(LinkStep(c, s)) && LinkStep(c, s).sh == s.sh
    ensures LinkStep(c, s).slot == if LinkStep(c, s).pc == Start then s.slot + 1 else s.slot
  {
  }

  /** After the control thread has gone quiet, the first slot whose gate is open ends with the
      link running exactly the shadow. */
  lemma QuietSlotReaches(c: Config, s0: State, acts: seq<Action>)
    requires Initial(c, s0) && CanRun(c, s0, acts)
    ensures var s := Run(c, s0, acts);
      s.todo == [] && s.pc == Start && s.sh.gate <= s.slot ==>
        var s' := FinishSlot(c, LinkStep(c, s));
        s'.pc == Start && s'.slot == s.slot + 1 && s'.sh == s.sh && s'.liveSeqno == s.sh.seqno && CaughtUp(c, s')
  {
    InitInv(c, s0);
    RunKeepsInv(c, s0, acts);
    var s := Run(c, s0, acts);
    if s.todo == [] && s.pc == Start && s.sh.gate <= s.slot {
      LinkKeepsInv(c, s);
      FinishReaches(c, LinkStep(c, s));
    }
  }

  // ---- A slot nobody interrupts ------------------------------------------------------------------------

  lemma {:induction false} FinishFields(c: Config, s: State)
    requires Shape(c, s) && s.pc.CopyField? && s.live[..s.pc.i] == s.sh.shadow[..s.pc.i]
    ensures FinishSlot(c, s) == FinishSlot(c, s.(live := s.sh.shadow, pc := StoreSeqno(s.pc.observed)))
    decreases FIELDS - s.pc.i
  {
    Grow(s.live, s.sh.shadow, s.pc.i);
    if s.pc.i + 1 < FIELDS {
      FinishFields(c, LinkStep(c, s));
    }
  }

  lemma {:induction false} FinishWords(c: Config, s: State)
    requires Shape(c, s) && s.pc.CopyWord? && s.liveProfile[..s.pc.j] == s.sh.profile[..s.pc.j]
    ensures FinishSlot(c, s) == Done(s.(liveProfile := s.sh.profile, active := true))
    decreases c.words - s.pc.j
  {
    Grow(s.liveProfile, s.sh.profile, s.pc.j);
    var s1 := LinkStep(c, s);
    if s.pc.j + 1 < c.words {
      FinishWords(c, s1);
    } else {
      assert FinishSlot(c, s1) == FinishSlot(c, LinkStep(c, s1)) == LinkStep(c, s1);
    }
  }

  lemma FinishProfile(c: Config, s: State)
    requires Shape(c, s) && s.pc == LoadPending
    ensures FinishSlot(c, s) ==
            Done(if Eligible(c, s) then s.(liveProfile := s.sh.profile, active := true) else s)
  {
    var s1 := LinkStep(c, s);
    assert FinishSlot(c, s) == FinishSlot(c, s1);
    if s1.pc == LoadForce {
      var s2 := LinkStep(c, s1);
      assert FinishSlot(c, s1) == FinishSlot(c, s2);
      if s2.pc.CopyWord? {
        FinishWords(c, s2);
      }
    } else if s1.pc.CopyWord? {
      FinishWords(c, s1);
    }
  }

  /** What a slot does when the control thread stands still, from any state whatever: the
      parameters are taken over exactly when the version is new and the gate open, the profile
      exactly when it is also pending and eligible, and nothing else changes. */
  lemma SlotAlone(c: Config, s: State)
    requires Shape(c, s) && s.pc == Start
    ensures var takes := s.sh.seqno != s.liveSeqno && s.sh.gate <= s.slot;
      FinishSlot(c, LinkStep(c, s)) ==
        s.(currentSlot := s.slot, slot := s.slot + 1,
           live := if takes then s.sh.shadow else s.live,
           liveSeqno := if takes then s.sh.seqno else s.liveSeqno,
           liveProfile := if takes && Eligible(c, s) then s.sh.profile else s.liveProfile,
           active := s.active || (takes && Eligible(c, s)))
  {
    var s1 := LinkStep(c, s);
    var s2 := LinkStep(c, s1);
    assert FinishSlot(c, s1) == FinishSlot(c, s2);
    if s2.pc.LoadGate? {
      var s3 := LinkStep(c, s2);
      assert FinishSlot(c, s2) == FinishSlot(c, s3);
      if s3.pc.CopyField? {
        FinishFields(c, s3);
        var s4 := s3.(live := s.sh.shadow, pc := StoreSeqno(s.sh.seqno));
        assert FinishSlot(c, s4) == FinishSlot(c, LinkStep(c, s4));
        FinishProfile(c, LinkStep(c, s4));
      }
    }
  }

  // ---- The slot gate -------------------------------------------------------------------------------------

  /** The operation sets the gate to `t` before it publishes. */
  predicate Gated(op: seq<Write>, t: nat) {
    && (exists k :: 0 <= k < |op| && op[k] == SetGate(t))
    && forall k :: 0 <= k < |op| && op[k].SetGate? ==> op[k].slot == t
  }

  /** All three ways the control server writes are operations with one gate. */
  lemma WritersAreGated(c: Config, field: nat, value: real, ws: seq<real>, t: nat)
    requires field < FIELDS && |ws| == c.words
    ensures Operation(c, ScalarUpdate(field, value, t)) && Gated(ScalarUpdate(field, value, t), t)
    ensures Operation(c, ProfileSwap(ws, t)) && Gated(ProfileSwap(ws, t), t)
    ensures Operation(c, BatchedProfile(ws, t)) && Gated(BatchedProfile(ws, t), t)
  {
    assert ScalarUpdate(field, value, t)[0] == SetGate(t);
    assert ProfileSwap(ws, t)[|ws| + 1] == SetGate(t);
    assert BatchedProfile(ws, t)[0] == SetGate(t);
  }

  /** Nothing is pending and no snap is copying. */
  predicate Calm(c: Config, s: State) {
    Inv(c, s) && Current(s) && (s.pc == Start || s.pc == LoadSeqno)
  }

  predicate Unchanged(s0: State, s: State) {
    s.live == s0.live && s.liveProfile == s0.liveProfile && s.active == s0.active && s.liveSeqno == s0.liveSeqno
  }

  /** From the calm state `s0` one operation with gate `t` has begun, and no other since. */
  predicate Gating(c: Config, s0: State, op: seq<Write>, t: nat, s: State) {
    && Shape(c, s) && (s.sh.seqno == s0.sh.seqno || s.sh.seqno == s0.sh.seqno + 1)
    && AllWritten(s.sh, s.todo) == AllWritten(s0.sh, op)
    && (forall k :: 0 <= k < |s.todo| && s.todo[k].SetGate? ==> s.todo[k].slot == t)
    && (s.todo != [] ==> s.todo[|s.todo| - 1] == Bump && forall k :: 0 <= k < |s.todo| - 1 ==> s.todo[k] != Bump)
    && (s.todo == [] <==> s.sh.seqno == s0.sh.seqno + 1)
    && (s.sh.gate == t || exists k :: 0 <= k < |s.todo| && s.todo[k] == SetGate(t))
    && (if s.sh.seqno == s0.sh.seqno then Unchanged(s0, s) && (s.pc == Start || s.pc == LoadSeqno)
        else
          match s.pc
          case Start => Unchanged(s0, s) || (t <= s.slot && s.liveSeqno == s.sh.seqno)
          case LoadSeqno => Unchanged(s0, s) || (t <= s.slot && s.liveSeqno == s.sh.seqno)
          case LoadGate(observed) => Unchanged(s0, s) && observed == s.sh.seqno
          case CopyField(observed, _) => t <= s.slot && observed == s.sh.seqno
          case StoreSeqno(observed) => t <= s.slot && observed == s.sh.seqno
          case _ => t <= s.slot && s.liveSeqno == s.sh.seqno)
  }

  lemma GatingBegins(c: Config, s0: State, op: seq<Write>, t: nat)
    requires Calm(c, s0) && Operation(c, op) && Gated(op, t)
    ensures Gating(c, s0, op, t, Next(c, s0, Begin(op)))
  {
  }

  lemma GatingControl(c: Config, s0: State, op: seq<Write>, t: nat, s: State)
    requires Calm(c, s0) && Gating(c, s0, op, t, s) && s.todo != []
    ensures Gating(c, s0, op, t, ControlStep(s))
  {
    var s' := ControlStep(s);
    if s.sh.gate != t {
      var k :| 0 <= k < |s.todo| && s.todo[k] == SetGate(t);
      assert k > 0 ==> s'.todo[k - 1] == SetGate(t);
    }
    assert s.todo[0] == Bump <==> |s.todo| == 1;
    assert forall k :: 0 <= k < |s'.todo| ==> s'.todo[k] == s.todo[k + 1];
  }

  lemma GatingLink(c: Config, s0: State, op: seq<Write>, t: nat, s: State)
    requires Calm(c, s0) && Gating(c, s0, op, t, s)
    ensures Gating(c, s0, op, t, LinkStep(c, s))
  {
    if s.todo == [] {
      assert s.sh.gate == t;
    }
    hide AllWritten;
  }

  lemma {:induction false} GatingRun(c: Config, s0: State, op: seq<Write>, t: nat, acts: seq<Action>)
    requires Calm(c, s0) && Operation(c, op) && Gated(op, t)
    requires CanRun(c, s0, acts) && acts != [] && acts[0] == Begin(op)
    requires forall k :: 0 < k < |acts| ==> !acts[k].Begin?
    ensures Gating(c, s0, op, t, Run(c, s0, acts))
    decreases |acts|
  {
    var rest := acts[..|acts| - 1];
    if rest == [] {
      GatingBegins(c, s0, op, t);
      assert Run(c, s0, rest) == s0;
    } else {
      GatingRun(c, s0, op, t, rest);
      var s := Run(c, s0, rest);
      if acts[|acts| - 1].Control? {
        GatingControl(c, s0, op, t, s);
      } else {
        GatingLink(c, s0, op, t, s);
      }
    }
  }

  /** An update with gate `t`, written with nothing pending, is invisible in every state of every
      interleaving until it has been published and slot `t` has begun; and a slot that starts
      from then on ends with exactly the updated shadow. */
  lemma GateIsExact(c: Config, s0: State, op: seq<Write>, t: nat, acts: seq<Action>)
    requires Calm(c, s0) && Operation(c, op) && Gated(op, t)
    requires CanRun(c, s0, acts) && acts != [] && acts[0] == Begin(op)
    requires forall k :: 0 < k < |acts| ==> !acts[k].Begin?
    ensures var s := Run(c, s0, acts);
      s.slot < t || s.sh.seqno == s0.sh.seqno ==> Unchanged(s0, s)
    ensures var s := Run(c, s0, acts);
      s.pc == LoadSeqno && s.slot >= t && s.sh.seqno != s0.sh.seqno ==>
        var s' := FinishSlot(c, s);
        s'.sh == AllWritten(s0.sh, op) && s'.liveSeqno == s'.sh.seqno && CaughtUp(c, s')
  {
    GatingRun(c, s0, op, t, acts);
    RunKeepsInv(c, s0, acts);
    var s := Run(c, s0, acts);
    if s.pc == LoadSeqno && s.slot >= t && s.sh.seqno != s0.sh.seqno {
      FinishReaches(c, s);
    }
  }

  // ---- What the gate does not promise ---------------------------------------------------------------------

  lemma ScalarWritten(sh: Shared, field: nat, value: real, t: nat)
    requires field < |sh.shadow|
    ensures AllWritten(sh, ScalarUpdate(field, value, t)) ==
            sh.(shadow := sh.shadow[field := value], gate := t, seqno := sh.seqno + 1)
  {
    var op := ScalarUpdate(field, value, t);
    var one := Written(sh, op[0]);
    var two := Written(one, op[1]);
    assert op[1..][0] == op[1] && op[1..][1..][0] == Bump && op[1..][1..][1..] == [];
    assert AllWritten(sh, op) == AllWritten(one, op[1..]) == AllWritten(two, op[1..][1..]);
    assert AllWritten(Written(two, Bump), []) == Written(two, Bump);
  }

  /** With an update already waiting, a later one with no gate opens the earlier one's too: both
      are live long before the first one's slot. */
  lemma LaterWriteOpensGate(c: Config, s0: State, v: real, w: real)
    requires Initial(c, s0) && s0.sh.shadow[0] != v
    ensures var first, second := ScalarUpdate(0, v, 1000), ScalarUpdate(1, w, 0);
      var s := s0.(sh := AllWritten(AllWritten(s0.sh, first), second));
      var s' := FinishSlot(c, LinkStep(c, s));
      s'.slot == 1 && s'.live[0] == v && s'.live[0] != s0.live[0]
  {
    var first, second := ScalarUpdate(0, v, 1000), ScalarUpdate(1, w, 0);
    ScalarWritten(s0.sh, 0, v, 1000);
    var mid := AllWritten(s0.sh, first);
    ScalarWritten(mid, 1, w, 0);
    var sh := AllWritten(mid, second);
    var s := s0.(sh := sh);
    LinkKeepsInv(c, s);
    FinishReaches(c, LinkStep(c, s));
  }
}

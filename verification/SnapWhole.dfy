/**
 A swapped profile is never heard in part: its words are written before it is marked pending
 (src/control_server.cpp:747-751, 843-853), so even a snap that takes an earlier write over copies all of it.
 */
module SnapWhole {
  import opened Snap

  /** Scalar updates, and swaps that all carry the profile `ws`, sent at once or committed in a batch. */
  ghost predicate Carries(ws: seq<real>, op: seq<Write>) {
    || (exists field, value, gate :: op == ScalarUpdate(field, value, gate))
    || exists gate :: op == ProfileSwap(ws, gate) || op == BatchedProfile(ws, gate)
  }

  ghost predicate OneProfile(ws: seq<real>, acts: seq<Action>) {
    forall n :: 0 <= n < |acts| && acts[n].Begin? ==> Carries(ws, acts[n].op)
  }

  /** Word `w` is still to be written before access `i`. */
  ghost predicate Coming(ws: seq<real>, todo: seq<Write>, i: int, w: int) {
    0 <= w < |ws| && exists j :: 0 <= j < i && j < |todo| && todo[j] == SetWord(w, ws[w])
  }

  /** Every word is right by the time the profile is marked pending. */
  ghost predicate InOrder(ws: seq<real>, profile: seq<real>, todo: seq<Write>) {
    && |profile| == |ws|
    && (forall i :: 0 <= i < |todo| && todo[i].SetWord? ==> todo[i].word < |ws| && todo[i].value == ws[todo[i].word])
    && forall i, w :: 0 <= i < |todo| && todo[i].SetPending? && 0 <= w < |ws| ==> profile[w] == ws[w] || Coming(ws, todo, i, w)
  }

  ghost predicate Whole(c: Config, ws: seq<real>, s: State) {
    && Shape(c, s) && c.words == |ws| && InOrder(ws, s.sh.profile, s.todo)
    && (s.sh.pending ==> s.sh.profile == ws) && (s.active ==> s.liveProfile == ws)
    && (s.pc.LoadForce? || s.pc.CopyWord? || s.pc.Activate? ==> s.sh.pending)
    && (s.pc.CopyWord? ==> s.liveProfile[..s.pc.j] == ws[..s.pc.j]) && (s.pc.Activate? ==> s.liveProfile == ws)
  }

  lemma BeginsInOrder(c: Config, ws: seq<real>, profile: seq<real>, op: seq<Write>)
    requires Carries(ws, op) && |profile| == |ws|
    ensures InOrder(ws, profile, op)
  {
    if gate :| op == ProfileSwap(ws, gate) {
      forall i, w | 0 <= i < |op| && op[i].SetPending? && 0 <= w < |ws| ensures Coming(ws, op, i, w) {
        assert op[w] == Words(ws)[w];
      }
      assert forall i :: 0 <= i < |ws| ==> op[i] == Words(ws)[i];
    } else if gate :| op == BatchedProfile(ws, gate) {
      forall i, w | 0 <= i < |op| && op[i].SetPending? && 0 <= w < |ws| ensures Coming(ws, op, i, w) {
        assert op[w + 1] == Words(ws)[w];
      }
      assert forall i :: 1 <= i <= |ws| ==> op[i] == Words(ws)[i - 1];
    }
  }

  lemma PopsInOrder(ws: seq<real>, profile: seq<real>, todo: seq<Write>, profile': seq<real>)
    requires todo != [] && InOrder(ws, profile, todo) && |profile'| == |profile|
    requires forall w :: 0 <= w < |ws| ==> profile'[w] == if todo[0].SetWord? && todo[0].word == w then ws[w] else profile[w]
    ensures InOrder(ws, profile', todo[1..])
    ensures todo[0].SetPending? ==> profile == ws
  {
    var rest := todo[1..];
    forall i, w | 0 <= i < |rest| && rest[i].SetPending? && 0 <= w < |ws| ensures profile'[w] == ws[w] || Coming(ws, rest, i, w) {
      assert todo[i + 1] == rest[i];
      if profile[w] != ws[w] {
        var j :| 0 <= j < i + 1 && j < |todo| && todo[j] == SetWord(w, ws[w]);
        assert j > 0 ==> rest[j - 1] == todo[j];
      }
    }
    forall i | 0 <= i < |rest| && rest[i].SetWord? ensures rest[i].word < |ws| && rest[i].value == ws[rest[i].word] {
      assert rest[i] == todo[i + 1];
    }
  }

  lemma ControlKeepsWhole(c: Config, ws: seq<real>, s: State)
    requires Whole(c, ws, s) && s.todo != []
    ensures Whole(c, ws, ControlStep(s))
  {
    hide InOrder;
    var sh' := Written(s.sh, s.todo[0]);
    FirstWord(ws, s.sh.profile, s.todo);
    PopsInOrder(ws, s.sh.profile, s.todo, sh'.profile);
  }

  lemma FirstWord(ws: seq<real>, profile: seq<real>, todo: seq<Write>)
    requires todo != [] && InOrder(ws, profile, todo)
    ensures |profile| == |ws|
    ensures todo[0].SetWord? ==> todo[0].word < |ws| && todo[0].value == ws[todo[0].word]
  {
  }

  lemma LinkKeepsWhole(c: Config, ws: seq<real>, s: State)
    requires Whole(c, ws, s)
    ensures Whole(c, ws, LinkStep(c, s))
  {
    hide InOrder;
    if s.pc.CopyWord? {
      Grow(s.liveProfile, s.sh.profile, s.pc.j);
      assert s.active ==> s.liveProfile[s.pc.j := ws[s.pc.j]] == ws;
    }
  }

  lemma StepKeepsWhole(c: Config, ws: seq<real>, s: State, a: Action)
    requires Whole(c, ws, s) && Enabled(c, s, a) && (a.Begin? ==> Carries(ws, a.op))
    ensures Whole(c, ws, Next(c, s, a))
  {
    hide InOrder, Carries, Operation;
    match a
    case Begin(op) =>
      BeginsInOrder(c, ws, s.sh.profile, op);
    case Control =>
      ControlKeepsWhole(c, ws, s);
    case Link =>
      LinkKeepsWhole(c, ws, s);
  }

  lemma {:induction false} RunKeepsWhole(c: Config, ws: seq<real>, s: State, acts: seq<Action>)
    requires Whole(c, ws, s) && CanRun(c, s, acts) && OneProfile(ws, acts)
    ensures Whole(c, ws, Run(c, s, acts))
    decreases |acts|
  {
    hide Whole, Carries;
    assert Shape(c, s) by { WholeShape(c, ws, s); }
    if acts != [] {
      var n := |acts| - 1;
      assert OneProfile(ws, acts[..n]);
      RunKeepsWhole(c, ws, s, acts[..n]);
      StepKeepsWhole(c, ws, Run(c, s, acts[..n]), acts[n]);
    }
  }

  lemma WholeShape(c: Config, ws: seq<real>, s: State)
    requires Whole(c, ws, s)
    ensures Shape(c, s)
  {
  }

  /** Over every interleaving of one profile's swaps with any scalar updates, gated or not: a link whose
      profile is active has all of it, in every state, a copy in progress included. */
  lemma FirstProfileWhole(c: Config, ws: seq<real>, s0: State, acts: seq<Action>)
    requires Initial(c, s0) && c.words == |ws| && CanRun(c, s0, acts) && OneProfile(ws, acts)
    ensures Run(c, s0, acts).active ==> Run(c, s0, acts).liveProfile == ws
  {
    RunKeepsWhole(c, ws, s0, acts);
  }
}

/**
 What a puller does with its ring, over every run (src/broker.cpp:335-412): what one round releases,
 when it asks for more, and what becomes of a payload.
 */
module RelayPuller {
  import opened Wrappers
  import opened Iq
  import opened Relay
  import opened RelaySafety
  import opened RelayServes

  // ---- One round --------------------------------------------------------------------------------------------

  /** Link `j`, among the first `k`, reads device `d`'s ring. */
  predicate Leaves(t: Topology, d: nat, j: nat, k: nat) {
    j < k <= |t.links| && t.links[j].src == d
  }

  /** Since the round began in state `s0` the ring is as it was, and its links have only moved on. */
  ghost predicate Still(t: Topology, s0: State, s: State, d: nat)
    requires t.Valid() && d < |s0.tx| == |s.tx| && |s0.link| == |s.link| == |t.links|
  {
    && s.tx[d].puller.PScan? && s.tx[d].puller.link <= |t.links|
    && s.tx[d].hist == s0.tx[d].hist && s.tx[d].earliest == s0.tx[d].earliest
    && forall j: nat :: Leaves(t, d, j, |t.links|) ==>
         s0.link[j].ready == s.link[j].ready && s0.link[j].cursor <= s.link[j].cursor
  }

  /** What a scan has gathered of the first `k` links: that there is one, and, if all were ready when the
      round began in state `s0`, a position that one of them had reached. */
  ghost predicate Gathered(t: Topology, s0: State, d: nat, k: nat, m: nat, consumer: bool, outgoing: bool)
    requires t.Valid() && d < |s0.tx| && |s0.link| == |t.links|
  {
    && (outgoing <==> exists j: nat :: Leaves(t, d, j, k))
    && (outgoing && (forall j: nat :: Leaves(t, d, j, k) ==> s0.link[j].ready) ==>
          consumer && exists j: nat :: Leaves(t, d, j, k) && s0.link[j].cursor <= m)
    && (!outgoing ==> m == |s0.tx[d].hist|)
  }

  lemma LeavesNext(t: Topology, d: nat, j: nat, k: nat, next: nat)
    requires next == k + 1 <= |t.links|
    ensures Leaves(t, d, j, next) <==> Leaves(t, d, j, k) || (j == k && t.links[k].src == d)
  {
  }

  /** Link `k` leaves elsewhere. */
  lemma GatheredPast(t: Topology, s0: State, d: nat, k: nat, next: nat, m: nat, consumer: bool, outgoing: bool)
    requires t.Valid() && d < |s0.tx| && |s0.link| == |t.links| && next == k + 1 <= |t.links|
    requires t.links[k].src != d && Gathered(t, s0, d, k, m, consumer, outgoing)
    ensures Gathered(t, s0, d, next, m, consumer, outgoing)
  {
    hide Leaves;
    forall j: nat ensures Leaves(t, d, j, next) <==> Leaves(t, d, j, k) {
      LeavesNext(t, d, j, k, next);
    }
  }

  /** Link `k` is not ready yet. */
  lemma GatheredUnready(t: Topology, s0: State, d: nat, k: nat, next: nat, m: nat, consumer: bool)
    requires t.Valid() && d < |s0.tx| && |s0.link| == |t.links| && next == k + 1 <= |t.links|
    requires t.links[k].src == d && !s0.link[k].ready
    ensures Gathered(t, s0, d, next, m, consumer, true)
  {
    LeavesNext(t, d, k, k, next);
    hide Leaves;
    assert Leaves(t, d, k, next);
  }

  /** Link `k` stands at `cursor`. */
  lemma GatheredReady(t: Topology, s0: State, d: nat, k: nat, next: nat, m: nat, cursor: nat, m': nat, consumer: bool, outgoing: bool)
    requires t.Valid() && d < |s0.tx| && |s0.link| == |t.links| && next == k + 1 <= |t.links|
    requires t.links[k].src == d && s0.link[k].cursor <= cursor <= |s0.tx[d].hist|
    requires m' == if cursor < m then cursor else m
    requires Gathered(t, s0, d, k, m, consumer, outgoing)
    ensures Gathered(t, s0, d, next, m', true, true)
  {
    LeavesNext(t, d, k, k, next);
    hide Leaves;
    assert Leaves(t, d, k, next);
    if outgoing && forall j: nat :: Leaves(t, d, j, next) ==> s0.link[j].ready {
      forall j: nat | Leaves(t, d, j, k) ensures Leaves(t, d, j, next) && s0.link[j].ready {
        LeavesNext(t, d, j, k, next);
      }
      var j: nat :| Leaves(t, d, j, k) && s0.link[j].cursor <= m;
      assert Leaves(t, d, j, next);
    }
  }

  /** A scan in progress, seen from the state it began in. */
  ghost predicate Scanning(t: Topology, s0: State, s: State, d: nat)
    requires t.Valid() && d < |s0.tx| == |s.tx| && |s0.link| == |s.link| == |t.links|
  {
    var p := s.tx[d].puller;
    Still(t, s0, s, d) && Gathered(t, s0, d, p.link, p.minCursor, p.consumer, p.outgoing)
  }

  lemma ScanningFirst(t: Topology, s: State, d: nat)
    requires t.Valid() && Inv(t, s) && Shape(t, s) && Enabled(t, s, LockRing(d))
    ensures d < |s.tx| && Scanning(t, s, Next(t, s, LockRing(d)), d)
  {
    hide RxOk, TxOk, LinkOk, BudgetOk, Inv;
  }

  lemma ScanningLink(t: Topology, s0: State, s: State, d: nat)
    requires t.Valid() && Inv(t, s) && Shape(t, s) && Enabled(t, s, ScanLink(d)) && d < |s0.tx| == |s.tx|
    requires |s0.link| == |t.links| && Scanning(t, s0, s, d)
    ensures Scanning(t, s0, Next(t, s, ScanLink(d)), d)
  {
    hide Inv, Gathered, Next;
    PullerLeavesRest(t, s, ScanLink(d));
    var p, p' := s.tx[d].puller, ScanStep(t, s, d);
    var i := p.link;
    assert Next(t, s, ScanLink(d)).tx[d] == s.tx[d].(puller := p');
    if t.links[i].src != d {
      GatheredPast(t, s0, d, i, i + 1, p.minCursor, p.consumer, p.outgoing);
    } else {
      assert Leaves(t, d, i, |t.links|);
      CursorPosition(t, s, i);
      if s.link[i].ready {
        GatheredReady(t, s0, d, i, i + 1, p.minCursor, s.link[i].cursor, p'.minCursor, p.consumer, p.outgoing);
      } else {
        GatheredUnready(t, s0, d, i, i + 1, p'.minCursor, p'.consumer);
      }
    }
  }

  /** Steps of other threads. */
  lemma ScanningElsewhere(t: Topology, s0: State, s: State, a: Action, d: nat)
    requires t.Valid() && Inv(t, s) && Shape(t, s) && Enabled(t, s, a) && d < |s0.tx| == |s.tx|
    requires |s0.link| == |t.links| && Scanning(t, s0, s, d)
    requires a != ScanLink(d) && a != Discard(d)
    ensures Scanning(t, s0, Next(t, s, a), d)
  {
    hide Inv, Gathered, Next, LinksStep, ServerStep;
    if OfPuller(a) {
      PullerLeavesRest(t, s, a);
    } else {
      ServerLeavesRest(t, s, a);
      forall j: nat | Leaves(t, d, j, |t.links|)
        ensures LinksStep(t, s, a)[j].ready == s.link[j].ready && s.link[j].cursor <= LinksStep(t, s, a)[j].cursor
      {
        ServerMovesOwnCursors(t, s, a, j);
      }
    }
  }

  /** Step `a` locks `d`'s ring and step `i` is the discard that ends the round. */
  ghost predicate Round(acts: seq<Action>, a: nat, i: nat, d: nat) {
    a < i < |acts| && acts[a] == LockRing(d) && acts[i] == Discard(d) && forall m :: a < m < i ==> acts[m] != Discard(d)
  }

  lemma {:induction false} ScanningAlong(t: Topology, ss: seq<State>, acts: seq<Action>, a: nat, i: nat, d: nat, n: nat)
    requires t.Valid() && Trace(t, ss, acts) && Round(acts, a, i, d) && a < n <= i
    ensures |ss| == |acts| + 1 && Shape(t, ss[a]) && Shape(t, ss[n]) && d < |t.batch| && Scanning(t, ss[a], ss[n], d)
    decreases n
  {
    hide Inv, Next, Enabled, Trace, Scanning;
    First(t, ss, acts);
    TraceInv(t, ss, acts, n - 1);
    TraceInv(t, ss, acts, n);
    StepAt(t, ss, acts, n - 1);
    if n == a + 1 {
      ScanningFirst(t, ss[a], d);
    } else {
      ScanningAlong(t, ss, acts, a, i, d, n - 1);
      if acts[n - 1] == ScanLink(d) {
        ScanningLink(t, ss[a], ss[n - 1], d);
      } else {
        ScanningElsewhere(t, ss[a], ss[n - 1], acts[n - 1], d);
      }
    }
  }

  /** What one round releases, whatever other threads do meanwhile.  With no link reading the ring: all of
      it.  While one of them is not ready: nothing.  Otherwise at least what all of them had consumed when the
      round began, and nothing that one of them has not consumed when it ends.  The room it notes is the
      room it leaves. */
  lemma RoundReleases(t: Topology, ss: seq<State>, acts: seq<Action>, a: nat, i: nat, d: nat)
    requires t.Valid() && Trace(t, ss, acts) && Round(acts, a, i, d)
    ensures |ss| == |acts| + 1 && d < |ss[a].tx| == |ss[i].tx| == |ss[i + 1].tx| && |ss[a].link| == |ss[i].link| == |t.links|
    ensures var x, x' := ss[a].tx[d], ss[i + 1].tx[d];
      && x'.hist == x.hist && x'.puller == PDecide(t.queue - (|x'.hist| - x'.earliest))
      && ((forall j :: 0 <= j < |t.links| ==> t.links[j].src != d) ==> x'.earliest == |x'.hist|)
      && (forall j :: 0 <= j < |t.links| && t.links[j].src == d ==> x'.earliest <= ss[i].link[j].cursor)
      && (forall j :: 0 <= j < |t.links| && t.links[j].src == d && !ss[a].link[j].ready ==> x'.earliest == x.earliest)
      && ((exists j :: 0 <= j < |t.links| && t.links[j].src == d) &&
          (forall j :: 0 <= j < |t.links| && t.links[j].src == d ==> ss[a].link[j].ready) ==>
            exists j :: 0 <= j < |t.links| && t.links[j].src == d && ss[a].link[j].cursor <= x'.earliest)
  {
    hide Inv, Next, Enabled, Trace, Scanning;
    First(t, ss, acts);
    ScanningAlong(t, ss, acts, a, i, d, i);
    TraceInv(t, ss, acts, a);
    TraceInv(t, ss, acts, i);
    StepAt(t, ss, acts, i);
    RoundEnds(t, ss[a], ss[i], d);
  }

  lemma RoundEnds(t: Topology, s0: State, s: State, d: nat)
    requires t.Valid() && Inv(t, s0) && Inv(t, s) && Shape(t, s0) && Shape(t, s) && Enabled(t, s, Discard(d))
    requires d < |t.batch| && Scanning(t, s0, s, d)
    ensures |Next(t, s, Discard(d)).tx| == |s.tx|
    ensures var x, x' := s0.tx[d], Next(t, s, Discard(d)).tx[d];
      && x'.hist == x.hist && x'.puller == PDecide(t.queue - (|x'.hist| - x'.earliest))
      && ((forall j :: 0 <= j < |t.links| ==> t.links[j].src != d) ==> x'.earliest == |x'.hist|)
      && (forall j :: 0 <= j < |t.links| && t.links[j].src == d ==> x'.earliest <= s.link[j].cursor)
      && (forall j :: 0 <= j < |t.links| && t.links[j].src == d && !s0.link[j].ready ==> x'.earliest == x.earliest)
      && ((exists j :: 0 <= j < |t.links| && t.links[j].src == d) &&
          (forall j :: 0 <= j < |t.links| && t.links[j].src == d ==> s0.link[j].ready) ==>
            exists j :: 0 <= j < |t.links| && t.links[j].src == d && s0.link[j].cursor <= x'.earliest)
  {
    hide Inv, Next;
    PullerLeavesRest(t, s, Discard(d));
    var x := s.tx[d];
    RingSpan(t, s, d);
    forall j | 0 <= j < |t.links| && t.links[j].src == d
      ensures Leaves(t, d, j, |t.links|) && Released(x) <= s.link[j].cursor
      ensures s0.link[j].cursor <= |x.hist| && (!s0.link[j].ready ==> Released(x) == x.earliest)
    {
      DiscardKeepsNeeded(t, s, d, j);
      CursorPosition(t, s0, j);
      if !s0.link[j].ready {
        UnreadyAtStart(t, s0, j);
      }
    }
  }

  lemma RingSpan(t: Topology, s: State, d: nat)
    requires t.Valid() && Inv(t, s) && d < |s.tx|
    ensures s.tx[d].earliest <= |s.tx[d].hist|
  {
    hide RxOk, LinkOk, BudgetOk;
    assert Shape(t, s);
    assert TxOk(t, s.tx[d], s.link, d);
  }

  lemma UnreadyAtStart(t: Topology, s: State, j: nat)
    requires t.Valid() && Inv(t, s) && Shape(t, s) && j < |t.links| && !s.link[j].ready
    ensures s.tx[t.links[j].src].earliest == 0
  {
    hide RxOk, TxOk, BudgetOk;
    assert LinkOk(t, s.tx, s.link, j);
  }

  // ---- Asking and landing -------------------------------------------------------------------------------

  /** The room a puller decides by is what its ring can still take. */
  predicate RoomNoted(t: Topology, x: Tx) {
    x.puller.PDecide? ==> x.puller.room == t.queue - (|x.hist| - x.earliest)
  }

  /** A refused payload has been tried since it was received. */
  ghost predicate Tried(acts: seq<Action>, n: nat, d: nat) {
    exists m: nat :: m < n && TriedAt(acts, n, d, m)
  }

  ghost predicate TriedAt(acts: seq<Action>, n: nat, d: nat, m: nat) {
    m < n <= |acts| && acts[m] == Land(d) && forall k :: m < k < n ==> acts[k] != Take(d)
  }

  ghost predicate Counted(acts: seq<Action>, n: nat, d: nat, x: Tx) {
    if x.pending == [] then !x.counted else x.counted <==> Tried(acts, n, d)
  }

  lemma TriedNext(acts: seq<Action>, n: nat, next: nat, d: nat)
    requires next == n + 1 <= |acts|
    ensures Tried(acts, next, d) <==> acts[n] == Land(d) || (acts[n] != Take(d) && Tried(acts, n, d))
  {
    if acts[n] == Land(d) {
      assert TriedAt(acts, next, d, n);
    } else if acts[n] != Take(d) && Tried(acts, n, d) {
      var m: nat :| m < n && TriedAt(acts, n, d, m);
      assert TriedAt(acts, next, d, m);
    }
    if Tried(acts, next, d) && acts[n] != Land(d) {
      var m: nat :| m < next && TriedAt(acts, next, d, m);
      assert TriedAt(acts, n, d, m);
    }
  }

  lemma BooksStep(t: Topology, s: State, a: Action, d: nat, acts: seq<Action>, n: nat, next: nat)
    requires t.Valid() && Inv(t, s) && Shape(t, s) && Enabled(t, s, a) && d < |s.tx| && next == n + 1 <= |acts| && acts[n] == a
    requires RoomNoted(t, s.tx[d]) && Counted(acts, n, d, s.tx[d])
    ensures d < |Next(t, s, a).tx| && RoomNoted(t, Next(t, s, a).tx[d]) && Counted(acts, next, d, Next(t, s, a).tx[d])
  {
    hide Inv, Next, Tried;
    TriedNext(acts, n, next, d);
    if OfPuller(a) {
      PullerLeavesRest(t, s, a);
      OutstandingMeans(t, s, a.d);
    } else {
      ServerLeavesRest(t, s, a);
    }
  }

  lemma OutstandingMeans(t: Topology, s: State, d: nat)
    requires t.Valid() && Inv(t, s) && Shape(t, s) && d < |s.tx|
    ensures (s.tx[d].outstanding || s.tx[d].puller.PRecv? ==> s.tx[d].pending == [])
    ensures s.tx[d].flight.Some? ==> s.tx[d].outstanding
  {
    hide RxOk, LinkOk, BudgetOk;
    assert TxOk(t, s.tx[d], s.link, d);
  }

  lemma {:induction false} BooksAlong(t: Topology, ss: seq<State>, acts: seq<Action>, n: nat, d: nat)
    requires t.Valid() && Trace(t, ss, acts) && n < |ss| && d < |t.batch|
    ensures |ss| == |acts| + 1 && d < |ss[n].tx| && RoomNoted(t, ss[n].tx[d]) && Counted(acts, n, d, ss[n].tx[d])
  {
    hide Inv, Next, Enabled, Trace, RoomNoted, Counted;
    First(t, ss, acts);
    TraceInv(t, ss, acts, n);
    if n == 0 {
      BooksFirst(t, acts, d);
    } else {
      BooksAlong(t, ss, acts, n - 1, d);
      TraceInv(t, ss, acts, n - 1);
      StepAt(t, ss, acts, n - 1);
      BooksStep(t, ss[n - 1], acts[n - 1], d, acts, n - 1, n);
    }
  }

  lemma BooksFirst(t: Topology, acts: seq<Action>, d: nat)
    requires t.Valid() && d < |t.batch|
    ensures RoomNoted(t, Init(t).tx[d]) && Counted(acts, 0, d, Init(t).tx[d])
  {
  }

  /** With nothing to land a puller asks for more exactly when the ring can take a batch - sending the request,
      which may time out, only if none is under way - and starts another round exactly when it cannot. */
  lemma AsksExactly(t: Topology, ss: seq<State>, acts: seq<Action>, n: nat, d: nat)
    requires t.Valid() && Trace(t, ss, acts) && n < |ss| && d < |t.batch|
    ensures Shape(t, ss[n]) && |ss[n].tx| == |t.batch|
    ensures var x := ss[n].tx[d];
      var free := t.queue - (|x.hist| - x.earliest);
      x.puller.PDecide? ==>
        && (Enabled(t, ss[n], Land(d)) <==> x.pending != [])
        && (Enabled(t, ss[n], Ask(d)) <==> x.pending == [] && t.batch[d] <= free)
        && (Enabled(t, ss[n], NoRoom(d)) <==> x.pending == [] && free < t.batch[d])
        && (Enabled(t, ss[n], PullTimeout(d)) <==> x.pending == [] && t.batch[d] <= free && !x.outstanding)
  {
    hide Inv, Next, Trace, Counted;
    TraceInv(t, ss, acts, n);
    BooksAlong(t, ss, acts, n, d);
  }

  /** A payload is pushed whole exactly when it fits, and kept otherwise; its first refusal is counted and
      no later one is. */
  lemma PayloadLands(t: Topology, ss: seq<State>, acts: seq<Action>, i: nat, d: nat)
    requires t.Valid() && Trace(t, ss, acts) && i < |acts| && acts[i] == Land(d)
    ensures |ss| == |acts| + 1 && d < |ss[i].tx| == |ss[i + 1].tx|
    ensures var s, s', x, x' := ss[i], ss[i + 1], ss[i].tx[d], ss[i + 1].tx[d];
      && x.pending != [] && x'.earliest == x.earliest && x'.puller == PTop
      && if |x.pending| <= t.queue - (|x.hist| - x.earliest)
         then x'.hist == x.hist + x.pending && x'.pending == [] && s'.overflows == s.overflows
         else && x'.hist == x.hist && x'.pending == x.pending
              && s'.overflows == s.overflows +
                   if exists m: nat :: m < i && acts[m] == Land(d) && forall k :: m < k < i ==> acts[k] != Take(d) then 0 else 1
  {
    hide Inv, Trace;
    First(t, ss, acts);
    TraceInv(t, ss, acts, i);
    StepAt(t, ss, acts, i);
    assert acts[i].d == d;
    BooksAlong(t, ss, acts, i, d);
    assert Tried(acts, i, d) <==> exists m: nat :: m < i && acts[m] == Land(d) && forall k :: m < k < i ==> acts[k] != Take(d) by {
      TriedMeans(acts, i, d);
    }
  }

  lemma TriedMeans(acts: seq<Action>, n: nat, d: nat)
    requires n <= |acts|
    ensures Tried(acts, n, d) <==> exists m: nat :: m < n && acts[m] == Land(d) && forall k :: m < k < n ==> acts[k] != Take(d)
  {
    if m: nat :| m < n && acts[m] == Land(d) && forall k :: m < k < n ==> acts[k] != Take(d) {
      assert TriedAt(acts, n, d, m);
    }
    if Tried(acts, n, d) {
      var m: nat :| m < n && TriedAt(acts, n, d, m);
      assert acts[m] == Land(d);
    }
  }

  /** A reply longer than the ring stops its puller for good; any other is held to be landed. */
  lemma StopsExactly(t: Topology, ss: seq<State>, acts: seq<Action>, i: nat, d: nat)
    requires t.Valid() && Trace(t, ss, acts) && i < |acts| && acts[i] == Take(d)
    ensures |ss| == |acts| + 1 && d < |ss[i].tx| == |ss[i + 1].tx| && ss[i].tx[d].flight.Some?
    ensures var payload, x' := ss[i].tx[d].flight.value, ss[i + 1].tx[d];
      if |payload| > t.queue
      then x'.puller == PStopped && forall n :: i < n < |ss| ==> d < |ss[n].tx| && ss[n].tx[d].puller == PStopped
      else x'.puller == PTop && x'.pending == payload && !x'.outstanding && x'.flight.None?
  {
    hide Inv, Trace;
    First(t, ss, acts);
    TraceInv(t, ss, acts, i);
    TraceInv(t, ss, acts, i + 1);
    StepAt(t, ss, acts, i);
    assert acts[i].d == d && t.batch[d] <= t.queue;
    if |ss[i].tx[d].flight.value| > t.queue {
      forall n | i < n < |ss| ensures d < |ss[n].tx| && ss[n].tx[d].puller == PStopped {
        StaysStopped(t, ss, acts, i + 1, n, d);
      }
    }
  }

  lemma {:induction false} StaysStopped(t: Topology, ss: seq<State>, acts: seq<Action>, i: nat, n: nat, d: nat)
    requires t.Valid() && Trace(t, ss, acts) && i <= n < |ss| && d < |t.batch| && d < |ss[i].tx| && ss[i].tx[d].puller == PStopped
    ensures d < |ss[n].tx| && ss[n].tx[d].puller == PStopped
    decreases n
  {
    hide Inv, Trace;
    First(t, ss, acts);
    if n > i {
      StaysStopped(t, ss, acts, i, n - 1, d);
      TraceInv(t, ss, acts, n - 1);
      StepAt(t, ss, acts, n - 1);
    }
  }
}

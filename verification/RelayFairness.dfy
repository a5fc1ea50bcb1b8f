/**
 Progress under every fair schedule.  A behaviour is an infinite run; it is fair if every kind of step
 that is possible again and again is taken again and again - a timeout excepted, which need never happen
 and may happen whenever it can.  In every fair behaviour every node is served without end.
 */
module RelayFairness {
  import opened Wrappers
  import opened Iq
  import opened Relay
  import opened RelaySafety
  import opened RelayProgress

  datatype Behavior = Behavior(at: nat -> State, act: nat -> Action)

  /** A step up to the payload it carries. */
  function Kind(a: Action): Action {
    if a.Transmit? then Transmit(a.d, []) else a
  }

  ghost predicate Steps(t: Topology, b: Behavior, n: nat)
    requires t.Valid()
  {
    Shape(t, b.at(n)) && Enabled(t, b.at(n), b.act(n)) && b.at(n + 1) == Next(t, b.at(n), b.act(n))
  }

  ghost predicate Behaves(t: Topology, b: Behavior)
    requires t.Valid()
  {
    b.at(0) == Init(t) && forall n: nat :: Steps(t, b, n)
  }

  ghost predicate Possible(t: Topology, s: State, k: Action)
    requires t.Valid()
  {
    Shape(t, s) && exists a :: Kind(a) == k && Enabled(t, s, a)
  }

  ghost predicate PossibleFrom(t: Topology, b: Behavior, k: Action, n: nat)
    requires t.Valid()
  {
    exists i: nat :: n <= i && Possible(t, b.at(i), k)
  }

  ghost predicate TakenFrom(b: Behavior, k: Action, n: nat) {
    exists i: nat :: n <= i && Kind(b.act(i)) == k
  }

  ghost predicate Fair(t: Topology, b: Behavior)
    requires t.Valid()
  {
    forall k: Action, n: nat :: !k.PullTimeout? && (forall m: nat :: PossibleFrom(t, b, k, m)) ==> TakenFrom(b, k, n)
  }

  // ---- Along a behaviour ------------------------------------------------------------------------------

  lemma {:induction false} InvAt(t: Topology, b: Behavior, n: nat)
    requires t.Valid() && Behaves(t, b)
    ensures Inv(t, b.at(n)) && Steps(t, b, n)
  {
    hide Inv, Next, Enabled, Shape;
    if n == 0 {
      InitInv(t);
    } else {
      InvAt(t, b, n - 1);
      StepKeepsInv(t, b.at(n - 1), b.act(n - 1));
    }
  }

  lemma {:induction false} MonoAt(t: Topology, b: Behavior, n: nat, m: nat)
    requires t.Valid() && Behaves(t, b) && n <= m
    ensures Mono(b.at(n), b.at(m))
  {
    hide Inv, Next, Enabled, Shape, Mono;
    if n == m {
      MonoRefl(b.at(n));
    } else {
      MonoAt(t, b, n, m - 1);
      InvAt(t, b, m - 1);
      StepMono(t, b.at(m - 1), b.act(m - 1));
      MonoTrans(b.at(n), b.at(m - 1), b.at(m));
    }
  }

  ghost predicate NotYet(b: Behavior, k: Action, n: nat, m: nat) {
    forall j: nat :: n <= j < m ==> Kind(b.act(j)) != k
  }

  lemma Taken(t: Topology, b: Behavior, k: Action, n: nat)
    requires t.Valid() && Fair(t, b) && !k.PullTimeout?
    requires forall m: nat :: n <= m && NotYet(b, k, n, m) ==> PossibleFrom(t, b, k, m)
    ensures TakenFrom(b, k, n)
  {
    hide Possible;
    if exists m: nat :: !PossibleFrom(t, b, k, m) {
      var m: nat :| !PossibleFrom(t, b, k, m);
      var later := if m < n then n else m;
      assert !PossibleFrom(t, b, k, later);
      assert !NotYet(b, k, n, later);
    }
  }

  /** A step that stays within reach until it is taken is taken. */
  lemma Comes(t: Topology, b: Behavior, k: Action, n: nat) returns (i: nat)
    requires t.Valid() && Behaves(t, b) && Fair(t, b) && !k.PullTimeout?
    requires forall m: nat :: n <= m && NotYet(b, k, n, m) ==> PossibleFrom(t, b, k, m)
    ensures n <= i && Kind(b.act(i)) == k && NotYet(b, k, n, i)
  {
    hide PossibleFrom, Behaves, Fair;
    Taken(t, b, k, n);
    var j: nat :| n <= j && Kind(b.act(j)) == k;
    i := n;
    while Kind(b.act(i)) != k
      invariant n <= i <= j && NotYet(b, k, n, i)
      decreases j - i
    {
      i := i + 1;
    }
  }

  /** What has been taken was possible. */
  lemma TakenWasPossible(t: Topology, b: Behavior, k: Action, n: nat, m: nat, i: nat)
    requires t.Valid() && Behaves(t, b) && n <= m <= i && NotYet(b, k, n, m) && !NotYet(b, k, n, i)
    ensures PossibleFrom(t, b, k, m)
  {
    hide Enabled, Next, Shape;
    var j: nat :| n <= j < i && Kind(b.act(j)) == k;
    InvAt(t, b, j);
    assert Possible(t, b.at(j), k);
  }

  // ---- One puller's turn ----------------------------------------------------------------------------------

  /** What only the puller itself changes. */
  function Own(x: Tx): Tx {
    x.(atRadio := false, flight := None, sent := [])
  }

  /** The puller's next step when it has just one. */
  predicate Pinned(t: Topology, x: Tx, p: nat, k: Action)
    requires p < |t.batch|
  {
    match x.puller
    case PTop => k == LockRing(p)
    case PScan(j, _, _, _) => j <= |t.links| && k == if j < |t.links| then ScanLink(p) else Discard(p)
    case PDecide(room) =>
      if x.pending != [] then k == Land(p)
      else if room < t.batch[p] then k == NoRoom(p)
      else x.outstanding && k == Ask(p)
    case _ => false
  }

  lemma PinnedCan(t: Topology, s: State, p: nat, k: Action)
    requires t.Valid() && Shape(t, s) && p < |t.batch| && Pinned(t, s.tx[p], p, k)
    ensures Enabled(t, s, k) && k.d == p && !k.PullTimeout? && !k.Transmit? && Kind(k) == k && OfPuller(k)
  {
  }

  lemma PinnedOnly(t: Topology, s: State, a: Action, k: Action)
    requires t.Valid() && Inv(t, s) && Enabled(t, s, a) && OfPuller(a) && Pinned(t, s.tx[a.d], a.d, k) && Kind(a) != k
    ensures Own(PullerStep(t, s, a)) == Own(s.tx[a.d])
  {
    assert TxOk(t, s.tx[a.d], s.link, a.d);
    hide RxOk, LinkOk, BudgetOk;
  }

  lemma PinnedStep(t: Topology, s: State, a: Action, p: nat, k: Action)
    requires t.Valid() && Inv(t, s) && Enabled(t, s, a) && p < |t.batch| && |s.tx| == |t.batch| && Pinned(t, s.tx[p], p, k)
    ensures Kind(a) != k ==> Own(Next(t, s, a).tx[p]) == Own(s.tx[p])
  {
    hide Inv, Pinned, Next, Enabled, PullerStep, Own;
    InvBasics(t, s);
    EnabledDevice(t, s, a);
    if OfPuller(a) {
      PullerLeavesRest(t, s, a);
      if a.d == p && Kind(a) != k {
        PinnedOnly(t, s, a, k);
      }
    } else {
      ServerLeavesRest(t, s, a);
    }
  }

  lemma PinnedIsOwn(t: Topology, x: Tx, x': Tx, p: nat, k: Action)
    requires p < |t.batch| && Pinned(t, x, p, k) && Own(x) == Own(x')
    ensures Pinned(t, x', p, k)
  {
  }

  lemma {:induction false} PinnedHolds(t: Topology, b: Behavior, n: nat, m: nat, p: nat, k: Action)
    requires t.Valid() && Behaves(t, b) && n <= m && p < |t.batch| && p < |b.at(n).tx| && Pinned(t, b.at(n).tx[p], p, k) && NotYet(b, k, n, m)
    ensures p < |b.at(m).tx| && Own(b.at(m).tx[p]) == Own(b.at(n).tx[p])
    ensures Possible(t, b.at(m), k) && !k.PullTimeout? && !k.Transmit? && k.d == p && OfPuller(k)
  {
    hide Inv, Next, Enabled, Own, Pinned;
    if n < m {
      PinnedHolds(t, b, n, m - 1, p, k);
      InvAt(t, b, m - 1);
      InvBasics(t, b.at(m - 1));
      PinnedIsOwn(t, b.at(n).tx[p], b.at(m - 1).tx[p], p, k);
      PinnedStep(t, b.at(m - 1), b.act(m - 1), p, k);
    }
    InvAt(t, b, m);
    InvBasics(t, b.at(m));
    PinnedIsOwn(t, b.at(n).tx[p], b.at(m).tx[p], p, k);
    PinnedCan(t, b.at(m), p, k);
  }

  /** It is taken, from the same local state. */
  lemma PullerTurn(t: Topology, b: Behavior, n: nat, p: nat, k: Action) returns (i: nat)
    requires t.Valid() && Behaves(t, b) && Fair(t, b) && p < |t.batch| && p < |b.at(n).tx| && Pinned(t, b.at(n).tx[p], p, k)
    ensures n <= i && b.act(i) == k && p < |b.at(i).tx| && Own(b.at(i).tx[p]) == Own(b.at(n).tx[p])
    ensures Inv(t, b.at(i)) && Enabled(t, b.at(i), k) && p < |b.at(i + 1).tx| && b.at(i + 1).tx[p] == PullerStep(t, b.at(i), k)
  {
    hide Inv, Next, Enabled, Own, Pinned, Fair, Behaves, Possible, PullerStep;
    PinnedHolds(t, b, n, n, p, k);
    forall m: nat | n <= m && NotYet(b, k, n, m) ensures PossibleFrom(t, b, k, m) {
      PinnedHolds(t, b, n, m, p, k);
    }
    i := Comes(t, b, k, n);
    PinnedHolds(t, b, n, i, p, k);
    InvAt(t, b, i);
    PullerLeavesRest(t, b.at(i), k);
  }

  /** No ring stays locked. */
  lemma {:induction false} Unlocks(t: Topology, b: Behavior, n: nat, p: nat) returns (i: nat)
    requires t.Valid() && Behaves(t, b) && Fair(t, b) && p < |t.batch|
    ensures n <= i && p < |b.at(i).tx| && Unlocked(b.at(i), p)
    decreases LockLeft(t, b.at(n), p)
  {
    hide Inv, Next, Enabled, Fair, Behaves;
    InvAt(t, b, n);
    InvBasics(t, b.at(n));
    i := n;
    if !Unlocked(b.at(n), p) {
      ScanInRange(t, b.at(n), p);
      var k := Unlock(t, b.at(n), p);
      var j := PullerTurn(t, b, n, p, k);
      i := Unlocks(t, b, j + 1, p);
    }
  }

  function LockLeft(t: Topology, s: State, p: nat): nat {
    if p < |s.tx| then LockRank(t, s, p) else 0
  }

  lemma ScanInRange(t: Topology, s: State, p: nat)
    requires t.Valid() && Inv(t, s) && p < |s.tx| && s.tx[p].puller.PScan?
    ensures s.tx[p].puller.link <= |t.links|
  {
    assert TxOk(t, s.tx[p], s.link, p);
  }

  // ---- One server's turn ----------------------------------------------------------------------------------

  /** The server's next step, or its radio's. */
  function ServerKind(t: Topology, y: Rx, d: nat): Action {
    var n := |t.Incoming(d)|;
    match y.server
    case SWait => if y.request then Accept(d) else if y.reply.Some? then Consume(d) else Request(d)
    case SInit(k) => if k < n then CoInit(d) else EpochSet(d)
    case SScan(k, _) => if k < n then ScanEdge(d) else Decide(d)
    case SRead(k, _) => if k < n then ReadEdge(d) else Process(d)
    case SAdvance(_, _) => AdvanceCursor(d)
    case _ => SendReply(d)
  }

  lemma ServerPinned(t: Topology, s: State, a: Action, d: nat)
    requires t.Valid() && Inv(t, s) && Enabled(t, s, a) && d < |s.rx|
    requires a != ServerKind(t, s.rx[d], d)
    ensures Next(t, s, a).rx[d] == s.rx[d]
  {
    assert RxOk(t, s.tx, s.rx[d], s.link, d);
    if OfPuller(a) {
      PullerLeavesRest(t, s, a);
    } else {
      hide LogOk, CursorOk, ServingOk;
      ServerLeavesRest(t, s, a);
    }
  }

  lemma {:induction false} ServerHolds(t: Topology, b: Behavior, n: nat, m: nat, d: nat)
    requires t.Valid() && Behaves(t, b) && n <= m && d < |t.batch| && d < |b.at(n).rx| && NotYet(b, ServerKind(t, b.at(n).rx[d], d), n, m)
    ensures d < |b.at(m).rx| && b.at(m).rx[d] == b.at(n).rx[d]
  {
    hide Inv, Next, Enabled, ServerKind;
    if n < m {
      ServerHolds(t, b, n, m - 1, d);
      InvAt(t, b, m - 1);
      InvAt(t, b, m);
      InvBasics(t, b.at(m - 1));
      InvBasics(t, b.at(m));
      KindIsPlain(t, b.at(n).rx[d], d);
      ServerPinned(t, b.at(m - 1), b.act(m - 1), d);
    }
  }

  lemma KindIsPlain(t: Topology, y: Rx, d: nat)
    ensures var k := ServerKind(t, y, d); Kind(k) == k && k.d == d && OfServer(k)
  {
  }

  /** With the ring it reads unlocked, the server can go on. */
  lemma ServerCan(t: Topology, s: State, d: nat)
    requires Lively(t) && Inv(t, s) && d < |s.rx|
    requires Wanted(t, s, d).Some? ==> Unlocked(s, Wanted(t, s, d).value)
    ensures ServerChoice(t, s, d) == ServerKind(t, s.rx[d], d) && Enabled(t, s, ServerKind(t, s.rx[d], d))
  {
    ChoiceEnabled(t, s, d);
  }

  lemma ServerPossible(t: Topology, b: Behavior, n: nat, m: nat, d: nat)
    requires t.Valid() && Lively(t) && Behaves(t, b) && Fair(t, b) && n <= m && d < |t.batch| && d < |b.at(n).rx|
    requires NotYet(b, ServerKind(t, b.at(n).rx[d], d), n, m)
    ensures PossibleFrom(t, b, ServerKind(t, b.at(n).rx[d], d), m)
  {
    hide Inv, Next, Enabled, ServerKind, ServerChoice, Fair, Behaves, Unlocked;
    ServerHolds(t, b, n, m, d);
    KindIsPlain(t, b.at(n).rx[d], d);
    InvAt(t, b, m);
    InvBasics(t, b.at(m));
    var i := m;
    if Wanted(t, b.at(m), d).Some? {
      i := Unlocks(t, b, m, Wanted(t, b.at(m), d).value);
    }
    if NotYet(b, ServerKind(t, b.at(n).rx[d], d), n, i) {
      ServerHolds(t, b, n, i, d);
      InvAt(t, b, i);
      InvBasics(t, b.at(i));
      assert Wanted(t, b.at(i), d) == Wanted(t, b.at(m), d);
      ServerCan(t, b.at(i), d);
      assert Possible(t, b.at(i), ServerKind(t, b.at(n).rx[d], d));
    } else {
      TakenWasPossible(t, b, ServerKind(t, b.at(n).rx[d], d), n, m, i);
    }
  }

  lemma ServerTurn(t: Topology, b: Behavior, n: nat, d: nat) returns (i: nat)
    requires t.Valid() && Lively(t) && Behaves(t, b) && Fair(t, b) && d < |t.batch| && d < |b.at(n).rx|
    ensures n <= i && d < |b.at(i).rx| && b.at(i).rx[d] == b.at(n).rx[d]
    ensures Inv(t, b.at(i)) && Steps(t, b, i) && b.act(i) == ServerKind(t, b.at(n).rx[d], d)
  {
    hide Inv, Next, Enabled, ServerKind, Fair, Behaves, Possible, Lively;
    var k := ServerKind(t, b.at(n).rx[d], d);
    KindIsPlain(t, b.at(n).rx[d], d);
    forall m: nat | n <= m && NotYet(b, k, n, m) ensures PossibleFrom(t, b, k, m) {
      ServerPossible(t, b, n, m, d);
    }
    i := Comes(t, b, k, n);
    ServerHolds(t, b, n, i, d);
    InvAt(t, b, i);
  }

  lemma StillReadyLater(t: Topology, s: State, s': State, d: nat)
    requires t.Valid() && Shape(t, s) && Shape(t, s') && d < |t.batch| && EdgesReady(t, s, d) && Mono(s, s')
    requires s'.rx[d].served == s.rx[d].served
    ensures EdgesReady(t, s', d)
  {
    forall j | 0 <= j < |t.Incoming(d)| ensures s'.rx[d].served < |s'.tx[t.Source(d, j)].hist| {
      assert s.tx[t.Source(d, j)].hist <= s'.tx[t.Source(d, j)].hist;
    }
  }

  /** A node with samples on every edge is served. */
  lemma {:induction false} Served(t: Topology, b: Behavior, n: nat, d: nat) returns (i: nat)
    requires t.Valid() && Lively(t) && Behaves(t, b) && Fair(t, b) && d < |t.batch| && Shape(t, b.at(n)) && EdgesReady(t, b.at(n), d)
    ensures n <= i && d < |b.at(i).rx| && b.at(i).rx[d].served > b.at(n).rx[d].served
    decreases RankLeft(t, b.at(n), d)
  {
    hide Inv, Next, Enabled, ServerKind, Fair, Behaves, Lively, EdgesReady, Mono, ServerRank, ServerChoice;
    var j := ServerTurn(t, b, n, d);
    var s, a := b.at(j), b.act(j);
    MonoAt(t, b, n, j);
    StillReadyLater(t, b.at(n), s, d);
    EnabledIsChoice(t, s, d);
    ServerRankNat(t, s, d);
    KindIsPlain(t, s.rx[d], d);
    InvAt(t, b, j + 1);
    i := j + 1;
    if a.Process? {
      ProcessServes(t, s, d);
    } else {
      ServerRankFalls(t, s, d);
      StillReady(t, s, a, d);
      ServesLater(t, s, a, d);
      i := Served(t, b, j + 1, d);
    }
  }

  function RankLeft(t: Topology, s: State, d: nat): nat {
    if d < |s.rx| && ServerRank(t, s.rx[d], d) >= 0 then ServerRank(t, s.rx[d], d) else 0
  }

  lemma EnabledIsChoice(t: Topology, s: State, d: nat)
    requires t.Valid() && Inv(t, s) && d < |s.rx| && Enabled(t, s, ServerKind(t, s.rx[d], d))
    ensures ServerChoice(t, s, d) == ServerKind(t, s.rx[d], d)
  {
    hide Inv;
    InvBasics(t, s);
  }

  lemma ServesLater(t: Topology, s: State, a: Action, d: nat)
    requires t.Valid() && Inv(t, s) && Enabled(t, s, a) && d < |s.rx|
    ensures Shape(t, Next(t, s, a)) && Next(t, s, a).rx[d].served >= s.rx[d].served
  {
    hide Inv;
    StepMono(t, s, a);
  }

  // ---- A drained ring -----------------------------------------------------------------------------------------

  /** From now on nothing reaches ring `p`, though nobody waits for an older sample. */
  ghost predicate StuckAt(s: State, p: nat, v: nat) {
    p < |s.tx| && |s.tx[p].hist| == v && Drained(s, p)
  }

  ghost predicate Stuck(b: Behavior, n: nat, p: nat, v: nat) {
    forall i: nat :: n <= i ==> StuckAt(b.at(i), p, v)
  }

  lemma StuckNow(b: Behavior, n: nat, p: nat, v: nat, i: nat)
    requires Stuck(b, n, p, v) && n <= i
    ensures p < |b.at(i).tx| && |b.at(i).tx[p].hist| == v && Drained(b.at(i), p) && Stuck(b, i, p, v)
  {
    assert StuckAt(b.at(i), p, v);
  }

  /** The puller is at the top of its loop, or in a scan that will release the whole ring. */
  predicate Refreshing(t: Topology, x: Tx) {
    x.puller.PTop? || (x.puller.PScan? && StaleRank(t, x) == 0)
  }

  lemma RefreshPinned(t: Topology, s: State, p: nat) returns (k: Action)
    requires t.Valid() && Inv(t, s) && p < |s.tx| && Refreshing(t, s.tx[p])
    ensures |s.tx| == |t.batch| && Pinned(t, s.tx[p], p, k)
  {
    assert TxOk(t, s.tx[p], s.link, p);
    var x := s.tx[p];
    k := if x.puller.PTop? then LockRing(p) else if x.puller.link < |t.links| then ScanLink(p) else Discard(p);
  }

  lemma RefreshStep(t: Topology, s: State, p: nat, k: Action)
    requires Lively(t) && Inv(t, s) && Drained(s, p) && Refreshing(t, s.tx[p]) && Pinned(t, s.tx[p], p, k) && Enabled(t, s, k)
    ensures var x, x' := s.tx[p], PullerStep(t, s, k);
      x'.pending == x.pending && x'.outstanding == x.outstanding && RoundRank(t, x') < RoundRank(t, x)
      && (Refreshing(t, x') || x'.puller == PDecide(t.queue))
  {
    hide RxOk, LinkOk, BudgetOk;
    if k.ScanLink? {
      ScanStaysFresh(t, s, p);
    } else if k.Discard? {
      DiscardStaysFresh(t, s, p);
    }
  }

  lemma OwnFacts(t: Topology, x: Tx, x': Tx)
    requires Own(x) == Own(x')
    ensures x'.pending == x.pending && x'.outstanding == x.outstanding && x'.puller == x.puller && x'.hist == x.hist
    ensures RoundRank(t, x) == RoundRank(t, x') && (Refreshing(t, x) <==> Refreshing(t, x'))
  {
  }

  function RoundLeft(t: Topology, s: State, p: nat): nat {
    if p < |s.tx| then RoundRank(t, s.tx[p]) else 0
  }

  /** A round that starts on a drained ring finds all of it free. */
  lemma {:induction false} Refreshes(t: Topology, b: Behavior, n: nat, p: nat, v: nat) returns (i: nat)
    requires t.Valid() && Lively(t) && Behaves(t, b) && Fair(t, b) && p < |t.batch| && Stuck(b, n, p, v)
    requires p < |b.at(n).tx| && Refreshing(t, b.at(n).tx[p])
    ensures n <= i && p < |b.at(i).tx| && b.at(i).tx[p].puller == PDecide(t.queue)
    ensures b.at(i).tx[p].pending == b.at(n).tx[p].pending && b.at(i).tx[p].outstanding == b.at(n).tx[p].outstanding
    decreases RoundLeft(t, b.at(n), p)
  {
    hide Inv, Next, Enabled, Fair, Behaves, Lively, Own, Pinned, Stuck, Drained, Refreshing, RoundRank, PullerStep;
    InvAt(t, b, n);
    InvBasics(t, b.at(n));
    var k := RefreshPinned(t, b.at(n), p);
    var j := PullerTurn(t, b, n, p, k);
    StuckNow(b, n, p, v, j);
    StuckNow(b, n, p, v, j + 1);
    OwnFacts(t, b.at(n).tx[p], b.at(j).tx[p]);
    InvBasics(t, b.at(j));
    PinnedIsOwn(t, b.at(n).tx[p], b.at(j).tx[p], p, k);
    RefreshStep(t, b.at(j), p, k);
    i := j + 1;
    if b.at(i).tx[p].puller != PDecide(t.queue) {
      i := Refreshes(t, b, j + 1, p, v);
    }
  }

  lemma RoundPinned(t: Topology, s: State, p: nat) returns (k: Action)
    requires t.Valid() && Inv(t, s) && p < |s.tx| && (s.tx[p].puller.PTop? || s.tx[p].puller.PScan?)
    ensures |s.tx| == |t.batch| && Pinned(t, s.tx[p], p, k)
  {
    assert TxOk(t, s.tx[p], s.link, p);
    var x := s.tx[p];
    k := if x.puller.PTop? then LockRing(p) else if x.puller.link < |t.links| then ScanLink(p) else Discard(p);
  }

  lemma RoundStep(t: Topology, s: State, p: nat, k: Action)
    requires t.Valid() && Inv(t, s) && p < |s.tx| == |t.batch| && (s.tx[p].puller.PTop? || s.tx[p].puller.PScan?)
    requires Pinned(t, s.tx[p], p, k) && Enabled(t, s, k)
    ensures var x, x' := s.tx[p], PullerStep(t, s, k);
      x'.pending == x.pending && x'.outstanding == x.outstanding && RoundRank(t, x') < RoundRank(t, x)
      && (x'.puller.PScan? || x'.puller.PDecide?)
  {
    assert TxOk(t, s.tx[p], s.link, p);
    hide RxOk, LinkOk, BudgetOk;
  }

  /** Every scan ends in a decision. */
  lemma {:induction false} Decides(t: Topology, b: Behavior, n: nat, p: nat) returns (i: nat)
    requires t.Valid() && Behaves(t, b) && Fair(t, b) && p < |t.batch|
    requires p < |b.at(n).tx| && (b.at(n).tx[p].puller.PTop? || b.at(n).tx[p].puller.PScan?)
    ensures n <= i && p < |b.at(i).tx| && b.at(i).tx[p].puller.PDecide?
    ensures b.at(i).tx[p].pending == b.at(n).tx[p].pending && b.at(i).tx[p].outstanding == b.at(n).tx[p].outstanding
    decreases RoundLeft(t, b.at(n), p)
  {
    hide Inv, Next, Enabled, Fair, Behaves, Own, Pinned, RoundRank, PullerStep;
    InvAt(t, b, n);
    InvBasics(t, b.at(n));
    var k := RoundPinned(t, b.at(n), p);
    var j := PullerTurn(t, b, n, p, k);
    OwnFacts(t, b.at(n).tx[p], b.at(j).tx[p]);
    InvBasics(t, b.at(j));
    PinnedIsOwn(t, b.at(n).tx[p], b.at(j).tx[p], p, k);
    RoundStep(t, b.at(j), p, k);
    i := j + 1;
    if !b.at(i).tx[p].puller.PDecide? {
      i := Decides(t, b, j + 1, p);
    }
  }

  /** With room to ask for a batch, and all the ring's room for a payload that waits to land. */
  predicate Roomy(t: Topology, x: Tx, p: nat)
    requires p < |t.batch|
  {
    x.puller.PDecide? && x.puller.room >= t.batch[p] && (x.pending != [] ==> x.puller.room == t.queue)
  }

  /** A round that ends without room, or without having looked at the whole ring. */
  lemma TurnBack(t: Topology, s: State, p: nat, k: Action)
    requires t.Valid() && Shape(t, s) && Enabled(t, s, k) && p < |t.batch| && s.tx[p].puller.PDecide? && !Roomy(t, s.tx[p], p)
    requires k == if s.tx[p].pending != [] then Land(p) else NoRoom(p)
    requires |PullerStep(t, s, k).hist| == |s.tx[p].hist|
    ensures var x, x' := s.tx[p], PullerStep(t, s, k);
      x'.puller.PTop? && x'.pending == x.pending && x'.outstanding == x.outstanding
  {
  }

  lemma MakesRoom(t: Topology, b: Behavior, n: nat, p: nat, v: nat) returns (i: nat)
    requires t.Valid() && Lively(t) && Behaves(t, b) && Fair(t, b) && p < |t.batch| && Stuck(b, n, p, v)
    requires p < |b.at(n).tx| && !b.at(n).tx[p].puller.PRecv? && !b.at(n).tx[p].puller.PStopped?
    ensures n <= i && p < |b.at(i).tx| && Roomy(t, b.at(i).tx[p], p)
    ensures b.at(i).tx[p].pending == b.at(n).tx[p].pending && b.at(i).tx[p].outstanding == b.at(n).tx[p].outstanding
  {
    hide Inv, Next, Enabled, Fair, Behaves, Lively, Own, Stuck, Drained, PullerStep;
    i := n;
    if !b.at(n).tx[p].puller.PDecide? {
      i := Decides(t, b, n, p);
    }
    if !Roomy(t, b.at(i).tx[p], p) {
      var k := if b.at(i).tx[p].pending != [] then Land(p) else NoRoom(p);
      var j := PullerTurn(t, b, i, p, k);
      OwnFacts(t, b.at(i).tx[p], b.at(j).tx[p]);
      StuckNow(b, n, p, v, j);
      StuckNow(b, n, p, v, j + 1);
      InvBasics(t, b.at(j));
      TurnBack(t, b.at(j), p, k);
      i := Refreshes(t, b, j + 1, p, v);
    }
  }

  lemma Receiving(t: Topology, s: State, p: nat)
    requires Lively(t) && Inv(t, s) && p < |s.tx|
    ensures p < |t.batch| && !s.tx[p].puller.PStopped?
    ensures s.tx[p].puller.PRecv? ==> s.tx[p].outstanding && s.tx[p].pending == []
    ensures |s.tx[p].pending| <= t.queue && (s.tx[p].puller.PDecide? ==> s.tx[p].puller.room <= s.tx[p].Free(t.queue))
  {
    assert TxOk(t, s.tx[p], s.link, p);
    hide RxOk, LinkOk, BudgetOk;
  }

  /** A payload in hand lands. */
  lemma Lands(t: Topology, b: Behavior, n: nat, p: nat, v: nat)
    requires t.Valid() && Lively(t) && Behaves(t, b) && Fair(t, b) && p < |t.batch|
    requires p < |b.at(n).tx| && b.at(n).tx[p].pending != []
    ensures !Stuck(b, n, p, v)
  {
    hide Inv, Next, Enabled, Fair, Behaves, Lively, Own, Stuck, Drained;
    if Stuck(b, n, p, v) {
      InvAt(t, b, n);
      Receiving(t, b.at(n), p);
      var i := MakesRoom(t, b, n, p, v);
      var j := PullerTurn(t, b, i, p, Land(p));
      OwnFacts(t, b.at(i).tx[p], b.at(j).tx[p]);
      Receiving(t, b.at(j), p);
      StuckNow(b, n, p, v, j);
      StuckNow(b, n, p, v, j + 1);
      assert false;
    }
  }

  // ---- A payload on its way ---------------------------------------------------------------------------------

  /** A reply from the radio stays until it is taken. */
  lemma FlightStep(t: Topology, s: State, a: Action, p: nat)
    requires t.Valid() && Inv(t, s) && Enabled(t, s, a) && p < |s.tx| && s.tx[p].flight.Some? && a != Take(p)
    ensures Next(t, s, a).tx[p].flight == s.tx[p].flight
  {
    hide RxOk, LinkOk, BudgetOk, TxOk;
    if OfPuller(a) {
      PullerLeavesRest(t, s, a);
    } else {
      ServerLeavesRest(t, s, a);
    }
  }

  lemma {:induction false} FlightHolds(t: Topology, b: Behavior, n: nat, m: nat, p: nat)
    requires t.Valid() && Behaves(t, b) && n <= m && p < |b.at(n).tx| && b.at(n).tx[p].flight.Some? && NotYet(b, Take(p), n, m)
    ensures p < |b.at(m).tx| && b.at(m).tx[p].flight == b.at(n).tx[p].flight
  {
    hide Inv, Next, Enabled;
    if n < m {
      FlightHolds(t, b, n, m - 1, p);
      InvAt(t, b, m - 1);
      InvAt(t, b, m);
      InvBasics(t, b.at(m - 1));
      InvBasics(t, b.at(m));
      FlightStep(t, b.at(m - 1), b.act(m - 1), p);
    }
  }

  lemma FlightFacts(t: Topology, s: State, p: nat)
    requires Lively(t) && Inv(t, s) && p < |s.tx| && s.tx[p].flight.Some?
    ensures p < |t.batch| && s.tx[p].outstanding && s.tx[p].pending == [] && 1 <= |s.tx[p].flight.value| <= t.queue
  {
    assert TxOk(t, s.tx[p], s.link, p);
    hide RxOk, LinkOk, BudgetOk;
  }

  lemma TakeNow(t: Topology, s: State, p: nat)
    requires t.Valid() && Shape(t, s) && p < |s.tx| && s.tx[p].puller.PRecv? && s.tx[p].flight.Some?
    ensures Possible(t, s, Take(p))
  {
    assert Kind(Take(p)) == Take(p) && Enabled(t, s, Take(p));
  }

  /** A puller whose request is out waits for the reply again and again. */
  lemma Returns(t: Topology, b: Behavior, m: nat, p: nat, v: nat) returns (i: nat)
    requires t.Valid() && Lively(t) && Behaves(t, b) && Fair(t, b) && p < |t.batch| && Stuck(b, m, p, v)
    requires p < |b.at(m).tx| && !b.at(m).tx[p].puller.PStopped? && b.at(m).tx[p].outstanding && b.at(m).tx[p].pending == []
    ensures m <= i && Shape(t, b.at(i)) && b.at(i).tx[p].puller.PRecv?
  {
    hide Inv, Next, Enabled, Fair, Behaves, Lively, Own, Stuck, Drained, Roomy, Pinned, PullerStep;
    i := m;
    InvAt(t, b, m);
    if !b.at(m).tx[p].puller.PRecv? {
      var j := MakesRoom(t, b, m, p, v);
      RoomyPinned(t, b.at(j).tx[p], p);
      var l := PullerTurn(t, b, j, p, Ask(p));
      InvBasics(t, b.at(l));
      Receives(t, b.at(l), p);
      i := l + 1;
    }
    InvAt(t, b, i);
    InvBasics(t, b.at(i));
  }

  lemma TakePossible(t: Topology, b: Behavior, n: nat, m: nat, p: nat, v: nat)
    requires t.Valid() && Lively(t) && Behaves(t, b) && Fair(t, b) && p < |t.batch| && Stuck(b, n, p, v)
    requires n <= m && p < |b.at(n).tx| && b.at(n).tx[p].flight.Some? && NotYet(b, Take(p), n, m)
    ensures PossibleFrom(t, b, Take(p), m)
  {
    hide Inv, Next, Fair, Behaves, Lively, Stuck, Drained, Enabled, Possible;
    FlightHolds(t, b, n, m, p);
    InvAt(t, b, m);
    StuckNow(b, n, p, v, m);
    Receiving(t, b.at(m), p);
    FlightFacts(t, b.at(m), p);
    var i := Returns(t, b, m, p, v);
    if NotYet(b, Take(p), n, i) {
      FlightHolds(t, b, n, i, p);
      TakeNow(t, b.at(i), p);
    } else {
      TakenWasPossible(t, b, Take(p), n, m, i);
    }
  }

  lemma RoomyPinned(t: Topology, x: Tx, p: nat)
    requires p < |t.batch| && Roomy(t, x, p)
    ensures x.pending == [] && x.outstanding ==> Pinned(t, x, p, Ask(p))
  {
  }

  lemma Receives(t: Topology, s: State, p: nat)
    requires t.Valid() && Shape(t, s) && Enabled(t, s, Ask(p))
    ensures PullerStep(t, s, Ask(p)).puller.PRecv? && PullerStep(t, s, Ask(p)).outstanding
    ensures !s.tx[p].outstanding ==> PullerStep(t, s, Ask(p)).atRadio
  {
  }

  lemma Arrives(t: Topology, b: Behavior, n: nat, p: nat, v: nat)
    requires t.Valid() && Lively(t) && Behaves(t, b) && Fair(t, b) && p < |t.batch|
    requires p < |b.at(n).tx| && b.at(n).tx[p].flight.Some?
    ensures !Stuck(b, n, p, v)
  {
    hide Inv, Next, Fair, Behaves, Lively, Stuck, Enabled, PossibleFrom, PullerStep;
    if Stuck(b, n, p, v) {
      forall m: nat | n <= m && NotYet(b, Take(p), n, m) ensures PossibleFrom(t, b, Take(p), m) {
        TakePossible(t, b, n, m, p, v);
      }
      var i := Comes(t, b, Take(p), n);
      FlightHolds(t, b, n, i, p);
      InvAt(t, b, i);
      FlightFacts(t, b.at(i), p);
      TakenInHand(t, b.at(i), b.act(i), p);
      StuckNow(b, n, p, v, i + 1);
      Lands(t, b, i + 1, p, v);
    }
  }

  lemma TakenInHand(t: Topology, s: State, a: Action, p: nat)
    requires t.Valid() && Shape(t, s) && Enabled(t, s, a) && Kind(a) == Take(p) && 1 <= |s.tx[p].flight.value| <= t.queue
    ensures Next(t, s, a).tx[p].pending != []
  {
  }

  // ---- The radio's turn ---------------------------------------------------------------------------------------

  lemma AtRadioOwn(t: Topology, s: State, a: Action)
    requires t.Valid() && Inv(t, s) && Enabled(t, s, a) && OfPuller(a) && s.tx[a.d].atRadio && Kind(a) != Transmit(a.d, [])
    ensures PullerStep(t, s, a).atRadio
  {
    assert TxOk(t, s.tx[a.d], s.link, a.d);
    hide RxOk, LinkOk, BudgetOk, TxOk;
  }

  lemma ConsumesMore(t: Topology, s: State, a: Action)
    requires t.Valid() && Shape(t, s) && Enabled(t, s, a)
    ensures ServerStep(t, s, a).consumed >= s.rx[a.d].consumed
  {
  }

  /** The radio's request stays with it until it transmits. */
  lemma AtRadioStep(t: Topology, s: State, a: Action, p: nat)
    requires t.Valid() && Inv(t, s) && Enabled(t, s, a) && p < |s.tx| && |s.tx| == |s.rx| && s.tx[p].atRadio
    requires Kind(a) != Transmit(p, [])
    ensures Next(t, s, a).tx[p].atRadio && Next(t, s, a).rx[p].consumed >= s.rx[p].consumed
  {
    hide Inv, Next, PullerStep, ServerStep, Enabled;
    InvBasics(t, s);
    EnabledDevice(t, s, a);
    ConsumesMore(t, s, a);
    if OfPuller(a) {
      PullerLeavesRest(t, s, a);
      if a.d == p {
        AtRadioOwn(t, s, a);
      }
    } else {
      ServerLeavesRest(t, s, a);
    }
  }

  lemma {:induction false} AtRadioHolds(t: Topology, b: Behavior, n: nat, m: nat, p: nat)
    requires t.Valid() && Behaves(t, b) && n <= m && p < |t.batch| && Shape(t, b.at(n)) && b.at(n).tx[p].atRadio
    requires NotYet(b, Transmit(p, []), n, m)
    ensures Inv(t, b.at(m)) && Shape(t, b.at(m)) && b.at(m).tx[p].atRadio && b.at(m).rx[p].consumed >= b.at(n).rx[p].consumed
  {
    hide Inv, Next, Enabled;
    InvAt(t, b, m);
    InvBasics(t, b.at(m));
    if n < m {
      AtRadioHolds(t, b, n, m - 1, p);
      InvAt(t, b, m - 1);
      AtRadioStep(t, b.at(m - 1), b.act(m - 1), p);
    }
  }

  /** Once the radio has consumed as much as its ring was ever given, its gate is open. */
  lemma RadioCan(t: Topology, s: State, p: nat)
    requires Lively(t) && Inv(t, s) && p < |s.tx| && s.tx[p].atRadio && s.rx[p].consumed >= |s.tx[p].hist|
    ensures Possible(t, s, Transmit(p, []))
  {
    assert TxOk(t, s.tx[p], s.link, p);
    hide RxOk, LinkOk, BudgetOk;
    var a := Transmit(p, Zeros(t.radio[p].chunk));
    assert Kind(a) == Transmit(p, []) && Enabled(t, s, a);
  }

  lemma Transmits(t: Topology, b: Behavior, n: nat, p: nat, v: nat)
    requires t.Valid() && Lively(t) && Behaves(t, b) && Fair(t, b) && p < |t.batch|
    requires Shape(t, b.at(n)) && b.at(n).tx[p].atRadio && b.at(n).rx[p].consumed >= v
    ensures !Stuck(b, n, p, v)
  {
    hide Inv, Next, Fair, Behaves, Lively, Stuck, Enabled, Possible, PullerStep;
    var k := Transmit(p, []);
    if Stuck(b, n, p, v) {
      forall m: nat | n <= m && NotYet(b, k, n, m) ensures PossibleFrom(t, b, k, m) {
        AtRadioHolds(t, b, n, m, p);
        StuckNow(b, n, p, v, m);
        RadioCan(t, b.at(m), p);
      }
      var i := Comes(t, b, k, n);
      InvAt(t, b, i);
      SentOff(t, b.at(i), b.act(i), p);
      StuckNow(b, n, p, v, i + 1);
      Arrives(t, b, i + 1, p, v);
    }
  }

  lemma SentOff(t: Topology, s: State, a: Action, p: nat)
    requires t.Valid() && Inv(t, s) && Enabled(t, s, a) && Kind(a) == Transmit(p, [])
    ensures p < |Next(t, s, a).tx| && Next(t, s, a).tx[p].flight.Some?
  {
    hide Inv;
    InvBasics(t, s);
  }

  // ---- Asking for a payload -----------------------------------------------------------------------------------

  /** Nothing pulled and nothing asked for. */
  predicate Empty(x: Tx) {
    x.pending == [] && !x.outstanding
  }

  lemma EmptyOwn(t: Topology, s: State, a: Action)
    requires t.Valid() && Inv(t, s) && Enabled(t, s, a) && OfPuller(a) && Empty(s.tx[a.d]) && !a.Ask?
    ensures Empty(PullerStep(t, s, a))
  {
    assert TxOk(t, s.tx[a.d], s.link, a.d);
    hide RxOk, LinkOk, BudgetOk, TxOk;
  }

  lemma EmptyStep(t: Topology, s: State, a: Action, p: nat)
    requires t.Valid() && Inv(t, s) && Enabled(t, s, a) && p < |s.tx| && |s.tx| == |s.rx| && Empty(s.tx[p]) && a != Ask(p)
    ensures Empty(Next(t, s, a).tx[p]) && Next(t, s, a).rx[p].consumed >= s.rx[p].consumed
  {
    hide Inv, Next, PullerStep, ServerStep, Enabled, Empty;
    InvBasics(t, s);
    EnabledDevice(t, s, a);
    ConsumesMore(t, s, a);
    if OfPuller(a) {
      PullerLeavesRest(t, s, a);
      if a.d == p {
        EmptyOwn(t, s, a);
      }
    } else {
      ServerLeavesRest(t, s, a);
    }
  }

  lemma {:induction false} EmptyHolds(t: Topology, b: Behavior, n: nat, m: nat, p: nat)
    requires t.Valid() && Behaves(t, b) && n <= m && p < |t.batch| && Shape(t, b.at(n)) && Empty(b.at(n).tx[p])
    requires NotYet(b, Ask(p), n, m)
    ensures Inv(t, b.at(m)) && Shape(t, b.at(m)) && Empty(b.at(m).tx[p]) && b.at(m).rx[p].consumed >= b.at(n).rx[p].consumed
  {
    hide Inv, Next, Enabled, Empty;
    InvAt(t, b, m);
    InvBasics(t, b.at(m));
    if n < m {
      EmptyHolds(t, b, n, m - 1, p);
      InvAt(t, b, m - 1);
      EmptyStep(t, b.at(m - 1), b.act(m - 1), p);
    }
  }

  lemma AskPossible(t: Topology, b: Behavior, m: nat, p: nat, v: nat)
    requires t.Valid() && Lively(t) && Behaves(t, b) && Fair(t, b) && p < |t.batch| && Stuck(b, m, p, v)
    requires Shape(t, b.at(m)) && Empty(b.at(m).tx[p])
    ensures PossibleFrom(t, b, Ask(p), m)
  {
    hide Inv, Next, Fair, Behaves, Lively, Stuck, Drained;
    InvAt(t, b, m);
    Receiving(t, b.at(m), p);
    var i := MakesRoom(t, b, m, p, v);
    InvAt(t, b, i);
    InvBasics(t, b.at(i));
    assert Enabled(t, b.at(i), Ask(p)) && Possible(t, b.at(i), Ask(p));
  }

  lemma Asks(t: Topology, b: Behavior, n: nat, p: nat, v: nat)
    requires t.Valid() && Lively(t) && Behaves(t, b) && Fair(t, b) && p < |t.batch|
    requires Shape(t, b.at(n)) && Empty(b.at(n).tx[p]) && b.at(n).rx[p].consumed >= v
    ensures !Stuck(b, n, p, v)
  {
    hide Inv, Next, Fair, Behaves, Lively, Stuck, Enabled, PossibleFrom, PullerStep;
    if Stuck(b, n, p, v) {
      forall m: nat | n <= m && NotYet(b, Ask(p), n, m) ensures PossibleFrom(t, b, Ask(p), m) {
        EmptyHolds(t, b, n, m, p);
        StuckNow(b, n, p, v, m);
        AskPossible(t, b, m, p, v);
      }
      var i := Comes(t, b, Ask(p), n);
      EmptyHolds(t, b, n, i, p);
      InvAt(t, b, i);
      InvAt(t, b, i + 1);
      InvBasics(t, b.at(i + 1));
      Asked(t, b.at(i), b.act(i), p);
      StuckNow(b, n, p, v, i + 1);
      Transmits(t, b, i + 1, p, v);
    }
  }

  lemma Asked(t: Topology, s: State, a: Action, p: nat)
    requires t.Valid() && Shape(t, s) && Enabled(t, s, a) && Kind(a) == Ask(p) && Empty(s.tx[p])
    ensures Next(t, s, a).tx[p].atRadio && Next(t, s, a).rx[p].consumed == s.rx[p].consumed
  {
  }

  // ---- The radio consumes its replies -----------------------------------------------------------------------------

  lemma {:induction false} Consumes(t: Topology, b: Behavior, n: nat, p: nat, v: nat) returns (i: nat)
    requires t.Valid() && Lively(t) && Behaves(t, b) && Fair(t, b) && p < |t.batch| && Shape(t, b.at(n)) && b.at(n).rx[p].served >= v
    ensures n <= i && Shape(t, b.at(i)) && b.at(i).rx[p].consumed >= v
    decreases ReplyLeft(b.at(n), p)
  {
    hide Inv, Next, Enabled, Fair, Behaves, Lively, ServerKind, ServerStep, ReplyRank;
    InvAt(t, b, n);
    i := n;
    if b.at(n).rx[p].consumed < v {
      var j := ServerTurn(t, b, n, p);
      InvBasics(t, b.at(j));
      ReplyMoves(t, b.at(j), p, v);
      StepServer(t, b.at(j), b.act(j));
      InvAt(t, b, j + 1);
      InvBasics(t, b.at(j + 1));
      KindIsPlain(t, b.at(n).rx[p], p);
      i := Consumes(t, b, j + 1, p, v);
    }
  }

  function ReplyLeft(s: State, p: nat): nat {
    if p < |s.rx| then ReplyRank(s.rx[p]) else 0
  }

  lemma ReplyMoves(t: Topology, s: State, p: nat, v: nat)
    requires t.Valid() && Inv(t, s) && p < |s.rx| && s.rx[p].served >= v > s.rx[p].consumed
    requires Enabled(t, s, ServerKind(t, s.rx[p], p))
    ensures var y, y' := s.rx[p], ServerStep(t, s, ServerKind(t, s.rx[p], p));
      y'.served == y.served && ReplyRank(y') < ReplyRank(y)
  {
    assert RxOk(t, s.tx, s.rx[p], s.link, p);
    hide LogOk, CursorOk, ServingOk, TxOk, LinkOk, BudgetOk, Inv;
  }

  // ---- Every node is served without end -------------------------------------------------------------------------------

  /** A drained ring is filled. */
  lemma NeverStuck(t: Topology, b: Behavior, n: nat, p: nat, v: nat)
    requires t.Valid() && Lively(t) && Behaves(t, b) && Fair(t, b) && p < |t.batch|
    ensures !Stuck(b, n, p, v)
  {
    hide Inv, Next, Fair, Behaves, Lively, Stuck, Enabled;
    if Stuck(b, n, p, v) {
      InvAt(t, b, n);
      StuckNow(b, n, p, v, n);
      InvBasics(t, b.at(n));
      var i := Consumes(t, b, n, p, v);
      StuckNow(b, n, p, v, i);
      InvAt(t, b, i);
      Exchange(t, b.at(i), p);
      var x := b.at(i).tx[p];
      if x.pending != [] {
        Lands(t, b, i, p, v);
      } else if x.flight.Some? {
        Arrives(t, b, i, p, v);
      } else if x.atRadio {
        Transmits(t, b, i, p, v);
      } else {
        Asks(t, b, i, p, v);
      }
    }
  }

  lemma Exchange(t: Topology, s: State, p: nat)
    requires t.Valid() && Inv(t, s) && p < |s.tx|
    ensures s.tx[p].outstanding ==> s.tx[p].atRadio || s.tx[p].flight.Some?
  {
    assert TxOk(t, s.tx[p], s.link, p);
  }

  lemma Fills(t: Topology, b: Behavior, n: nat, p: nat) returns (i: nat)
    requires t.Valid() && Lively(t) && Behaves(t, b) && Fair(t, b) && p < |t.batch| && Shape(t, b.at(n)) && Drained(b.at(n), p)
    ensures n <= i && Shape(t, b.at(i)) && |b.at(i).tx[p].hist| > |b.at(n).tx[p].hist|
  {
    hide Inv, Next, Fair, Behaves, Lively, Enabled, Mono;
    var v := |b.at(n).tx[p].hist|;
    NeverStuck(t, b, n, p, v);
    i :| n <= i && !StuckAt(b.at(i), p, v);
    InvAt(t, b, i);
    InvBasics(t, b.at(i));
    MonoAt(t, b, n, i);
    DrainedUnless(b.at(n), b.at(i), p);
  }

  lemma DrainedUnless(s: State, s': State, p: nat)
    requires p < |s.tx| && |s.tx| == |s'.tx| && Drained(s, p) && Mono(s, s')
    ensures |s'.tx[p].hist| > |s.tx[p].hist| || StuckAt(s', p, |s.tx[p].hist|)
  {
    assert s.tx[p].hist <= s'.tx[p].hist;
    forall e | 0 <= e < |s'.rx| ensures |s.tx[p].hist| <= s'.rx[e].served {
      assert |s.tx[p].hist| <= s.rx[e].served;
    }
  }

  /** Every ring the hungriest node reads gets a fresh sample, unless the node is served meanwhile. */
  lemma {:induction false} FillsAll(t: Topology, b: Behavior, n: nat, d: nat, j: nat) returns (i: nat)
    requires t.Valid() && Lively(t) && Behaves(t, b) && Fair(t, b) && d < |t.batch| && j <= |t.Incoming(d)| && Shape(t, b.at(n))
    requires forall e :: 0 <= e < |t.batch| ==> b.at(n).rx[d].served <= b.at(n).rx[e].served
    requires forall k :: 0 <= k < j ==> b.at(n).rx[d].served < |b.at(n).tx[t.Source(d, k)].hist|
    ensures n <= i && Shape(t, b.at(i)) && (b.at(i).rx[d].served > b.at(n).rx[d].served || EdgesReady(t, b.at(i), d))
    decreases |t.Incoming(d)| - j
  {
    hide Inv, Next, Fair, Behaves, Lively, Enabled, Mono, Topology.Incoming;
    i := n;
    if j < |t.Incoming(d)| {
      var p := t.Source(d, j);
      if |b.at(n).tx[p].hist| > b.at(n).rx[d].served {
        i := FillsAll(t, b, n, d, j + 1);
      } else {
        i := Fills(t, b, n, p);
        if b.at(i).rx[d].served <= b.at(n).rx[d].served {
          InvAt(t, b, n);
          FrontierBound(t, b.at(n), d, j);
          MonoAt(t, b, n, i);
          StillBehind(t, b.at(n), b.at(i), d, j);
          i := FillsAll(t, b, i, d, j + 1);
        }
      }
    }
  }

  lemma StillBehind(t: Topology, s: State, s': State, d: nat, j: nat)
    requires t.Valid() && Shape(t, s) && Shape(t, s') && Mono(s, s') && d < |t.batch| && j < |t.Incoming(d)|
    requires s'.rx[d].served <= s.rx[d].served < |s'.tx[t.Source(d, j)].hist|
    requires forall e :: 0 <= e < |t.batch| ==> s.rx[d].served <= s.rx[e].served
    requires forall k :: 0 <= k < j ==> s.rx[d].served < |s.tx[t.Source(d, k)].hist|
    ensures s'.rx[d].served == s.rx[d].served
    ensures forall e :: 0 <= e < |t.batch| ==> s'.rx[d].served <= s'.rx[e].served
    ensures forall k :: 0 <= k < j + 1 ==> s'.rx[d].served < |s'.tx[t.Source(d, k)].hist|
  {
    hide Topology.Incoming;
    forall k | 0 <= k < j ensures s'.rx[d].served < |s'.tx[t.Source(d, k)].hist| {
      assert s.tx[t.Source(d, k)].hist <= s'.tx[t.Source(d, k)].hist;
    }
  }

  ghost predicate Fed(t: Topology, s: State, goal: nat) {
    Shape(t, s) && forall d :: 0 <= d < |t.batch| ==> s.rx[d].served >= goal
  }

  lemma {:induction false} Feeds(t: Topology, b: Behavior, n: nat, goal: nat) returns (i: nat)
    requires t.Valid() && Lively(t) && Behaves(t, b) && Fair(t, b)
    ensures n <= i && Fed(t, b.at(i), goal)
    decreases Deficit(b.at(n).rx, goal)
  {
    hide Inv, Next, Fair, Behaves, Lively, Enabled, Mono, Deficit, EdgesReady;
    InvAt(t, b, n);
    InvBasics(t, b.at(n));
    i := n;
    if exists d :: 0 <= d < |t.batch| && b.at(n).rx[d].served < goal {
      var d := Hungriest(b.at(n).rx);
      var j := FillsAll(t, b, n, d, 0);
      var m := j;
      if b.at(j).rx[d].served <= b.at(n).rx[d].served {
        m := Served(t, b, j, d);
        MonoAt(t, b, n, j);
        ServedMore(b.at(n), b.at(j), d);
      }
      MonoAt(t, b, n, m);
      InvAt(t, b, m);
      InvBasics(t, b.at(m));
      CloserToFed(b.at(n), b.at(m), goal, d);
      i := Feeds(t, b, m, goal);
    }
  }

  lemma ServedMore(s: State, s': State, d: nat)
    requires Mono(s, s') && d < |s.rx|
    ensures d < |s'.rx| && s'.rx[d].served >= s.rx[d].served
  {
  }

  lemma CloserToFed(s: State, s': State, goal: nat, d: nat)
    requires Mono(s, s') && d < |s.rx| && s.rx[d].served < goal && s.rx[d].served < s'.rx[d].served
    ensures Deficit(s'.rx, goal) < Deficit(s.rx, goal)
  {
    DeficitFalls(s.rx, s'.rx, goal, d);
  }

  ghost predicate FedFrom(t: Topology, b: Behavior, n: nat, goal: nat) {
    forall m: nat :: n <= m ==> Fed(t, b.at(m), goal)
  }

  /** In every fair behaviour, on every graph of lock-step radios whose head start covers a chunk, every node
      is in the end served as much as one likes, and stays so. */
  lemma EveryFairRunFeeds(t: Topology, b: Behavior, goal: nat)
    requires t.Valid() && Lively(t) && Behaves(t, b) && Fair(t, b)
    ensures exists n: nat :: FedFrom(t, b, n, goal)
  {
    hide Inv, Next, Fair, Behaves, Lively, Enabled, Mono;
    var n := Feeds(t, b, 0, goal);
    forall m: nat | n <= m ensures Fed(t, b.at(m), goal) {
      MonoAt(t, b, n, m);
      InvAt(t, b, m);
      InvBasics(t, b.at(m));
      StaysFed(t, b.at(n), b.at(m), goal);
    }
    assert FedFrom(t, b, n, goal);
  }

  lemma StaysFed(t: Topology, s: State, s': State, goal: nat)
    requires Shape(t, s) && Shape(t, s') && Mono(s, s') && Fed(t, s, goal)
    ensures Fed(t, s', goal)
  {
    forall d | 0 <= d < |t.batch| ensures s'.rx[d].served >= goal {
      assert s.rx[d].served <= s'.rx[d].served;
    }
  }

  // ---- Fair behaviours exist ------------------------------------------------------------------------------------------

  /** A state, and all kinds of step, the one taken longest ago first. */
  datatype Turn = Turn(s: State, queue: seq<Action>)

  function PullerKinds(d: nat): seq<Action> {
    [LockRing(d), ScanLink(d), Discard(d), Land(d), NoRoom(d), Ask(d), PullTimeout(d), Take(d), Transmit(d, [])]
  }

  function ServerKinds(d: nat): seq<Action> {
    [Accept(d), CoInit(d), EpochSet(d), ScanEdge(d), Decide(d), ReadEdge(d), AdvanceCursor(d), Process(d), SendReply(d)]
  }

  function KindsBelow(n: nat): seq<Action> {
    if n == 0 then [] else KindsBelow(n - 1) + PullerKinds(n - 1) + ServerKinds(n - 1) + [Request(n - 1), Consume(n - 1)]
  }

  lemma EveryPullerKind(k: Action)
    requires Kind(k) == k && OfPuller(k)
    ensures k in PullerKinds(k.d)
  {
    var i := match k
      case LockRing(_) => 0 case ScanLink(_) => 1 case Discard(_) => 2 case Land(_) => 3 case NoRoom(_) => 4
      case Ask(_) => 5 case PullTimeout(_) => 6 case Take(_) => 7 case _ => 8;
    assert PullerKinds(k.d)[i] == k;
  }

  lemma EveryServerKind(k: Action)
    requires OfServer(k) && !k.Request? && !k.Consume?
    ensures k in ServerKinds(k.d)
  {
    var i := match k
      case Accept(_) => 0 case CoInit(_) => 1 case EpochSet(_) => 2 case ScanEdge(_) => 3 case Decide(_) => 4
      case ReadEdge(_) => 5 case AdvanceCursor(_) => 6 case Process(_) => 7 case _ => 8;
    assert ServerKinds(k.d)[i] == k;
  }

  lemma {:induction false} AllKinds(k: Action, n: nat)
    requires Kind(k) == k && k.d < n
    ensures k in KindsBelow(n)
  {
    hide PullerKinds, ServerKinds;
    if k.d == n - 1 {
      if OfPuller(k) {
        EveryPullerKind(k);
      } else if !k.Request? && !k.Consume? {
        EveryServerKind(k);
      }
    } else {
      AllKinds(k, n - 1);
    }
  }

  ghost predicate Runnable(t: Topology, u: Turn)
    requires t.Valid()
  {
    Inv(t, u.s) && forall k: Action :: Kind(k) == k && k.d < |t.batch| ==> k in u.queue
  }

  /** Some step is always possible. */
  lemma NeverDead(t: Topology, u: Turn)
    requires t.Valid() && Lively(t) && t.batch != [] && Runnable(t, u)
    ensures exists i :: 0 <= i < |u.queue| && Possible(t, u.s, u.queue[i])
  {
    hide Inv, Enabled;
    InvBasics(t, u.s);
    ChoiceEnabled(t, u.s, 0);
    var a := ServerChoice(t, u.s, 0);
    EnabledDevice(t, u.s, a);
    assert Kind(Kind(a)) == Kind(a) && Kind(a) in u.queue;
    assert Possible(t, u.s, Kind(a));
  }

  ghost function FirstPossible(t: Topology, s: State, queue: seq<Action>): (r: nat)
    requires t.Valid() && exists i :: 0 <= i < |queue| && Possible(t, s, queue[i])
    ensures r < |queue| && Possible(t, s, queue[r]) && forall j :: 0 <= j < r ==> !Possible(t, s, queue[j])
  {
    if Possible(t, s, queue[0]) then 0
    else
      var i :| 0 <= i < |queue| && Possible(t, s, queue[i]);
      assert queue[1..][i - 1] == queue[i];
      var r := FirstPossible(t, s, queue[1..]);
      assert forall j :: 0 < j <= r ==> queue[j] == queue[1..][j - 1];
      r + 1
  }

  /** Of the possible kinds the one that has waited longest. */
  ghost function Chosen(t: Topology, u: Turn): (a: Action)
    requires t.Valid() && Lively(t) && t.batch != [] && Runnable(t, u)
    ensures Shape(t, u.s) && Enabled(t, u.s, a)
    ensures exists i: nat :: IsFirst(t, u, i) && Kind(a) == u.queue[i]
  {
    NeverDead(t, u);
    var i := FirstPossible(t, u.s, u.queue);
    assert IsFirst(t, u, i);
    var a :| Kind(a) == u.queue[i] && Enabled(t, u.s, a);
    a
  }

  ghost predicate IsFirst(t: Topology, u: Turn, i: nat)
    requires t.Valid()
  {
    i < |u.queue| && Possible(t, u.s, u.queue[i]) && forall j :: 0 <= j < i ==> !Possible(t, u.s, u.queue[j])
  }

  ghost function NextTurn(t: Topology, u: Turn): (u': Turn)
    requires t.Valid() && Lively(t) && t.batch != [] && Runnable(t, u)
    ensures Runnable(t, u') && u'.s == Next(t, u.s, Chosen(t, u))
    ensures exists i: nat :: IsFirst(t, u, i) && Kind(Chosen(t, u)) == u.queue[i] && u'.queue == u.queue[..i] + u.queue[i + 1..] + [u.queue[i]]
  {
    hide Inv, Possible, Lively, Enabled, Next, Shape;
    var a := Chosen(t, u);
    var i: nat :| IsFirst(t, u, i) && Kind(a) == u.queue[i];
    var queue := u.queue[..i] + u.queue[i + 1..] + [u.queue[i]];
    StepKeepsInv(t, u.s, a);
    StillQueued(u.queue, queue, i);
    Turn(Next(t, u.s, a), queue)
  }

  lemma StillQueued(q: seq<Action>, q': seq<Action>, i: nat)
    requires i < |q| && q' == q[..i] + q[i + 1..] + [q[i]]
    ensures forall k :: k in q ==> k in q'
  {
    forall k | k in q ensures k in q' {
      var j :| 0 <= j < |q| && q[j] == k;
      assert q'[if j < i then j else if j == i then |q'| - 1 else j - 1] == k;
    }
  }

  ghost function TurnAt(t: Topology, n: nat): (u: Turn)
    requires t.Valid() && Lively(t) && t.batch != []
    ensures Runnable(t, u)
  {
    if n == 0 then
      InitInv(t);
      assert forall k: Action :: Kind(k) == k && k.d < |t.batch| ==> k in KindsBelow(|t.batch|) by {
        forall k: Action | Kind(k) == k && k.d < |t.batch| ensures k in KindsBelow(|t.batch|) {
          AllKinds(k, |t.batch|);
        }
      }
      Turn(Init(t), KindsBelow(|t.batch|))
    else NextTurn(t, TurnAt(t, n - 1))
  }

  ghost function Scheduled(t: Topology): (b: Behavior)
    requires t.Valid() && Lively(t) && t.batch != []
    ensures Behaves(t, b)
    ensures forall n: nat :: b.at(n) == TurnAt(t, n).s && b.act(n) == Chosen(t, TurnAt(t, n))
  {
    var b := Behavior((n: nat) => TurnAt(t, n).s, (n: nat) => Chosen(t, TurnAt(t, n)));
    b
  }

  /** A waiting kind moves up whenever it could have been taken. */
  lemma MovesUp(t: Topology, u: Turn, k: Action, q: nat) returns (q': nat)
    requires t.Valid() && Lively(t) && t.batch != [] && Runnable(t, u) && q < |u.queue| && u.queue[q] == k && Kind(Chosen(t, u)) != k
    ensures var u' := NextTurn(t, u); q' < |u'.queue| && u'.queue[q'] == k && q' <= q && (Possible(t, u.s, k) ==> q' < q)
  {
    hide Inv, Lively, Possible, Runnable, Chosen;
    var u' := NextTurn(t, u);
    var i: nat :| IsFirst(t, u, i) && Kind(Chosen(t, u)) == u.queue[i] && u'.queue == u.queue[..i] + u.queue[i + 1..] + [u.queue[i]];
    q' := if q < i then q else q - 1;
  }

  lemma {:induction false} Waits(t: Topology, n: nat, m: nat, k: Action, q: nat) returns (q': nat)
    requires t.Valid() && Lively(t) && t.batch != [] && n <= m && q < |TurnAt(t, n).queue| && TurnAt(t, n).queue[q] == k
    requires NotYet(Scheduled(t), k, n, m)
    ensures q' <= q && q' < |TurnAt(t, m).queue| && TurnAt(t, m).queue[q'] == k
    decreases m - n
  {
    hide Inv, Lively, Possible, Runnable, Chosen, NextTurn, Behaves;
    q' := q;
    if n < m {
      assert Scheduled(t).act(n) == Chosen(t, TurnAt(t, n));
      var up := MovesUp(t, TurnAt(t, n), k, q);
      assert TurnAt(t, n + 1) == NextTurn(t, TurnAt(t, n));
      q' := Waits(t, n + 1, m, k, up);
    }
  }

  /** At its next chance it moves up, unless it is taken. */
  lemma UpOrTaken(t: Topology, n: nat, i: nat, k: Action, q: nat) returns (up: nat)
    requires t.Valid() && Lively(t) && t.batch != [] && n <= i && q < |TurnAt(t, n).queue| && TurnAt(t, n).queue[q] == k
    requires NotYet(Scheduled(t), k, n, i + 1) && Possible(t, Scheduled(t).at(i), k)
    ensures up < q && up < |TurnAt(t, i + 1).queue| && TurnAt(t, i + 1).queue[up] == k
  {
    hide Inv, Lively, Possible, Runnable, Chosen, NextTurn, Behaves;
    var b := Scheduled(t);
    assert Kind(b.act(i)) != k;
    var here := Waits(t, n, i, k, q);
    assert b.act(i) == Chosen(t, TurnAt(t, i)) && b.at(i) == TurnAt(t, i).s;
    up := MovesUp(t, TurnAt(t, i), k, here);
    assert TurnAt(t, i + 1) == NextTurn(t, TurnAt(t, i));
  }

  /** What is possible again and again comes to the front and is taken. */
  lemma {:induction false} ComesToFront(t: Topology, n: nat, k: Action, q: nat)
    requires t.Valid() && Lively(t) && t.batch != [] && q < |TurnAt(t, n).queue| && TurnAt(t, n).queue[q] == k
    requires forall m: nat :: PossibleFrom(t, Scheduled(t), k, m)
    ensures TakenFrom(Scheduled(t), k, n)
    decreases q
  {
    hide Inv, Lively, Possible, Runnable, Chosen, NextTurn, Behaves, TurnAt;
    var b := Scheduled(t);
    assert PossibleFrom(t, b, k, n);
    var i: nat :| n <= i && Possible(t, b.at(i), k);
    if NotYet(b, k, n, i + 1) {
      var up := UpOrTaken(t, n, i, k, q);
      ComesToFront(t, i + 1, k, up);
      TakenBefore(b, k, n, i + 1);
    }
  }

  lemma TakenBefore(b: Behavior, k: Action, n: nat, m: nat)
    requires n <= m && TakenFrom(b, k, m)
    ensures TakenFrom(b, k, n)
  {
  }

  /** Serving the kind that has waited longest is a fair schedule. */
  lemma FairRunExists(t: Topology)
    requires t.Valid() && Lively(t) && t.batch != []
    ensures exists b :: Behaves(t, b) && Fair(t, b)
  {
    hide Inv, Lively, Runnable, Chosen, NextTurn, Behaves, Possible;
    var b := Scheduled(t);
    forall k: Action, n: nat | !k.PullTimeout? && forall m: nat :: PossibleFrom(t, b, k, m)
      ensures TakenFrom(b, k, n)
    {
      assert PossibleFrom(t, b, k, 0);
      var i: nat :| Possible(t, b.at(i), k);
      InQueue(t, b.at(i), TurnAt(t, n), k);
      var q :| 0 <= q < |TurnAt(t, n).queue| && TurnAt(t, n).queue[q] == k;
      ComesToFront(t, n, k, q);
    }
    assert Fair(t, b);
  }

  lemma InQueue(t: Topology, s: State, u: Turn, k: Action)
    requires t.Valid() && Possible(t, s, k) && Runnable(t, u)
    ensures k in u.queue
  {
    hide Inv;
    var a :| Kind(a) == k && Enabled(t, s, a);
    assert Kind(k) == k && k.d < |t.batch|;
  }
}

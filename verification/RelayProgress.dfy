/**
 The relay never wedges.  From every reachable state, on any graph of lock-step radios
 whose head start covers a chunk, some continuation serves every node as many samples
 as one likes; a relay that insists on full batches may never serve at all.
 */
module RelayProgress {
  import opened Wrappers
  import opened Iq
  import opened Ring
  import opened Relay
  import opened RelaySafety

  /** Lock-step radios that may transmit a chunk before they have received anything,
      and a ring that can hold a chunk. */
  predicate Lively(t: Topology) {
    && t.Valid() && !t.fixedBatch
    && forall d :: 0 <= d < |t.batch| ==>
         t.radio[d].LockStep? && 1 <= t.radio[d].chunk <= t.radio[d].offset && t.radio[d].chunk <= t.queue
  }

  /** Nothing pushed or served is ever taken back. */
  ghost predicate Mono(s: State, s': State) {
    && Grows(s.tx, s'.tx) && |s.rx| == |s'.rx|
    && forall e :: 0 <= e < |s.rx| ==> s.rx[e].served <= s'.rx[e].served
  }

  lemma StepMono(t: Topology, s: State, a: Action)
    requires t.Valid() && Inv(t, s) && Enabled(t, s, a)
    ensures Mono(s, Next(t, s, a))
    ensures !a.Process? ==> forall e :: 0 <= e < |s.rx| ==> Next(t, s, a).rx[e].served == s.rx[e].served
  {
    hide RxOk, TxOk, LinkOk, BudgetOk, LinksStep;
  }

  lemma {:induction false} RunConcat(t: Topology, s: State, xs: seq<Action>, ys: seq<Action>)
    requires t.Valid() && Shape(t, s) && CanRun(t, s, xs) && CanRun(t, Run(t, s, xs), ys)
    ensures CanRun(t, s, xs + ys) && Run(t, s, xs + ys) == Run(t, Run(t, s, xs), ys)
    decreases |xs|
  {
    hide Next, Enabled, Shape, Topology.Valid;
    if xs == [] {
      assert xs + ys == ys;
    } else {
      RunConcat(t, Next(t, s, xs[0]), xs[1..], ys);
      assert (xs + ys)[1..] == xs[1..] + ys;
    }
  }

  // ---- Driving one server to its next serve ------------------------------------------

  /** The puller's next step out of its mutex section. */
  function Unlock(t: Topology, s: State, p: nat): Action
    requires t.Valid() && Shape(t, s) && p < |s.tx| && s.tx[p].puller.PScan?
  {
    if s.tx[p].puller.link < |t.links| then ScanLink(p) else Discard(p)
  }

  function LockRank(t: Topology, s: State, p: nat): nat
    requires p < |s.tx|
  {
    var x := s.tx[p].puller;
    if x.PScan? && x.link <= |t.links| then |t.links| - x.link + 1 else 0
  }

  /** The ring whose mutex the server needs next, if any. */
  function Wanted(t: Topology, s: State, d: nat): Option<nat>
    requires t.Valid() && Shape(t, s) && d < |s.rx|
  {
    match s.rx[d].server
    case SInit(k) => if k < |t.Incoming(d)| then Some(t.Source(d, k)) else None
    case SScan(k, _) => if k < |t.Incoming(d)| then Some(t.Source(d, k)) else None
    case SRead(k, _) => if k < |t.Incoming(d)| then Some(t.Source(d, k)) else None
    case _ => None
  }

  function BlockRank(t: Topology, s: State, d: nat): nat
    requires t.Valid() && Shape(t, s) && d < |s.rx|
  {
    var w := Wanted(t, s, d);
    if w.Some? then LockRank(t, s, w.value) else 0
  }

  function ServerChoice(t: Topology, s: State, d: nat): Action
    requires t.Valid() && Shape(t, s) && d < |s.rx|
  {
    var y := s.rx[d];
    var n := |t.Incoming(d)|;
    var w := Wanted(t, s, d);
    if w.Some? && !Unlocked(s, w.value) then Unlock(t, s, w.value)
    else
      match y.server
      case SWait => if y.request then Accept(d) else if y.reply.Some? then Consume(d) else Request(d)
      case SInit(k) => if k < n then CoInit(d) else EpochSet(d)
      case SScan(k, _) => if k < n then ScanEdge(d) else Decide(d)
      case SRead(k, _) => if k < n then ReadEdge(d) else Process(d)
      case SAdvance(_, _) => AdvanceCursor(d)
      case _ => SendReply(d)
  }

  /** Server steps left until samples are served, once every edge has some. */
  function ServerRank(t: Topology, y: Rx, d: nat): int {
    var n := |t.Incoming(d)|;
    match y.server
    case SRead(k, _) => 2 * (n - k) + 1
    case SAdvance(k, _) => 2 * (n - k)
    case SScan(k, c) => 2 * n + 2 + (n - k) + if c > 0 then 0 else n + 1
    case SInit(k) => 4 * n + 4 + (n - k)
    case SWait => 6 * n + 10 + if y.request then 0 else if y.reply.None? then 1 else 2
    case SReply(_) => 6 * n + 13
    case SStopped => 0
  }

  /** Every edge of `d` has at least one sample that `d` was not served yet. */
  ghost predicate EdgesReady(t: Topology, s: State, d: nat)
    requires t.Valid() && Shape(t, s) && d < |s.rx|
  {
    forall j :: 0 <= j < |t.Incoming(d)| ==> s.rx[d].served < |s.tx[t.Source(d, j)].hist|
  }

  lemma ChoiceEnabled(t: Topology, s: State, d: nat)
    requires Lively(t) && Inv(t, s) && d < |s.rx|
    ensures Enabled(t, s, ServerChoice(t, s, d))
  {
    assert RxOk(t, s.tx, s.rx[d], s.link, d);
    var w := Wanted(t, s, d);
    if w.Some? {
      assert TxOk(t, s.tx[w.value], s.link, w.value);
    }
  }

  /** A scan under way keeps finding samples. */
  lemma ScanStaysPositive(t: Topology, s: State, d: nat)
    requires Lively(t) && Inv(t, s) && d < |s.rx| && EdgesReady(t, s, d) && Enabled(t, s, ScanEdge(d))
    ensures s.rx[d].server.common > 0 ==> ServerStep(t, s, ScanEdge(d)).server.common > 0
    ensures ServerStep(t, s, ScanEdge(d)).server.common >= 0
  {
    var k := s.rx[d].server.link;
    assert RxOk(t, s.tx, s.rx[d], s.link, d);
    assert CursorOk(t, s.link, s.rx[d], d, k);
    NeverBehind(t, s, d);
  }

  lemma ScanRankFalls(t: Topology, s: State, d: nat)
    requires Lively(t) && Inv(t, s) && d < |s.rx| && EdgesReady(t, s, d) && Enabled(t, s, ScanEdge(d))
    ensures 0 <= ServerRank(t, Next(t, s, ScanEdge(d)).rx[d], d) < ServerRank(t, s.rx[d], d)
  {
    ScanStaysPositive(t, s, d);
    assert RxOk(t, s.tx, s.rx[d], s.link, d);
    hide RxOk, TxOk, LinkOk, Inv;
  }

  lemma ReadRankFalls(t: Topology, s: State, d: nat)
    requires Lively(t) && Inv(t, s) && d < |s.rx| && Enabled(t, s, ReadEdge(d))
    ensures 0 <= ServerRank(t, Next(t, s, ReadEdge(d)).rx[d], d) < ServerRank(t, s.rx[d], d)
  {
    NeverVanishes(t, s, d);
    hide RxOk, TxOk, LinkOk, Inv;
  }

  lemma StepServer(t: Topology, s: State, a: Action)
    requires t.Valid() && Shape(t, s) && Enabled(t, s, a)
    ensures Next(t, s, a).rx[a.d] == ServerStep(t, s, a)
  {
    hide ServerStep, PullerStep, LinksStep, Behind;
  }

  lemma AcceptRankFalls(t: Topology, s: State, d: nat)
    requires t.Valid() && Inv(t, s) && Enabled(t, s, Accept(d))
    ensures 0 <= ServerRank(t, ServerStep(t, s, Accept(d)), d) < ServerRank(t, s.rx[d], d)
  {
    assert t.batch[d] >= 1;
    hide Inv, LinksStep, PullerStep, Next, Behind;
  }

  lemma IdleRankFalls(t: Topology, s: State, a: Action)
    requires t.Valid() && Inv(t, s) && Enabled(t, s, a)
    requires a.SendReply? || ((a.Consume? || a.Request?) && s.rx[a.d].server.SWait?)
    requires a.Consume? ==> !s.rx[a.d].request
    ensures 0 <= ServerRank(t, ServerStep(t, s, a), a.d) < ServerRank(t, s.rx[a.d], a.d)
  {
    assert RxOk(t, s.tx, s.rx[a.d], s.link, a.d);
    hide LogOk, CursorOk, ServingOk, TxOk, LinkOk, BudgetOk, Inv, LinksStep, PullerStep, Next, Behind;
  }

  lemma EpochRankFalls(t: Topology, s: State, a: Action)
    requires t.Valid() && !t.fixedBatch && Inv(t, s) && Enabled(t, s, a) && (a.EpochSet? || a.Decide?)
    ensures 0 <= ServerRank(t, ServerStep(t, s, a), a.d) < ServerRank(t, s.rx[a.d], a.d)
  {
    assert RxOk(t, s.tx, s.rx[a.d], s.link, a.d);
    assert t.batch[a.d] >= 1;
    hide LogOk, CursorOk, ServingOk, TxOk, LinkOk, BudgetOk, Inv, LinksStep, PullerStep, Next, Behind;
  }

  lemma CursorRankFalls(t: Topology, s: State, a: Action)
    requires t.Valid() && !t.fixedBatch && Inv(t, s) && Enabled(t, s, a) && (a.CoInit? || a.AdvanceCursor?)
    ensures 0 <= ServerRank(t, ServerStep(t, s, a), a.d) < ServerRank(t, s.rx[a.d], a.d)
  {
    assert RxOk(t, s.tx, s.rx[a.d], s.link, a.d);
    hide LogOk, CursorOk, ServingOk, TxOk, LinkOk, BudgetOk, Inv, LinksStep, PullerStep, Next, Behind;
  }

  lemma ServerRankFalls(t: Topology, s: State, d: nat)
    requires Lively(t) && Inv(t, s) && d < |s.rx| && EdgesReady(t, s, d)
    requires ServerChoice(t, s, d).d == d && OfServer(ServerChoice(t, s, d))
    requires Enabled(t, s, ServerChoice(t, s, d)) && !ServerChoice(t, s, d).Process?
    ensures 0 <= ServerRank(t, Next(t, s, ServerChoice(t, s, d)).rx[d], d) < ServerRank(t, s.rx[d], d)
  {
    assert Shape(t, s) && RxOk(t, s.tx, s.rx[d], s.link, d);
    hide LogOk, CursorOk, ServingOk, Inv, ServerRank, Next;
    var a := ServerChoice(t, s, d);
    if a.ScanEdge? {
      ScanRankFalls(t, s, d);
    } else if a.ReadEdge? {
      ReadRankFalls(t, s, d);
    } else if a.Accept? {
      AcceptRankFalls(t, s, d);
      StepServer(t, s, a);
    } else if a.SendReply? || a.Consume? || a.Request? {
      IdleRankFalls(t, s, a);
      StepServer(t, s, a);
    } else {
      if a.EpochSet? || a.Decide? {
        EpochRankFalls(t, s, a);
      } else {
        CursorRankFalls(t, s, a);
      }
      StepServer(t, s, a);
    }
  }

  lemma UnlockFalls(t: Topology, s: State, d: nat)
    requires Lively(t) && Inv(t, s) && d < |s.rx|
    requires OfPuller(ServerChoice(t, s, d)) && Enabled(t, s, ServerChoice(t, s, d))
    ensures var s' := Next(t, s, ServerChoice(t, s, d));
      s'.rx == s.rx && ServerRank(t, s'.rx[d], d) == ServerRank(t, s.rx[d], d) && BlockRank(t, s', d) < BlockRank(t, s, d)
  {
    hide Inv, Next, ServerRank, PullerStep, Enabled, RoundRank;
    InvBasics(t, s);
    var p := Wanted(t, s, d).value;
    PullerLeavesRest(t, s, ServerChoice(t, s, d));
    LockFalls(t, s, p);
  }

  lemma LockFalls(t: Topology, s: State, p: nat)
    requires t.Valid() && Inv(t, s) && p < |s.tx| && s.tx[p].puller.PScan? && Enabled(t, s, Unlock(t, s, p))
    ensures var x := PullerStep(t, s, Unlock(t, s, p)).puller;
      (if x.PScan? && x.link <= |t.links| then |t.links| - x.link + 1 else 0) < LockRank(t, s, p)
  {
    assert TxOk(t, s.tx[p], s.link, p);
    hide RxOk, LinkOk, BudgetOk;
  }

  lemma ServerRankNat(t: Topology, s: State, d: nat)
    requires t.Valid() && Inv(t, s) && d < |s.rx|
    ensures 0 <= ServerRank(t, s.rx[d], d)
  {
    assert RxOk(t, s.tx, s.rx[d], s.link, d);
  }

  lemma ProcessServes(t: Topology, s: State, d: nat)
    requires t.Valid() && Inv(t, s) && d < |s.rx| && Enabled(t, s, Process(d))
    ensures Next(t, s, Process(d)).rx[d].served > s.rx[d].served
  {
    assert RxOk(t, s.tx, s.rx[d], s.link, d);
  }

  lemma StillReady(t: Topology, s: State, a: Action, d: nat)
    requires t.Valid() && Inv(t, s) && Enabled(t, s, a) && d < |s.rx| && EdgesReady(t, s, d) && !a.Process?
    ensures EdgesReady(t, Next(t, s, a), d)
  {
    StepMono(t, s, a);
    var s1 := Next(t, s, a);
    forall j | 0 <= j < |t.Incoming(d)| ensures s1.rx[d].served < |s1.tx[t.Source(d, j)].hist| {
      assert s.tx[t.Source(d, j)].hist <= s1.tx[t.Source(d, j)].hist;
    }
  }

  lemma ChoiceProgresses(t: Topology, s: State, d: nat)
    requires Lively(t) && Inv(t, s) && d < |s.rx| && EdgesReady(t, s, d)
    ensures var a := ServerChoice(t, s, d);
      && Enabled(t, s, a) && Inv(t, Next(t, s, a)) && Mono(s, Next(t, s, a))
      && if a.Process? then Next(t, s, a).rx[d].served > s.rx[d].served
         else EdgesReady(t, Next(t, s, a), d) && 0 <= ServerRank(t, s.rx[d], d) &&
              (0 <= ServerRank(t, Next(t, s, a).rx[d], d) < ServerRank(t, s.rx[d], d) ||
               (ServerRank(t, Next(t, s, a).rx[d], d) == ServerRank(t, s.rx[d], d) &&
                BlockRank(t, Next(t, s, a), d) < BlockRank(t, s, d)))
  {
    hide Inv, Next, ServerRank, BlockRank, EdgesReady, Mono, Enabled, Topology.Valid;
    InvBasics(t, s);
    var a := ServerChoice(t, s, d);
    ChoiceEnabled(t, s, d);
    StepKeepsInv(t, s, a);
    StepMono(t, s, a);
    ServerRankNat(t, s, d);
    if a.Process? {
      ProcessServes(t, s, d);
    } else {
      StillReady(t, s, a, d);
      if OfPuller(a) {
        UnlockFalls(t, s, d);
      } else {
        ServerRankFalls(t, s, d);
      }
    }
  }

  lemma RunCons(t: Topology, s: State, a: Action, rest: seq<Action>)
    requires t.Valid() && Shape(t, s) && Enabled(t, s, a) && CanRun(t, Next(t, s, a), rest)
    ensures CanRun(t, s, [a] + rest) && Run(t, s, [a] + rest) == Run(t, Next(t, s, a), rest)
  {
    assert ([a] + rest)[1..] == rest;
  }

  lemma MonoRefl(s: State)
    ensures Mono(s, s)
  {
  }

  lemma InvBasics(t: Topology, s: State)
    requires t.Valid() && Inv(t, s)
    ensures Shape(t, s) && |s.rx| == |s.tx| == |t.batch|
  {
  }

  lemma EnabledDevice(t: Topology, s: State, a: Action)
    requires t.Valid() && Shape(t, s) && Enabled(t, s, a)
    ensures a.d < |s.rx|
  {
  }

  lemma MonoTrans(s: State, s': State, s'': State)
    requires Mono(s, s') && Mono(s', s'')
    ensures Mono(s, s'')
  {
    forall p | 0 <= p < |s.tx| ensures s.tx[p].hist <= s''.tx[p].hist {
      assert s.tx[p].hist <= s'.tx[p].hist <= s''.tx[p].hist;
    }
  }

  lemma {:induction false} DriveServer(t: Topology, s: State, d: nat) returns (acts: seq<Action>)
    requires Lively(t) && Inv(t, s) && d < |s.rx| && EdgesReady(t, s, d)
    ensures CanRun(t, s, acts) && Inv(t, Run(t, s, acts)) && Mono(s, Run(t, s, acts))
    ensures Run(t, s, acts).rx[d].served > s.rx[d].served
    decreases ServerRank(t, s.rx[d], d), BlockRank(t, s, d)
  {
    var a := ServerChoice(t, s, d);
    ChoiceProgresses(t, s, d);
    var s1 := Next(t, s, a);
    var rest := [];
    hide Inv, Enabled, Next, ServerRank, BlockRank, EdgesReady, ServerChoice;
    if !a.Process? {
      rest := DriveServer(t, s1, d);
      MonoTrans(s, s1, Run(t, s1, rest));
    }
    RunCons(t, s, a, rest);
    acts := [a] + rest;
  }

  // ---- Driving one puller to its next push ---------------------------------------------

  /** No node was served less than ring `p` has ever held: nobody is waiting for an
      older sample, so the whole ring may be released. */
  ghost predicate Drained(s: State, p: nat) {
    p < |s.tx| && forall e :: 0 <= e < |s.rx| ==> |s.tx[p].hist| <= s.rx[e].served
  }

  /** What the exchange with the radio still lacks before there is a payload to push. */
  function Stage(x: Tx): nat {
    if x.pending != [] then 0 else if x.flight.Some? then 1 else if x.atRadio then 2 else 3
  }

  function ReplyRank(y: Rx): nat {
    if y.server.SReply? then 2 else if y.reply.Some? then 1 else 0
  }

  /** 0 if the round under way ends with the whole ring released. */
  function StaleRank(t: Topology, x: Tx): nat {
    match x.puller
    case PScan(_, m, _, _) => if x.earliest == |x.hist| || m == |x.hist| then 0 else 1
    case PDecide(room) => if room == t.queue then 0 else 1
    case _ => 0
  }

  function RoundRank(t: Topology, x: Tx): nat {
    match x.puller
    case PTop => |t.links| + 4
    case PScan(k, _, _, _) => if k <= |t.links| then |t.links| - k + 3 else 0
    case PDecide(_) => 2
    case _ => 1
  }

  function PullerChoice(t: Topology, s: State, p: nat): Action
    requires t.Valid() && Shape(t, s) && p < |s.tx| && t.radio[p].LockStep?
  {
    var x := s.tx[p];
    if Stage(x) == 2 then
      if s.rx[p].server.SReply? then SendReply(p)
      else if s.rx[p].reply.Some? then Consume(p)
      else Transmit(p, Zeros(t.radio[p].chunk))
    else
      match x.puller
      case PTop => LockRing(p)
      case PScan(k, _, _, _) => if k < |t.links| then ScanLink(p) else Discard(p)
      case PDecide(room) => if x.pending != [] then Land(p) else if room < t.batch[p] then NoRoom(p) else Ask(p)
      case _ => Take(p)
  }

  /** On a drained ring every cursor stands at the ring's frontier. */
  lemma CursorAtFrontier(t: Topology, s: State, p: nat, i: nat)
    requires t.Valid() && Inv(t, s) && Drained(s, p) && i < |t.links| && t.links[i].src == p
    ensures s.link[i].cursor == |s.tx[p].hist|
    ensures !s.link[i].ready ==> |s.tx[p].hist| == 0
  {
    CursorPosition(t, s, i);
  }

  lemma PullerChoiceEnabled(t: Topology, s: State, p: nat)
    requires Lively(t) && Inv(t, s) && Drained(s, p)
    ensures Enabled(t, s, PullerChoice(t, s, p)) && !PullerChoice(t, s, p).Process?
  {
    var x, y := s.tx[p], s.rx[p];
    assert TxOk(t, x, s.link, p) && RxOk(t, s.tx, y, s.link, p) && BudgetOk(t, x, y, p);
    hide LogOk, CursorOk, ServingOk;
  }

  /** The measure, compared lexicographically. */
  ghost predicate Closer(t: Topology, x: Tx, y: Rx, x': Tx, y': Rx) {
    || Stage(x') < Stage(x)
    || (Stage(x') == Stage(x) &&
        (|| ReplyRank(y') < ReplyRank(y)
         || (ReplyRank(y') == ReplyRank(y) &&
             (|| StaleRank(t, x') < StaleRank(t, x)
              || (StaleRank(t, x') == StaleRank(t, x) && RoundRank(t, x') < RoundRank(t, x))))))
  }

  lemma ScanStaysFresh(t: Topology, s: State, p: nat)
    requires t.Valid() && Inv(t, s) && Drained(s, p) && Enabled(t, s, ScanLink(p))
    ensures var x' := PullerStep(t, s, ScanLink(p));
      StaleRank(t, x') <= StaleRank(t, s.tx[p]) && RoundRank(t, x') < RoundRank(t, s.tx[p]) && Stage(x') == Stage(s.tx[p])
  {
    var k := s.tx[p].puller.link;
    assert TxOk(t, s.tx[p], s.link, p);
    if t.links[k].src == p {
      CursorAtFrontier(t, s, p, k);
    }
  }

  lemma DiscardStaysFresh(t: Topology, s: State, p: nat)
    requires t.Valid() && Inv(t, s) && Drained(s, p) && Enabled(t, s, Discard(p))
    ensures var x' := PullerStep(t, s, Discard(p));
      StaleRank(t, x') <= StaleRank(t, s.tx[p]) && RoundRank(t, x') < RoundRank(t, s.tx[p]) && Stage(x') == Stage(s.tx[p])
  {
    var x := s.tx[p];
    assert TxOk(t, x, s.link, p);
    if x.puller.outgoing && !x.puller.consumer {
      var i :| 0 <= i < |t.links| && t.links[i].src == p;
      CursorAtFrontier(t, s, p, i);
    }
  }

  lemma PullerCloser(t: Topology, s: State, p: nat)
    requires Lively(t) && Inv(t, s) && Drained(s, p)
    requires Enabled(t, s, PullerChoice(t, s, p)) && OfPuller(PullerChoice(t, s, p))
    ensures var x' := PullerStep(t, s, PullerChoice(t, s, p));
      |x'.hist| > |s.tx[p].hist| || Closer(t, s.tx[p], s.rx[p], x', s.rx[p])
  {
    var a := PullerChoice(t, s, p);
    if a.ScanLink? {
      ScanStaysFresh(t, s, p);
    } else if a.Discard? {
      DiscardStaysFresh(t, s, p);
    } else {
      assert TxOk(t, s.tx[p], s.link, p);
    }
  }

  lemma ReplyCloser(t: Topology, s: State, p: nat)
    requires Lively(t) && Inv(t, s) && Drained(s, p)
    requires Enabled(t, s, PullerChoice(t, s, p)) && OfServer(PullerChoice(t, s, p))
    ensures Closer(t, s.tx[p], s.rx[p], s.tx[p], ServerStep(t, s, PullerChoice(t, s, p)))
  {
    assert RxOk(t, s.tx, s.rx[p], s.link, p);
    hide LogOk, CursorOk, ServingOk, TxOk;
  }

  lemma PullerChoiceProgresses(t: Topology, s: State, p: nat)
    requires Lively(t) && Inv(t, s) && Drained(s, p)
    ensures var a := PullerChoice(t, s, p);
      Enabled(t, s, a) && a.d == p &&
      var s1 := Next(t, s, a);
      && Inv(t, s1) && Mono(s, s1) && (forall e :: 0 <= e < |s.rx| ==> s1.rx[e].served == s.rx[e].served)
      && (|s1.tx[p].hist| > |s.tx[p].hist| ||
          (Drained(s1, p) && Closer(t, s.tx[p], s.rx[p], s1.tx[p], s1.rx[p])))
  {
    assert Shape(t, s);
    hide Inv, Closer, PullerStep, ServerStep, LinksStep, Behind;
    var a := PullerChoice(t, s, p);
    PullerChoiceEnabled(t, s, p);
    StepKeepsInv(t, s, a);
    StepMono(t, s, a);
    if OfPuller(a) {
      PullerLeavesRest(t, s, a);
      PullerCloser(t, s, p);
    } else {
      ServerLeavesRest(t, s, a);
      ReplyCloser(t, s, p);
    }
    var s1 := Next(t, s, a);
    assert s.tx[p].hist <= s1.tx[p].hist;
    if |s1.tx[p].hist| == |s.tx[p].hist| {
      forall e | 0 <= e < |s1.rx| ensures |s1.tx[p].hist| <= s1.rx[e].served {
        assert |s.tx[p].hist| <= s.rx[e].served;
      }
    }
  }

  lemma {:induction false} DrivePuller(t: Topology, s: State, p: nat) returns (acts: seq<Action>)
    requires Lively(t) && Inv(t, s) && Drained(s, p)
    ensures CanRun(t, s, acts) && Inv(t, Run(t, s, acts)) && Mono(s, Run(t, s, acts))
    ensures forall e :: 0 <= e < |s.rx| ==> Run(t, s, acts).rx[e].served == s.rx[e].served
    ensures |Run(t, s, acts).tx[p].hist| > |s.tx[p].hist|
    decreases Stage(s.tx[p]), ReplyRank(s.rx[p]), StaleRank(t, s.tx[p]), RoundRank(t, s.tx[p])
  {
    var a := PullerChoice(t, s, p);
    PullerChoiceProgresses(t, s, p);
    var s1 := Next(t, s, a);
    var rest := [];
    hide Inv, Enabled, Next, PullerChoice, Drained, Stage, ReplyRank, StaleRank, RoundRank;
    if |s1.tx[p].hist| == |s.tx[p].hist| {
      rest := DrivePuller(t, s1, p);
      MonoTrans(s, s1, Run(t, s1, rest));
    }
    RunCons(t, s, a, rest);
    acts := [a] + rest;
  }

  // ---- The theorem ---------------------------------------------------------------------

  function Deficit(rx: seq<Rx>, goal: nat): nat {
    if rx == [] then 0
    else Deficit(rx[1..], goal) + if rx[0].served < goal then goal - rx[0].served else 0
  }

  lemma {:induction false} DeficitFalls(rx: seq<Rx>, rx': seq<Rx>, goal: nat, d: nat)
    requires |rx| == |rx'| && d < |rx| && rx[d].served < goal && rx[d].served < rx'[d].served
    requires forall e :: 0 <= e < |rx| ==> rx[e].served <= rx'[e].served
    ensures Deficit(rx', goal) < Deficit(rx, goal)
  {
    if d > 0 {
      DeficitFalls(rx[1..], rx'[1..], goal, d - 1);
    } else {
      DeficitShrinks(rx[1..], rx'[1..], goal);
    }
  }

  lemma {:induction false} DeficitShrinks(rx: seq<Rx>, rx': seq<Rx>, goal: nat)
    requires |rx| == |rx'| && forall e :: 0 <= e < |rx| ==> rx[e].served <= rx'[e].served
    ensures Deficit(rx', goal) <= Deficit(rx, goal)
  {
    if rx != [] {
      DeficitShrinks(rx[1..], rx'[1..], goal);
    }
  }

  lemma {:induction false} Hungriest(rx: seq<Rx>) returns (d: nat)
    requires rx != []
    ensures d < |rx| && forall e :: 0 <= e < |rx| ==> rx[d].served <= rx[e].served
  {
    d := 0;
    if |rx| > 1 {
      var e := Hungriest(rx[1..]);
      assert forall k :: 1 <= k < |rx| ==> rx[k] == rx[1..][k - 1];
      if rx[e + 1].served < rx[0].served {
        d := e + 1;
      }
    }
  }

  /** Brings at least one fresh sample into every ring that the hungriest node reads. */
  lemma {:induction false} FillEdges(t: Topology, s: State, d: nat, j: nat) returns (acts: seq<Action>)
    requires Lively(t) && Inv(t, s) && d < |s.rx| && j <= |t.Incoming(d)|
    requires forall e :: 0 <= e < |s.rx| ==> s.rx[d].served <= s.rx[e].served
    requires forall k :: 0 <= k < j ==> s.rx[d].served < |s.tx[t.Source(d, k)].hist|
    ensures CanRun(t, s, acts) && Inv(t, Run(t, s, acts)) && Mono(s, Run(t, s, acts))
    ensures Run(t, s, acts).rx[d].served == s.rx[d].served && EdgesReady(t, Run(t, s, acts), d)
    decreases |t.Incoming(d)| - j
  {
    hide Inv, Enabled, Next, Mono;
    if j == |t.Incoming(d)| {
      acts := [];
      MonoRefl(s);
    } else {
      InvBasics(t, s);
      var head := FillEdge(t, s, d, j);
      var s1 := Run(t, s, head);
      InvBasics(t, s1);
      StillFilled(t, s, s1, d, j);
      StillHungriest(s, s1, d);
      var tail := FillEdges(t, s1, d, j + 1);
      RunConcat(t, s, head, tail);
      MonoTrans(s, s1, Run(t, s1, tail));
      acts := head + tail;
    }
  }

  /** Brings a fresh sample into the ring behind edge `j`; serves nobody. */
  lemma FillEdge(t: Topology, s: State, d: nat, j: nat) returns (head: seq<Action>)
    requires Lively(t) && Inv(t, s) && d < |s.rx| && j < |t.Incoming(d)|
    requires forall e :: 0 <= e < |s.rx| ==> s.rx[d].served <= s.rx[e].served
    ensures CanRun(t, s, head) && Inv(t, Run(t, s, head)) && Mono(s, Run(t, s, head))
    ensures forall e :: 0 <= e < |s.rx| ==> e < |Run(t, s, head).rx| && Run(t, s, head).rx[e].served == s.rx[e].served
    ensures t.Source(d, j) < |Run(t, s, head).tx| && s.rx[d].served < |Run(t, s, head).tx[t.Source(d, j)].hist|
  {
    var p := t.Source(d, j);
    InvBasics(t, s);
    if |s.tx[p].hist| <= s.rx[d].served {
      FrontierBound(t, s, d, j);
      head := DrivePuller(t, s, p);
    } else {
      MonoRefl(s);
      head := [];
    }
  }

  lemma StillFilled(t: Topology, s: State, s1: State, d: nat, j: nat)
    requires t.Valid() && d < |t.batch| && j < |t.Incoming(d)| && Mono(s, s1) && |s.tx| == |s1.tx| == |s.rx| == |s1.rx| == |t.batch|
    requires s1.rx[d].served == s.rx[d].served && s.rx[d].served < |s1.tx[t.Source(d, j)].hist|
    requires forall k :: 0 <= k < j ==> s.rx[d].served < |s.tx[t.Source(d, k)].hist|
    ensures forall k :: 0 <= k < j + 1 ==> s1.rx[d].served < |s1.tx[t.Source(d, k)].hist|
  {
    forall k | 0 <= k < j + 1 ensures s1.rx[d].served < |s1.tx[t.Source(d, k)].hist| {
      assert s.tx[t.Source(d, k)].hist <= s1.tx[t.Source(d, k)].hist;
    }
  }

  lemma StillHungriest(s: State, s1: State, d: nat)
    requires |s.rx| == |s1.rx| && d < |s.rx|
    requires forall e :: 0 <= e < |s.rx| ==> s.rx[d].served <= s.rx[e].served
    requires forall e :: 0 <= e < |s.rx| ==> s1.rx[e].served == s.rx[e].served
    ensures forall e :: 0 <= e < |s1.rx| ==> s1.rx[d].served <= s1.rx[e].served
  {
  }

  lemma FrontierBound(t: Topology, s: State, d: nat, j: nat)
    requires t.Valid() && Inv(t, s) && d < |s.rx| && j < |t.Incoming(d)|
    ensures s.rx[d].served <= |s.tx[t.Source(d, j)].hist|
  {
    assert RxOk(t, s.tx, s.rx[d], s.link, d);
    ColumnLength(t, s.rx[d].log, d, j);
    assert Column(s.rx[d].log, j) <= s.tx[t.Source(d, j)].hist;
  }

  lemma {:induction false} FeedFrom(t: Topology, s: State, goal: nat) returns (acts: seq<Action>)
    requires Lively(t) && Inv(t, s)
    ensures CanRun(t, s, acts) && Mono(s, Run(t, s, acts))
    ensures forall d :: 0 <= d < |t.batch| ==> Run(t, s, acts).rx[d].served >= goal
    decreases Deficit(s.rx, goal)
  {
    acts := [];
    assert Mono(s, s);
    if exists d :: 0 <= d < |s.rx| && s.rx[d].served < goal {
      var d := Hungriest(s.rx);
      var fill := FillEdges(t, s, d, 0);
      var s1 := Run(t, s, fill);
      var serve := DriveServer(t, s1, d);
      var s2 := Run(t, s1, serve);
      MonoTrans(s, s1, s2);
      DeficitFalls(s.rx, s2.rx, goal, d);
      hide Inv, Enabled, Next, EdgesReady, Deficit;
      var rest := FeedFrom(t, s2, goal);
      RunConcat(t, s1, serve, rest);
      RunConcat(t, s, fill, serve + rest);
      MonoTrans(s, s2, Run(t, s2, rest));
      acts := fill + (serve + rest);
    }
  }

  /** Deadlock freedom, for every graph, every reachable state and every goal: the relay
      can always be continued until each node has been served `goal` samples. */
  lemma EveryNodeFed(t: Topology, s: State, goal: nat)
    requires Lively(t) && Reachable(t, s)
    ensures exists acts :: CanRun(t, s, acts) && Reachable(t, Run(t, s, acts)) &&
              forall d :: 0 <= d < |t.batch| ==> Run(t, s, acts).rx[d].served >= goal
  {
    ReachableInv(t, s);
    var acts := FeedFrom(t, s, goal);
    var before :| CanRun(t, Init(t), before) && s == Run(t, Init(t), before);
    RunConcat(t, Init(t), before, acts);
    assert CanRun(t, Init(t), before + acts);
  }

  // ---- The fixed-batch variant ------------------------------------------------------------

  /** Full batches only, from radios whose head start is shorter than a batch. */
  predicate Starving(t: Topology) {
    && t.Valid() && t.fixedBatch
    && (forall d :: 0 <= d < |t.batch| ==> |t.Incoming(d)| > 0 && t.radio[d].LockStep?)
    && forall d, e :: 0 <= d < |t.batch| && 0 <= e < |t.batch| ==> t.radio[e].offset < t.batch[d]
  }

  ghost predicate Unfed(y: Rx) {
    y.served == 0 && (y.server.SWait? || y.server.SInit? || y.server.SScan?)
  }

  ghost predicate NothingServed(s: State) {
    forall d :: 0 <= d < |s.rx| ==> Unfed(s.rx[d])
  }

  lemma NoFullBatch(t: Topology, s: State, d: nat)
    requires Starving(t) && Inv(t, s) && NothingServed(s) && Enabled(t, s, Decide(d))
    ensures s.rx[d].server.common < t.Need(d)
  {
    var p := t.Source(d, 0);
    assert RxOk(t, s.tx, s.rx[d], s.link, d) && Ready(t, s.tx, d, 0, s.rx[d].served, s.rx[d].server.common);
    assert TxOk(t, s.tx[p], s.link, p) && BudgetOk(t, s.tx[p], s.rx[p], p) && RxOk(t, s.tx, s.rx[p], s.link, p);
    assert t.radio[p].offset < t.batch[d];
  }

  lemma ServerServesNothing(t: Topology, s: State, a: Action)
    requires Starving(t) && Shape(t, s) && Enabled(t, s, a) && Unfed(s.rx[a.d])
    requires a.Decide? ==> s.rx[a.d].server.common < t.Need(a.d)
    ensures Unfed(ServerStep(t, s, a))
  {
    assert |t.Incoming(a.d)| > 0;
  }

  lemma StepServesNothing(t: Topology, s: State, a: Action)
    requires Starving(t) && Inv(t, s) && NothingServed(s) && Enabled(t, s, a)
    ensures NothingServed(Next(t, s, a))
  {
    hide Inv, LinksStep, PullerStep, ServerStep, Behind, Enabled, Unfed, Topology.Valid, Topology.Incoming;
    InvBasics(t, s);
    EnabledDevice(t, s, a);
    if a.Decide? {
      NoFullBatch(t, s, a.d);
    }
    ServerServesNothing(t, s, a);
  }

  lemma {:induction false} RunServesNothing(t: Topology, s: State, acts: seq<Action>)
    requires Starving(t) && Inv(t, s) && NothingServed(s) && CanRun(t, s, acts)
    ensures NothingServed(Run(t, s, acts))
    decreases |acts|
  {
    if acts != [] {
      StepKeepsInv(t, s, acts[0]);
      StepServesNothing(t, s, acts[0]);
      RunServesNothing(t, Next(t, s, acts[0]), acts[1..]);
    }
  }

  /** A fixed-batch relay fed by such radios serves nothing in any run. */
  lemma FixedBatchStarves(t: Topology, s: State, d: nat)
    requires Starving(t) && Reachable(t, s) && d < |t.batch|
    ensures s.rx[d].served == 0
  {
    var acts :| CanRun(t, Init(t), acts) && s == Run(t, Init(t), acts);
    InitInv(t);
    RunServesNothing(t, Init(t), acts);
    ReachableInv(t, s);
  }

  // ---- The relay test's topology ------------------------------------------------------------

  /** One base station and two phones, both ways (tests/test_broker.cpp:263-318). */
  function RelayTest(fixed: bool): Topology {
    Topology([23040, 23040, 23040], [Link(0, 1), Link(0, 2), Link(1, 0), Link(2, 0)], 131072,
             [LockStep(6000, 12000), LockStep(6000, 12000), LockStep(6000, 12000)], fixed)
  }

  /** The variable-window relay can always feed it further; the fixed-batch one never serves it
      a sample. */
  lemma RelayTestOutcome(s: State, goal: nat)
    ensures Lively(RelayTest(false)) && Starving(RelayTest(true))
    ensures Reachable(RelayTest(false), s) ==>
              exists acts :: CanRun(RelayTest(false), s, acts) &&
                forall d :: 0 <= d < 3 ==> Run(RelayTest(false), s, acts).rx[d].served >= goal
    ensures Reachable(RelayTest(true), s) ==> forall d :: 0 <= d < 3 ==> s.rx[d].served == 0
  {
    RelayTestShape();
    hide RelayTest, Lively, Starving;
    if Reachable(RelayTest(false), s) {
      EveryNodeFed(RelayTest(false), s, goal);
    }
    if Reachable(RelayTest(true), s) {
      forall d | 0 <= d < 3 ensures s.rx[d].served == 0 {
        FixedBatchStarves(RelayTest(true), s, d);
      }
    }
  }

  lemma RelayTestShape()
    ensures |RelayTest(false).batch| == |RelayTest(true).batch| == 3 && RelayTest(false).Valid() && RelayTest(true).Valid()
    ensures Lively(RelayTest(false)) && Starving(RelayTest(true))
  {
    hide Topology.Incoming;
    SomeIncoming(RelayTest(true), 0, 2);
    SomeIncoming(RelayTest(true), 1, 0);
    SomeIncoming(RelayTest(true), 2, 1);
  }

  lemma SomeIncoming(t: Topology, d: nat, i: nat)
    requires i < |t.links| && t.links[i].dst == d
    ensures |t.Incoming(d)| > 0
  {
    assert i in t.Incoming(d);
  }
}

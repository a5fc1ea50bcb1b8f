/** How much a node is served, over every run (src/broker.cpp:499-575). */
module RelayServes {
  import opened Wrappers
  import opened Iq
  import opened Relay
  import opened RelaySafety

  /** A run from the start, state by state. */
  ghost predicate Trace(t: Topology, ss: seq<State>, acts: seq<Action>)
    requires t.Valid()
  {
    && |ss| == |acts| + 1 && ss[0] == Init(t)
    && forall i, next :: 0 <= i < |acts| && next == i + 1 ==> Stepped(t, ss[i], acts[i], ss[next])
  }

  ghost predicate Stepped(t: Topology, s: State, a: Action, s': State)
    requires t.Valid()
  {
    Shape(t, s) && Enabled(t, s, a) && s' == Next(t, s, a)
  }

  lemma StepAt(t: Topology, ss: seq<State>, acts: seq<Action>, i: nat)
    requires t.Valid() && Trace(t, ss, acts) && i < |acts|
    ensures Stepped(t, ss[i], acts[i], ss[i + 1])
  {
  }

  lemma {:induction false} TraceInv(t: Topology, ss: seq<State>, acts: seq<Action>, i: nat)
    requires t.Valid() && Trace(t, ss, acts) && i < |ss|
    ensures Inv(t, ss[i]) && Shape(t, ss[i]) && |ss[i].rx| == |ss[i].tx| == |t.batch|
  {
    hide Inv, Next, Enabled, Trace;
    First(t, ss, acts);
    if i == 0 {
      InitInv(t);
    } else {
      TraceInv(t, ss, acts, i - 1);
      StepAt(t, ss, acts, i - 1);
      StepKeepsInv(t, ss[i - 1], acts[i - 1]);
    }
    Sizes(t, ss[i]);
  }

  lemma First(t: Topology, ss: seq<State>, acts: seq<Action>)
    requires t.Valid() && Trace(t, ss, acts)
    ensures |ss| == |acts| + 1 && ss[0] == Init(t)
  {
  }

  lemma Sizes(t: Topology, s: State)
    requires t.Valid() && Inv(t, s)
    ensures Shape(t, s) && |s.rx| == |s.tx| == |t.batch|
  {
  }

  // ---- The size of a serve ----------------------------------------------------------------------------

  /** Samples that device `d` has not been served yet, in the ring behind its `j`-th edge. */
  function Held(t: Topology, s: State, d: nat, j: nat): int
    requires t.Valid() && |s.tx| == |s.rx| == |t.batch| && d < |t.batch| && j < |t.Incoming(d)|
  {
    |s.tx[t.Source(d, j)].hist| - s.rx[d].served
  }

  /** Step `m` sized the window of one of `d`'s edges, whose ring held exactly `c` samples past the cursor,
      for the serve that starts at position `from` of the streams. */
  ghost predicate SizedBy(t: Topology, ss: seq<State>, acts: seq<Action>, m: nat, d: nat, from: nat, c: int)
    requires t.Valid()
  {
    && m < |acts| && m < |ss| && acts[m] == ScanEdge(d) && d < |t.batch|
    && |ss[m].tx| == |ss[m].rx| == |t.batch| && ss[m].rx[d].served == from
    && ss[m].rx[d].server.SScan? && ss[m].rx[d].server.link < |t.Incoming(d)|
    && Held(t, ss[m], d, ss[m].rx[d].server.link) == c
  }

  /** The window being sized or served is a whole batch, or was cut by one of the scans. */
  ghost predicate CutBy(t: Topology, ss: seq<State>, acts: seq<Action>, n: nat, d: nat, from: nat, c: int)
    requires t.Valid() && d < |t.batch|
  {
    c == t.batch[d] || exists m: nat :: m < n && SizedBy(t, ss, acts, m, d, from, c)
  }

  ghost predicate Sized(t: Topology, ss: seq<State>, acts: seq<Action>, n: nat, d: nat)
    requires t.Valid() && d < |t.batch| && n < |ss| && d < |ss[n].rx|
  {
    var y := ss[n].rx[d];
    match y.server
    case SScan(_, c) => |t.Incoming(d)| > 0 && CutBy(t, ss, acts, n, d, y.served, c)
    case SRead(_, v) => if t.Incoming(d) == [] then v == t.batch[d] else CutBy(t, ss, acts, n, d, y.served, v)
    case SAdvance(_, v) => if t.Incoming(d) == [] then v == t.batch[d] else CutBy(t, ss, acts, n, d, y.served, v)
    case _ => true
  }

  lemma CutLater(t: Topology, ss: seq<State>, acts: seq<Action>, n: nat, n': nat, d: nat, from: nat, c: int)
    requires t.Valid() && d < |t.batch| && n <= n' && CutBy(t, ss, acts, n, d, from, c)
    ensures CutBy(t, ss, acts, n', d, from, c)
  {
    hide SizedBy;
  }

  /** Sizing an edge's window keeps it or cuts it to what the ring holds. */
  lemma ScanCuts(t: Topology, s: State, d: nat)
    requires t.Valid() && Inv(t, s) && Enabled(t, s, ScanEdge(d))
    ensures |s.tx| == |s.rx| == |t.batch| && d < |t.batch|
    ensures var y, y' := s.rx[d], ServerStep(t, s, ScanEdge(d));
      && y'.served == y.served && y'.server.SScan? && y'.server.link == y.server.link + 1
      && y'.server.common == if Held(t, s, d, y.server.link) < y.server.common then Held(t, s, d, y.server.link) else y.server.common
  {
    var k := s.rx[d].server.link;
    NeverBehind(t, s, d);
    assert RxOk(t, s.tx, s.rx[d], s.link, d);
    assert CursorOk(t, s.link, s.rx[d], d, k);
  }

  /** Other steps of the server. */
  lemma OtherSizes(t: Topology, s: State, a: Action)
    requires t.Valid() && Inv(t, s) && Enabled(t, s, a) && !OfPuller(a) && !a.ScanEdge?
    ensures a.d < |s.rx|
    ensures var y, y' := s.rx[a.d], ServerStep(t, s, a);
      && (y'.server.SScan? ==>
            || (y'.server == y.server && y'.served == y.served)
            || (y'.server.common == t.batch[a.d] && |t.Incoming(a.d)| > 0))
      && (y'.server.SRead? || y'.server.SAdvance? ==>
            && y'.served == y.served
            && (|| ((y.server.SRead? || y.server.SAdvance?) && y'.server.serve == y.server.serve)
                || (y.server.SScan? && y'.server.serve == y.server.common)
                || (y'.server.serve == t.batch[a.d] && t.Incoming(a.d) == [])))
  {
    assert RxOk(t, s.tx, s.rx[a.d], s.link, a.d);
    hide LogOk, CursorOk, ServingOk, TxOk, LinkOk, BudgetOk;
  }

  lemma {:induction false} SizedAlong(t: Topology, ss: seq<State>, acts: seq<Action>, n: nat, d: nat)
    requires t.Valid() && Trace(t, ss, acts) && n < |ss| && d < |t.batch|
    ensures d < |ss[n].rx| && Sized(t, ss, acts, n, d)
  {
    hide Inv, Next, Enabled, Trace, CutBy;
    First(t, ss, acts);
    TraceInv(t, ss, acts, n);
    if n > 0 {
      SizedAlong(t, ss, acts, n - 1, d);
      TraceInv(t, ss, acts, n - 1);
      StepAt(t, ss, acts, n - 1);
      SizedStep(t, ss, acts, n - 1, n, d);
    }
  }

  lemma SizedStep(t: Topology, ss: seq<State>, acts: seq<Action>, m: nat, n: nat, d: nat)
    requires t.Valid() && n == m + 1 && n < |ss| && m < |acts| && d < |t.batch| && Inv(t, ss[m])
    requires |ss[m].rx| == |ss[m].tx| == |ss[n].rx| == |t.batch| && Stepped(t, ss[m], acts[m], ss[n])
    requires Sized(t, ss, acts, m, d)
    ensures Sized(t, ss, acts, n, d)
  {
    hide Inv, Next, Enabled, CutBy, ServerStep, PullerStep;
    var s, a, y := ss[m], acts[m], ss[m].rx[d];
    if OfPuller(a) {
      PullerLeavesRest(t, s, a);
    } else {
      ServerLeavesRest(t, s, a);
    }
    if y.server.SScan? {
      if CutBy(t, ss, acts, m, d, y.served, y.server.common) {
        CutLater(t, ss, acts, m, n, d, y.served, y.server.common);
      }
    } else if y.server.SRead? || y.server.SAdvance? {
      if CutBy(t, ss, acts, m, d, y.served, y.server.serve) {
        CutLater(t, ss, acts, m, n, d, y.served, y.server.serve);
      }
    }
    if !OfPuller(a) && a.d == d {
      if a.ScanEdge? {
        Scanning(t, s, d);
        ScanSized(t, ss, acts, m, n, d);
      } else {
        OtherSizes(t, s, a);
        WholeBatch(t, ss, acts, n, d, ss[n].rx[d].served);
      }
    }
  }

  lemma Scanning(t: Topology, s: State, d: nat)
    requires t.Valid() && Shape(t, s) && Enabled(t, s, ScanEdge(d))
    ensures d < |s.rx| && s.rx[d].server.SScan? && s.rx[d].server.link < |t.Incoming(d)|
  {
  }

  lemma WholeBatch(t: Topology, ss: seq<State>, acts: seq<Action>, n: nat, d: nat, from: nat)
    requires t.Valid() && d < |t.batch|
    ensures CutBy(t, ss, acts, n, d, from, t.batch[d])
  {
  }

  lemma ScanSized(t: Topology, ss: seq<State>, acts: seq<Action>, m: nat, n: nat, d: nat)
    requires t.Valid() && n == m + 1 && n < |ss| && m < |acts| && d < |t.batch| && Inv(t, ss[m])
    requires |ss[m].rx| == |ss[m].tx| == |ss[n].rx| == |t.batch| && acts[m] == ScanEdge(d)
    requires Shape(t, ss[m]) && Enabled(t, ss[m], acts[m]) && ss[n].rx[d] == ServerStep(t, ss[m], acts[m])
    requires ss[m].rx[d].server.SScan? && CutBy(t, ss, acts, m, d, ss[m].rx[d].served, ss[m].rx[d].server.common)
    requires |t.Incoming(d)| > 0
    ensures d < |ss[n].rx| && Sized(t, ss, acts, n, d)
  {
    hide Inv, ServerStep;
    var y := ss[m].rx[d];
    ScanCuts(t, ss[m], d);
    var c := Held(t, ss[m], d, y.server.link);
    if c < y.server.common {
      assert SizedBy(t, ss, acts, m, d, y.served, c);
    } else {
      CutLater(t, ss, acts, m, n, d, y.served, y.server.common);
    }
  }

  /** Every serve of every run: at least one sample and at most a batch, all of it held by every ring; a
      whole batch for a node without edges; and less than a batch only if some edge's ring held exactly
      that much when it was scanned for this serve. */
  lemma ServeSize(t: Topology, ss: seq<State>, acts: seq<Action>, i: nat, d: nat)
    requires t.Valid() && Trace(t, ss, acts) && i < |acts| && acts[i] == Process(d)
    ensures |ss| == |acts| + 1 && d < |t.batch| == |ss[i].rx| == |ss[i].tx| == |ss[i + 1].rx|
    ensures ss[i + 1].rx[d].log != [] && ss[i + 1].rx[d].log[..|ss[i + 1].rx[d].log| - 1] == ss[i].rx[d].log
    ensures var c, from := ss[i + 1].rx[d].log[|ss[i + 1].rx[d].log| - 1].count, ss[i].rx[d].served;
      && 1 <= c <= t.batch[d] && ss[i + 1].rx[d].served == from + c
      && (forall j :: 0 <= j < |t.Incoming(d)| ==> c <= Held(t, ss[i], d, j))
      && (t.Incoming(d) == [] ==> c == t.batch[d])
      && (c < t.batch[d] ==> exists m: nat :: m < i && SizedBy(t, ss, acts, m, d, from, c))
  {
    hide Inv, Next, Enabled, Trace, CutBy, SizedBy, ServerStep, PullerStep;
    First(t, ss, acts);
    TraceInv(t, ss, acts, i);
    TraceInv(t, ss, acts, i + 1);
    StepAt(t, ss, acts, i);
    ServerLeavesRest(t, ss[i], acts[i]);
    Processed(t, ss[i], d);
    SizedAlong(t, ss, acts, i, d);
    CutMeans(t, ss, acts, i, d, ss[i].rx[d].served, ss[i].rx[d].server.serve);
  }

  lemma CutMeans(t: Topology, ss: seq<State>, acts: seq<Action>, n: nat, d: nat, from: nat, c: int)
    requires t.Valid() && d < |t.batch|
    ensures CutBy(t, ss, acts, n, d, from, c) && c < t.batch[d] ==> exists m: nat :: m < n && SizedBy(t, ss, acts, m, d, from, c)
  {
    hide SizedBy;
  }

  lemma Processed(t: Topology, s: State, d: nat)
    requires t.Valid() && Inv(t, s) && Enabled(t, s, Process(d))
    ensures d < |t.batch| == |s.rx| == |s.tx| && s.rx[d].server.SRead?
    ensures var y, y' := s.rx[d], ServerStep(t, s, Process(d));
      && 1 <= y.server.serve <= t.batch[d] && y'.served == y.served + y.server.serve
      && |y'.log| == |y.log| + 1 && y'.log[..|y.log|] == y.log && y'.log[|y.log|].count == y.server.serve
      && forall j :: 0 <= j < |t.Incoming(d)| ==> y.server.serve <= Held(t, s, d, j)
  {
    assert RxOk(t, s.tx, s.rx[d], s.link, d);
    hide LogOk, CursorOk, TxOk, LinkOk, BudgetOk;
    forall j | 0 <= j < |t.Incoming(d)| ensures s.rx[d].server.serve <= Held(t, s, d, j) {
      assert Ready(t, s.tx, d, j, s.rx[d].served, s.rx[d].server.serve);
    }
  }

  // ---- A serve nobody feeds ---------------------------------------------------------------------------------

  /** `c` is the smallest of a batch and what the first `k` edges' rings held in state `s`. */
  ghost predicate Smallest(t: Topology, s: State, d: nat, k: nat, c: int)
    requires t.Valid() && |s.tx| == |s.rx| == |t.batch| && d < |t.batch| && k <= |t.Incoming(d)|
  {
    && c <= t.batch[d] && (forall j :: 0 <= j < k ==> c <= Held(t, s, d, j))
    && (c == t.batch[d] || exists j :: 0 <= j < k && c == Held(t, s, d, j))
  }

  /** Since `s0` accepted a request nothing has reached the rings that `d` reads. */
  ghost predicate Unfed(t: Topology, s0: State, s: State, d: nat)
    requires t.Valid() && d < |t.batch| == |s0.rx| == |s0.tx|
  {
    && |s.rx| == |s.tx| == |t.batch| && s.rx[d].served == s0.rx[d].served
    && (forall j :: 0 <= j < |t.Incoming(d)| ==> s.tx[t.Source(d, j)].hist == s0.tx[t.Source(d, j)].hist)
    && match s.rx[d].server
       case SInit(_) => true
       case SScan(k, c) => k <= |t.Incoming(d)| && Smallest(t, s0, d, k, c)
       case SRead(_, v) => Smallest(t, s0, d, |t.Incoming(d)|, v)
       case SAdvance(_, v) => Smallest(t, s0, d, |t.Incoming(d)|, v)
       case _ => false
  }

  lemma SmallestNext(t: Topology, s: State, d: nat, k: nat, c: int, next: nat, c': int)
    requires t.Valid() && |s.tx| == |s.rx| == |t.batch| && d < |t.batch| && k < |t.Incoming(d)| && next == k + 1
    requires Smallest(t, s, d, k, c) && c' == if Held(t, s, d, k) < c then Held(t, s, d, k) else c
    ensures Smallest(t, s, d, next, c')
  {
    hide Held, Topology.Incoming;
  }

  /** Nothing reaches a ring except by a puller's push. */
  lemma OnlyLandPushes(t: Topology, s: State, a: Action, p: nat)
    requires t.Valid() && Inv(t, s) && Enabled(t, s, a) && p < |s.tx| && a != Land(p)
    ensures |Next(t, s, a).tx| == |s.tx| && Next(t, s, a).tx[p].hist == s.tx[p].hist
  {
    hide RxOk, TxOk, LinkOk, BudgetOk;
    if OfPuller(a) {
      PullerLeavesRest(t, s, a);
    } else {
      ServerLeavesRest(t, s, a);
    }
  }

  lemma UnfedServer(t: Topology, s0: State, s: State, a: Action)
    requires t.Valid() && Inv(t, s) && Enabled(t, s, a) && !OfPuller(a) && !a.Process?
    requires a.d < |t.batch| == |s0.rx| == |s0.tx| && Unfed(t, s0, s, a.d)
    ensures var y' := ServerStep(t, s, a);
      && y'.served == s0.rx[a.d].served
      && match y'.server
         case SInit(_) => true
         case SScan(k, c) => k <= |t.Incoming(a.d)| && Smallest(t, s0, a.d, k, c)
         case SRead(_, v) => Smallest(t, s0, a.d, |t.Incoming(a.d)|, v)
         case SAdvance(_, v) => Smallest(t, s0, a.d, |t.Incoming(a.d)|, v)
         case _ => false
  {
    var d, y := a.d, s.rx[a.d];
    assert RxOk(t, s.tx, y, s.link, d);
    hide LogOk, CursorOk, ServingOk, TxOk, LinkOk, BudgetOk;
    if a.ScanEdge? {
      ScanCuts(t, s, d);
      SmallestNext(t, s0, d, y.server.link, y.server.common, y.server.link + 1, ServerStep(t, s, a).server.common);
    } else if a.ReadEdge? {
      NeverVanishes(t, s, d);
    }
  }

  lemma UnfedStep(t: Topology, s0: State, s: State, a: Action, d: nat)
    requires t.Valid() && Inv(t, s) && Enabled(t, s, a) && d < |t.batch| == |s0.rx| == |s0.tx| && Unfed(t, s0, s, d)
    requires a != Process(d) && forall j :: 0 <= j < |t.Incoming(d)| ==> a != Land(t.Source(d, j))
    ensures Unfed(t, s0, Next(t, s, a), d)
  {
    hide Inv, Next, Enabled, ServerStep, PullerStep, Smallest, Topology.Incoming;
    Sizes(t, s);
    var s' := Next(t, s, a);
    if OfPuller(a) {
      PullerLeavesRest(t, s, a);
    } else {
      ServerLeavesRest(t, s, a);
      if a.d == d {
        UnfedServer(t, s0, s, a);
      }
    }
    forall j | 0 <= j < |t.Incoming(d)| ensures s'.tx[t.Source(d, j)].hist == s0.tx[t.Source(d, j)].hist {
      OnlyLandPushes(t, s, a, t.Source(d, j));
    }
  }

  lemma UnfedStarts(t: Topology, s: State, d: nat)
    requires t.Valid() && Inv(t, s) && Enabled(t, s, Accept(d))
    ensures d < |t.batch| == |s.rx| == |s.tx| && Unfed(t, s, Next(t, s, Accept(d)), d)
  {
    Sizes(t, s);
    hide RxOk, TxOk, LinkOk, BudgetOk;
    ServerLeavesRest(t, s, Accept(d));
  }

  /** No puller pushes onto a ring that `d` reads between steps `a` and `i`, and `d` is served once, by `i`. */
  ghost predicate Alone(t: Topology, acts: seq<Action>, a: nat, i: nat, d: nat)
    requires t.Valid() && d < |t.batch|
  {
    && a < i < |acts| && acts[a] == Accept(d) && acts[i] == Process(d)
    && forall m :: a < m < i ==> acts[m] != Process(d) && NoPush(t, acts[m], d)
  }

  ghost predicate NoPush(t: Topology, a: Action, d: nat)
    requires t.Valid() && d < |t.batch|
  {
    forall j :: 0 <= j < |t.Incoming(d)| ==> a != Land(t.Source(d, j))
  }

  lemma {:induction false} UnfedAlong(t: Topology, ss: seq<State>, acts: seq<Action>, a: nat, i: nat, d: nat, n: nat)
    requires t.Valid() && Trace(t, ss, acts) && d < |t.batch| && Alone(t, acts, a, i, d) && a < n <= i
    ensures |ss| == |acts| + 1 && |ss[a].rx| == |ss[a].tx| == |t.batch| && Unfed(t, ss[a], ss[n], d)
    decreases n
  {
    hide Inv, Next, Enabled, Trace, Unfed, NoPush, Topology.Incoming;
    First(t, ss, acts);
    TraceInv(t, ss, acts, a);
    TraceInv(t, ss, acts, n - 1);
    StepAt(t, ss, acts, n - 1);
    if n == a + 1 {
      UnfedStarts(t, ss[a], d);
    } else {
      UnfedAlong(t, ss, acts, a, i, d, n - 1);
      PushFree(t, acts[n - 1], d);
      UnfedStep(t, ss[a], ss[n - 1], acts[n - 1], d);
    }
  }

  lemma PushFree(t: Topology, a: Action, d: nat)
    requires t.Valid() && d < |t.batch| && NoPush(t, a, d)
    ensures forall j :: 0 <= j < |t.Incoming(d)| ==> a != Land(t.Source(d, j))
  {
  }

  /** A serve during which nothing reaches the rings it reads is the smallest of a batch and what each
      of those rings held, past the node's cursor, when the request was accepted. */
  lemma LargestCommonWindow(t: Topology, ss: seq<State>, acts: seq<Action>, a: nat, i: nat, d: nat)
    requires t.Valid() && Trace(t, ss, acts) && d < |t.batch| && Alone(t, acts, a, i, d)
    ensures |ss| == |acts| + 1 && |ss[a].tx| == |ss[a].rx| == |ss[i + 1].rx| == |t.batch| && ss[i + 1].rx[d].log != []
    ensures var c, from := ss[i + 1].rx[d].log[|ss[i + 1].rx[d].log| - 1].count, ss[a].rx[d].served;
      && c <= t.batch[d] && (forall j :: 0 <= j < |t.Incoming(d)| ==> c <= |ss[a].tx[t.Source(d, j)].hist| - from)
      && (c == t.batch[d] || exists j :: 0 <= j < |t.Incoming(d)| && c == |ss[a].tx[t.Source(d, j)].hist| - from)
  {
    hide Inv, Next, Enabled, Trace, ServerStep, PullerStep, Alone, Topology.Incoming, Smallest;
    Ends(t, acts, a, i, d);
    First(t, ss, acts);
    UnfedAlong(t, ss, acts, a, i, d, i);
    TraceInv(t, ss, acts, i);
    TraceInv(t, ss, acts, i + 1);
    StepAt(t, ss, acts, i);
    ServerLeavesRest(t, ss[i], acts[i]);
    Processed(t, ss[i], d);
    SmallestIs(t, ss[a], d, ss[i].rx[d].server.serve);
  }

  lemma Ends(t: Topology, acts: seq<Action>, a: nat, i: nat, d: nat)
    requires t.Valid() && d < |t.batch| && Alone(t, acts, a, i, d)
    ensures a < i < |acts| && acts[i] == Process(d)
  {
  }

  lemma SmallestIs(t: Topology, s: State, d: nat, c: int)
    requires t.Valid() && |s.tx| == |s.rx| == |t.batch| && d < |t.batch| && Smallest(t, s, d, |t.Incoming(d)|, c)
    ensures c <= t.batch[d] && forall j :: 0 <= j < |t.Incoming(d)| ==> c <= |s.tx[t.Source(d, j)].hist| - s.rx[d].served
    ensures c == t.batch[d] || exists j :: 0 <= j < |t.Incoming(d)| && c == |s.tx[t.Source(d, j)].hist| - s.rx[d].served
  {
    hide Topology.Incoming;
    if c != t.batch[d] {
      var j :| 0 <= j < |t.Incoming(d)| && c == Held(t, s, d, j);
      assert c == |s.tx[t.Source(d, j)].hist| - s.rx[d].served;
    }
    forall j | 0 <= j < |t.Incoming(d)| ensures c <= |s.tx[t.Source(d, j)].hist| - s.rx[d].served {
      assert c <= Held(t, s, d, j);
    }
  }
}

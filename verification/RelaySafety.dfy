/** What every reachable state of the relay keeps. */
module RelaySafety {
  import opened Wrappers
  import opened Iq
  import opened Ring
  import opened Relay

  /** How far edge `j`'s cursor is ahead of the serves already completed. */
  function Lead(srv: Server, j: nat): nat {
    match srv
    case SRead(k, v) => if j < k then v else 0
    case SAdvance(k, v) => if j < k then v else 0
    case _ => 0
  }

  /** Transmit side: nothing pulled is lost, and a scan in progress never asks to
      release a sample that some link has not consumed. */
  ghost predicate TxOk(t: Topology, x: Tx, link: seq<LinkState>, d: nat)
    requires t.Valid() && d < |t.batch| && |link| == |t.links|
  {
    && x.earliest <= |x.hist| && x.Free(t.queue) >= 0
    && x.sent == x.hist + x.pending + Payload(x.flight)
    && (x.outstanding <==> x.atRadio || x.flight.Some?)
    && !(x.atRadio && x.flight.Some?)
    && (x.outstanding ==> x.pending == [])
    && |x.pending| <= t.queue
    && (match t.radio[d]
        case Free(m) => |x.pending| <= m && |Payload(x.flight)| <= m
        case LockStep(c, _) => |x.pending| <= c && (x.flight.Some? ==> |x.flight.value| == c))
    && (match x.puller
        case PScan(k, m, consumer, outgoing) =>
          && k <= |t.links| && m <= |x.hist|
          && (outgoing ==> exists i :: 0 <= i < k && t.links[i].src == d)
          && forall i :: 0 <= i < k && t.links[i].src == d ==>
               outgoing && if link[i].ready then consumer && m <= link[i].cursor else m <= x.earliest
        case PDecide(room) => room <= x.Free(t.queue)
        case PRecv => x.outstanding && t.batch[d] <= x.Free(t.queue)
        case PStopped => x.flight.Some? && |x.flight.value| > t.queue
        case PTop => true)
  }

  /** Every link's position is inside its ring; a link not yet initialised pins the
      ring at its very first sample. */
  ghost predicate LinkOk(t: Topology, tx: seq<Tx>, link: seq<LinkState>, i: nat)
    requires t.Valid() && |tx| == |t.batch| && |link| == |t.links| && i < |link|
  {
    var e := tx[t.links[i].src].earliest;
    e <= link[i].cursor && (!link[i].ready ==> e == 0 && link[i].cursor == 0)
  }

  /** The windows handed out so far are the source streams, cut at common positions. */
  ghost predicate LogOk(t: Topology, tx: seq<Tx>, y: Rx, d: nat)
    requires t.Valid() && |tx| == |t.batch| && d < |t.batch|
  {
    && y.served == TotalServed(y.log)
    && (forall n :: 0 <= n < |y.log| ==> ServeOk(t, y.log[n], d))
    && forall j :: 0 <= j < |t.Incoming(d)| ==> Column(y.log, j) <= tx[t.Source(d, j)].hist
  }

  ghost predicate ServeOk(t: Topology, e: Serve, d: nat)
    requires t.Valid() && d < |t.batch|
  {
    && 1 <= e.count <= t.batch[d]
    && |e.inputs| == |t.Incoming(d)|
    && forall j :: 0 <= j < |e.inputs| ==> |e.inputs[j]| == e.count
  }

  /** `window` samples from position `from` were pushed to edge `j`'s ring. */
  ghost predicate Ready(t: Topology, tx: seq<Tx>, d: nat, j: nat, from: nat, window: int)
    requires t.Valid() && |tx| == |t.batch| && d < |t.batch| && j < |t.Incoming(d)|
  {
    from + window <= |tx[t.Source(d, j)].hist|
  }

  ghost predicate CursorOk(t: Topology, link: seq<LinkState>, y: Rx, d: nat, j: nat)
    requires t.Valid() && |link| == |t.links| && j < |t.Incoming(d)|
  {
    var l := link[t.Incoming(d)[j]];
    && l.cursor == y.served + Lead(y.server, j)
    && (l.ready <==> y.epoch || (y.server.SInit? && j < y.server.link))
  }

  /** Window `w` was read off edge `j` at position `from`. */
  ghost predicate WindowOk(t: Topology, tx: seq<Tx>, d: nat, j: nat, from: nat, serve: nat, w: seq<Sample>)
    requires t.Valid() && |tx| == |t.batch| && d < |t.batch| && j < |t.Incoming(d)|
  {
    var h := tx[t.Source(d, j)].hist;
    from + serve <= |h| && w == h[from..from + serve]
  }

  /** Receive side: cursors agree, and the window being served is wholly available. */
  ghost predicate RxOk(t: Topology, tx: seq<Tx>, y: Rx, link: seq<LinkState>, d: nat)
    requires t.Valid() && |tx| == |t.batch| && |link| == |t.links| && d < |t.batch|
  {
    var n := |t.Incoming(d)|;
    && LogOk(t, tx, y, d)
    && (forall j :: 0 <= j < n ==> CursorOk(t, link, y, d, j))
    && (!y.epoch ==> y.served == 0 && (y.server.SWait? || y.server.SInit?))
    && (y.epoch ==> !y.server.SInit?)
    && y.consumed + (if y.reply.Some? then y.reply.value else 0)
         + (if y.server.SReply? then y.server.serve else 0) == y.served
    && (y.awaiting <==> y.request || !y.server.SWait? || y.reply.Some?)
    && (y.request ==> y.server.SWait? && y.reply.None?)
    && (y.reply.Some? ==> y.server.SWait?)
    && (y.server.SRead? || y.server.SAdvance? || y.cur == [])
    && match y.server
       case SInit(k) => k <= n
       case SScan(k, c) => k <= n && n > 0 && 0 <= c <= t.batch[d] && forall j :: 0 <= j < k ==> Ready(t, tx, d, j, y.served, c)
       case SRead(k, v) => k <= n && ServingOk(t, tx, y, d, k, v)
       case SAdvance(k, v) => k < n && ServingOk(t, tx, y, d, k + 1, v)
       case SReply(v) => true
       case SWait => true
       case SStopped => false
  }

  ghost predicate ServingOk(t: Topology, tx: seq<Tx>, y: Rx, d: nat, read: nat, v: nat)
    requires t.Valid() && |tx| == |t.batch| && d < |t.batch| && read <= |t.Incoming(d)|
  {
    && 1 <= v <= t.batch[d] && |y.cur| == read
    && (forall j :: 0 <= j < |t.Incoming(d)| ==> Ready(t, tx, d, j, y.served, v))
    && forall j :: 0 <= j < read ==> WindowOk(t, tx, d, j, y.served, v, y.cur[j])
  }

  ghost predicate BudgetOk(t: Topology, x: Tx, y: Rx, d: nat)
    requires t.Valid() && d < |t.batch|
  {
    match t.radio[d]
    case Free(_) => true
    case LockStep(_, offset) => |x.sent| <= y.consumed + offset
  }

  ghost predicate Inv(t: Topology, s: State)
    requires t.Valid()
  {
    && Shape(t, s)
    && (forall d :: 0 <= d < |s.tx| ==> TxOk(t, s.tx[d], s.link, d))
    && (forall d :: 0 <= d < |s.rx| ==> RxOk(t, s.tx, s.rx[d], s.link, d))
    && (forall i :: 0 <= i < |s.link| ==> LinkOk(t, s.tx, s.link, i))
    && (forall d :: 0 <= d < |s.tx| ==> BudgetOk(t, s.tx[d], s.rx[d], d))
    && s.gaps == 0 && s.vanished == 0
  }

  lemma InitInv(t: Topology)
    requires t.Valid()
    ensures Inv(t, Init(t))
  {
  }

  lemma {:induction false} ColumnLength(t: Topology, log: seq<Serve>, d: nat, j: nat)
    requires t.Valid() && d < |t.batch| && j < |t.Incoming(d)|
    requires forall n :: 0 <= n < |log| ==> ServeOk(t, log[n], d)
    ensures |Column(log, j)| == TotalServed(log)
  {
    if log != [] {
      assert ServeOk(t, log[|log| - 1], d);
      ColumnLength(t, log[..|log| - 1], d, j);
    }
  }

  ghost predicate Grows(tx: seq<Tx>, tx': seq<Tx>) {
    |tx| == |tx'| && forall p :: 0 <= p < |tx| ==> tx[p].hist <= tx'[p].hist
  }

  lemma RxOkGrows(t: Topology, tx: seq<Tx>, tx': seq<Tx>, y: Rx, link: seq<LinkState>, d: nat)
    requires t.Valid() && |tx| == |t.batch| && |link| == |t.links| && d < |t.batch|
    requires Grows(tx, tx') && RxOk(t, tx, y, link, d)
    ensures RxOk(t, tx', y, link, d)
  {
    forall j | 0 <= j < |t.Incoming(d)|
      ensures Column(y.log, j) <= tx'[t.Source(d, j)].hist
    {
      assert tx[t.Source(d, j)].hist <= tx'[t.Source(d, j)].hist;
    }
    forall j, from: nat, w | 0 <= j < |t.Incoming(d)| && Ready(t, tx, d, j, from, w)
      ensures Ready(t, tx', d, j, from, w)
    {
      assert tx[t.Source(d, j)].hist <= tx'[t.Source(d, j)].hist;
    }
    forall j, from: nat, v: nat, w | 0 <= j < |t.Incoming(d)| && WindowOk(t, tx, d, j, from, v, w)
      ensures WindowOk(t, tx', d, j, from, v, w)
    {
      assert tx[t.Source(d, j)].hist <= tx'[t.Source(d, j)].hist;
    }
  }

  predicate OfPuller(a: Action) {
    a.LockRing? || a.ScanLink? || a.Discard? || a.Land? || a.NoRoom? || a.Ask? || a.PullTimeout? || a.Take? || a.Transmit?
  }

  /** The stale-cursor argument: whatever was loaded during the scan, no link still
      needs a sample that the puller releases. */
  lemma DiscardKeepsNeeded(t: Topology, s: State, d: nat, i: nat)
    requires t.Valid() && Inv(t, s) && Enabled(t, s, Discard(d)) && i < |t.links| && t.links[i].src == d
    ensures Released(s.tx[d]) <= s.link[i].cursor
    ensures !s.link[i].ready ==> Released(s.tx[d]) == 0
  {
    assert TxOk(t, s.tx[d], s.link, d);
    assert LinkOk(t, s.tx, s.link, i);
  }

  lemma ScanKeepsTx(t: Topology, s: State, d: nat)
    requires t.Valid() && Inv(t, s) && Enabled(t, s, ScanLink(d))
    ensures TxOk(t, PullerStep(t, s, ScanLink(d)), s.link, d)
  {
    assert TxOk(t, s.tx[d], s.link, d);
    assert LinkOk(t, s.tx, s.link, s.tx[d].puller.link);
  }

  lemma DiscardKeepsTx(t: Topology, s: State, d: nat)
    requires t.Valid() && Inv(t, s) && Enabled(t, s, Discard(d))
    ensures TxOk(t, PullerStep(t, s, Discard(d)), s.link, d)
  {
    assert TxOk(t, s.tx[d], s.link, d);
  }

  lemma LandKeepsTx(t: Topology, s: State, d: nat)
    requires t.Valid() && Inv(t, s) && Enabled(t, s, Land(d))
    ensures TxOk(t, PullerStep(t, s, Land(d)), s.link, d)
  {
    var x, x' := s.tx[d], PullerStep(t, s, Land(d));
    assert TxOk(t, x, s.link, d);
    assert x.flight.None?;
    assert x'.sent == x'.hist + x'.pending + Payload(x'.flight);
  }

  lemma TransferKeepsTx(t: Topology, s: State, a: Action)
    requires t.Valid() && Inv(t, s) && Enabled(t, s, a) && (a.Take? || a.Transmit?)
    ensures TxOk(t, PullerStep(t, s, a), s.link, a.d)
    ensures BudgetOk(t, PullerStep(t, s, a), s.rx[a.d], a.d)
  {
    var x, x' := s.tx[a.d], PullerStep(t, s, a);
    assert TxOk(t, x, s.link, a.d);
    assert BudgetOk(t, x, s.rx[a.d], a.d);
    assert x'.sent == x'.hist + x'.pending + Payload(x'.flight);
  }

  lemma PullerKeepsTx(t: Topology, s: State, a: Action)
    requires t.Valid() && Inv(t, s) && Enabled(t, s, a) && OfPuller(a)
    ensures TxOk(t, PullerStep(t, s, a), s.link, a.d)
    ensures s.tx[a.d].hist <= PullerStep(t, s, a).hist
    ensures BudgetOk(t, PullerStep(t, s, a), s.rx[a.d], a.d)
  {
    assert BudgetOk(t, s.tx[a.d], s.rx[a.d], a.d);
    assert TxOk(t, s.tx[a.d], s.link, a.d);
    if a.ScanLink? {
      ScanKeepsTx(t, s, a.d);
    } else if a.Discard? {
      DiscardKeepsTx(t, s, a.d);
    } else if a.Land? {
      LandKeepsTx(t, s, a.d);
    } else if a.Take? || a.Transmit? {
      TransferKeepsTx(t, s, a);
    }
  }

  lemma PullerKeepsLink(t: Topology, s: State, a: Action, i: nat)
    requires t.Valid() && Inv(t, s) && Enabled(t, s, a) && OfPuller(a) && i < |s.link|
    ensures LinkOk(t, s.tx[a.d := PullerStep(t, s, a)], s.link, i)
  {
    assert LinkOk(t, s.tx, s.link, i);
    if a.Discard? && t.links[i].src == a.d {
      DiscardKeepsNeeded(t, s, a.d, i);
    }
  }

  lemma PullerLeavesRest(t: Topology, s: State, a: Action)
    requires t.Valid() && Shape(t, s) && Enabled(t, s, a) && OfPuller(a)
    ensures var s' := Next(t, s, a);
      s'.rx == s.rx && s'.link == s.link && s'.gaps == s.gaps && s'.vanished == s.vanished &&
      s'.tx == s.tx[a.d := PullerStep(t, s, a)]
  {
  }

  lemma PullerKeepsInv(t: Topology, s: State, a: Action)
    requires t.Valid() && Inv(t, s) && Enabled(t, s, a) && OfPuller(a)
    ensures Inv(t, Next(t, s, a))
  {
    hide RxOk, TxOk, LinkOk, BudgetOk, Next, PullerStep;
    PullerLeavesRest(t, s, a);
    PullerKeepsTx(t, s, a);
    var tx' := s.tx[a.d := PullerStep(t, s, a)];
    forall d | 0 <= d < |s.rx| ensures RxOk(t, tx', s.rx[d], s.link, d) {
      RxOkGrows(t, s.tx, tx', s.rx[d], s.link, d);
    }
    forall i | 0 <= i < |s.link| ensures LinkOk(t, tx', s.link, i) {
      PullerKeepsLink(t, s, a, i);
    }
  }

  /** Releasing and advancing only ever help a scan in progress. */
  lemma TxOkLinks(t: Topology, x: Tx, link: seq<LinkState>, link': seq<LinkState>, d: nat)
    requires t.Valid() && d < |t.batch| && |link| == |link'| == |t.links|
    requires TxOk(t, x, link, d)
    requires forall i :: 0 <= i < |link| && t.links[i].src == d ==>
               (x.puller.PScan? ==> link[i].ready == link'[i].ready) && link[i].cursor <= link'[i].cursor
    ensures TxOk(t, x, link', d)
  {
  }

  /** A link's cursor concerns only the node it ends at. */
  lemma RxOkLinks(t: Topology, tx: seq<Tx>, y: Rx, link: seq<LinkState>, link': seq<LinkState>, d: nat)
    requires t.Valid() && d < |t.batch| && |tx| == |t.batch| && |link| == |link'| == |t.links|
    requires RxOk(t, tx, y, link, d)
    requires forall i :: 0 <= i < |link| && t.links[i].dst == d ==> link[i] == link'[i]
    ensures RxOk(t, tx, y, link', d)
  {
    forall j | 0 <= j < |t.Incoming(d)| ensures CursorOk(t, link', y, d, j) {
      assert CursorOk(t, link, y, d, j);
    }
  }

  predicate OfServer(a: Action) {
    !OfPuller(a)
  }

  lemma CoInitKeepsRx(t: Topology, s: State, d: nat)
    requires t.Valid() && Inv(t, s) && Enabled(t, s, CoInit(d))
    ensures RxOk(t, s.tx, ServerStep(t, s, CoInit(d)), LinksStep(t, s, CoInit(d)), d)
  {
    var y, y', link' := s.rx[d], ServerStep(t, s, CoInit(d)), LinksStep(t, s, CoInit(d));
    var k := y.server.link;
    assert RxOk(t, s.tx, y, s.link, d);
    assert CursorOk(t, s.link, y, d, k);
    assert LinkOk(t, s.tx, s.link, t.Incoming(d)[k]);
    forall j | 0 <= j < |t.Incoming(d)| ensures CursorOk(t, link', y', d, j) {
      assert CursorOk(t, s.link, y, d, j);
    }
  }

  /** The sequence-gap branch is never taken. */
  lemma NeverBehind(t: Topology, s: State, d: nat)
    requires t.Valid() && Inv(t, s) && Enabled(t, s, ScanEdge(d))
    ensures !Behind(t, s, d)
  {
    assert LinkOk(t, s.tx, s.link, t.Incoming(d)[s.rx[d].server.link]);
  }

  /** Neither is the "window vanished" branch: the whole window is still in the ring. */
  lemma NeverVanishes(t: Topology, s: State, d: nat)
    requires t.Valid() && Inv(t, s) && Enabled(t, s, ReadEdge(d))
    ensures var k := s.rx[d].server.link;
      Readable(s.tx[t.Source(d, k)], s.link[t.Incoming(d)[k]].cursor, s.rx[d].server.serve)
  {
    var k := s.rx[d].server.link;
    assert RxOk(t, s.tx, s.rx[d], s.link, d);
    assert CursorOk(t, s.link, s.rx[d], d, k) && Ready(t, s.tx, d, k, s.rx[d].served, s.rx[d].server.serve);
    assert LinkOk(t, s.tx, s.link, t.Incoming(d)[k]);
  }

  lemma ScanEdgeKeepsRx(t: Topology, s: State, d: nat)
    requires t.Valid() && Inv(t, s) && Enabled(t, s, ScanEdge(d))
    ensures RxOk(t, s.tx, ServerStep(t, s, ScanEdge(d)), LinksStep(t, s, ScanEdge(d)), d)
  {
    var y, y' := s.rx[d], ServerStep(t, s, ScanEdge(d));
    var k := y.server.link;
    NeverBehind(t, s, d);
    assert RxOk(t, s.tx, y, s.link, d);
    ColumnLength(t, y.log, d, k);
    assert Column(y.log, k) <= s.tx[t.Source(d, k)].hist;
    assert CursorOk(t, s.link, y, d, k);
    assert 0 <= y'.server.common;
    forall j | 0 <= j < |t.Incoming(d)| ensures CursorOk(t, s.link, y', d, j) {
      assert CursorOk(t, s.link, y, d, j);
    }
    forall j | 0 <= j < k + 1 ensures Ready(t, s.tx, d, j, y.served, y'.server.common) {
      assert j < k ==> Ready(t, s.tx, d, j, y.served, y.server.common);
      assert CursorOk(t, s.link, y, d, k);
    }
  }

  lemma ReadEdgeKeepsRx(t: Topology, s: State, d: nat)
    requires t.Valid() && Inv(t, s) && Enabled(t, s, ReadEdge(d))
    ensures RxOk(t, s.tx, ServerStep(t, s, ReadEdge(d)), s.link, d)
  {
    var y := s.rx[d];
    var k, v := y.server.link, y.server.serve;
    var h := s.tx[t.Source(d, k)].hist;
    NeverVanishes(t, s, d);
    assert RxOk(t, s.tx, y, s.link, d);
    assert CursorOk(t, s.link, y, d, k) && Ready(t, s.tx, d, k, y.served, v);
    var w := h[y.served..y.served + v];
    var y' := y.(cur := y.cur + [w], server := SAdvance(k, v));
    assert ServerStep(t, s, ReadEdge(d)) == y';
    ReadKeepsRx(t, s.tx, y, s.link, d, w);
  }

  lemma ReadKeepsRx(t: Topology, tx: seq<Tx>, y: Rx, link: seq<LinkState>, d: nat, w: seq<Sample>)
    requires t.Valid() && |tx| == |t.batch| && |link| == |t.links| && d < |t.batch|
    requires RxOk(t, tx, y, link, d) && y.server.SRead? && y.server.link < |t.Incoming(d)|
    requires WindowOk(t, tx, d, y.server.link, y.served, y.server.serve, w)
    ensures RxOk(t, tx, y.(cur := y.cur + [w], server := SAdvance(y.server.link, y.server.serve)), link, d)
  {
    var k, v := y.server.link, y.server.serve;
    var y' := y.(cur := y.cur + [w], server := SAdvance(k, v));
    forall j | 0 <= j < |t.Incoming(d)| ensures CursorOk(t, link, y', d, j) {
      assert CursorOk(t, link, y, d, j);
    }
    forall j | 0 <= j < k + 1 ensures WindowOk(t, tx, d, j, y.served, v, y'.cur[j]) {
      assert j < k ==> WindowOk(t, tx, d, j, y.served, v, y.cur[j]);
    }
  }

  lemma AdvanceKeepsRx(t: Topology, s: State, d: nat)
    requires t.Valid() && Inv(t, s) && Enabled(t, s, AdvanceCursor(d))
    ensures RxOk(t, s.tx, ServerStep(t, s, AdvanceCursor(d)), LinksStep(t, s, AdvanceCursor(d)), d)
  {
    var y, y', link' := s.rx[d], ServerStep(t, s, AdvanceCursor(d)), LinksStep(t, s, AdvanceCursor(d));
    assert RxOk(t, s.tx, y, s.link, d);
    forall j | 0 <= j < |t.Incoming(d)| ensures CursorOk(t, link', y', d, j) {
      assert CursorOk(t, s.link, y, d, j);
    }
  }

  lemma ColumnAppend(t: Topology, tx: seq<Tx>, y: Rx, d: nat, v: nat, j: nat)
    requires t.Valid() && |tx| == |t.batch| && d < |t.batch| && j < |t.Incoming(d)|
    requires LogOk(t, tx, y, d) && ServingOk(t, tx, y, d, |t.Incoming(d)|, v)
    ensures Column(y.log + [Serve(v, y.cur)], j) <= tx[t.Source(d, j)].hist
  {
    var h := tx[t.Source(d, j)].hist;
    ColumnLength(t, y.log, d, j);
    assert (y.log + [Serve(v, y.cur)])[..|y.log|] == y.log;
    assert Column(y.log, j) <= h && WindowOk(t, tx, d, j, y.served, v, y.cur[j]);
    assert h[..y.served + v] == h[..y.served] + h[y.served..y.served + v];
  }

  lemma ProcessKeepsRx(t: Topology, s: State, d: nat)
    requires t.Valid() && Inv(t, s) && Enabled(t, s, Process(d))
    ensures RxOk(t, s.tx, ServerStep(t, s, Process(d)), s.link, d)
  {
    var y, y' := s.rx[d], ServerStep(t, s, Process(d));
    var v := y.server.serve;
    assert RxOk(t, s.tx, y, s.link, d);
    assert y'.log[..|y.log|] == y.log;
    forall j | 0 <= j < |t.Incoming(d)|
      ensures CursorOk(t, s.link, y', d, j) && Column(y'.log, j) <= s.tx[t.Source(d, j)].hist
    {
      assert CursorOk(t, s.link, y, d, j);
      ColumnAppend(t, s.tx, y, d, v, j);
    }
    forall j | 0 <= j < |y.cur| ensures |y.cur[j]| == v {
      assert WindowOk(t, s.tx, d, j, y.served, v, y.cur[j]);
    }
  }

  lemma OtherKeepsRx(t: Topology, s: State, a: Action)
    requires t.Valid() && Inv(t, s) && Enabled(t, s, a)
    requires a.Accept? || a.EpochSet? || a.Decide? || a.SendReply? || a.Request? || a.Consume?
    ensures RxOk(t, s.tx, ServerStep(t, s, a), s.link, a.d)
  {
    var y, y' := s.rx[a.d], ServerStep(t, s, a);
    assert RxOk(t, s.tx, y, s.link, a.d);
    forall j | 0 <= j < |t.Incoming(a.d)| ensures CursorOk(t, s.link, y', a.d, j) {
      assert CursorOk(t, s.link, y, a.d, j);
    }
    if a.EpochSet? || a.Accept? {
      assert t.batch[a.d] >= 1;
    }
  }

  lemma ServerKeepsRx(t: Topology, s: State, a: Action)
    requires t.Valid() && Inv(t, s) && Enabled(t, s, a) && OfServer(a)
    ensures RxOk(t, s.tx, ServerStep(t, s, a), LinksStep(t, s, a), a.d)
    ensures BudgetOk(t, s.tx[a.d], ServerStep(t, s, a), a.d)
  {
    assert BudgetOk(t, s.tx[a.d], s.rx[a.d], a.d);
    hide RxOk;
    if a.CoInit? {
      CoInitKeepsRx(t, s, a.d);
    } else if a.ScanEdge? {
      ScanEdgeKeepsRx(t, s, a.d);
    } else if a.ReadEdge? {
      ReadEdgeKeepsRx(t, s, a.d);
    } else if a.AdvanceCursor? {
      AdvanceKeepsRx(t, s, a.d);
    } else if a.Process? {
      ProcessKeepsRx(t, s, a.d);
    } else {
      OtherKeepsRx(t, s, a);
    }
  }

  /** A server writes only the cursors of the links that end at its own node, never
      moves one backwards, and marks one ready only while the ring's puller is outside
      its mutex section. */
  lemma ServerMovesOwnCursors(t: Topology, s: State, a: Action, i: nat)
    requires t.Valid() && Inv(t, s) && Enabled(t, s, a) && OfServer(a) && i < |s.link|
    ensures var l, l' := s.link[i], LinksStep(t, s, a)[i];
      && l.cursor <= l'.cursor
      && (t.links[i].dst != a.d ==> l' == l)
      && (s.tx[t.links[i].src].puller.PScan? ==> l'.ready == l.ready)
      && LinkOk(t, s.tx, LinksStep(t, s, a), i)
  {
    assert LinkOk(t, s.tx, s.link, i);
    if a.CoInit? {
      var k := s.rx[a.d].server.link;
      assert RxOk(t, s.tx, s.rx[a.d], s.link, a.d);
      assert CursorOk(t, s.link, s.rx[a.d], a.d, k);
      assert LinkOk(t, s.tx, s.link, t.Incoming(a.d)[k]);
    }
    if a.AdvanceCursor? {
      var k := s.rx[a.d].server.link;
      assert RxOk(t, s.tx, s.rx[a.d], s.link, a.d);
      assert CursorOk(t, s.link, s.rx[a.d], a.d, k);
    }
  }

  lemma ServerLeavesRest(t: Topology, s: State, a: Action)
    requires t.Valid() && Inv(t, s) && Enabled(t, s, a) && OfServer(a)
    ensures var s' := Next(t, s, a);
      s'.tx == s.tx && s'.rx == s.rx[a.d := ServerStep(t, s, a)] && s'.link == LinksStep(t, s, a) &&
      s'.gaps == s.gaps && s'.vanished == s.vanished
  {
    if a.ScanEdge? {
      NeverBehind(t, s, a.d);
    }
    if a.ReadEdge? {
      NeverVanishes(t, s, a.d);
    }
  }

  lemma ServerKeepsInv(t: Topology, s: State, a: Action)
    requires t.Valid() && Inv(t, s) && Enabled(t, s, a) && OfServer(a)
    ensures Inv(t, Next(t, s, a))
  {
    hide RxOk, TxOk, LinkOk, BudgetOk, Next, ServerStep, LinksStep;
    ServerLeavesRest(t, s, a);
    ServerKeepsRx(t, s, a);
    var link' := LinksStep(t, s, a);
    forall i | 0 <= i < |s.link| ensures LinkOk(t, s.tx, link', i) {
      ServerMovesOwnCursors(t, s, a, i);
    }
    forall d | 0 <= d < |s.tx| ensures TxOk(t, s.tx[d], link', d) {
      forall i | 0 <= i < |s.link| && t.links[i].src == d
        ensures (s.tx[d].puller.PScan? ==> s.link[i].ready == link'[i].ready) && s.link[i].cursor <= link'[i].cursor
      {
        ServerMovesOwnCursors(t, s, a, i);
      }
      TxOkLinks(t, s.tx[d], s.link, link', d);
    }
    forall d | 0 <= d < |s.rx| && d != a.d ensures RxOk(t, s.tx, s.rx[d], link', d) {
      forall i | 0 <= i < |s.link| && t.links[i].dst == d ensures s.link[i] == link'[i] {
        ServerMovesOwnCursors(t, s, a, i);
      }
      RxOkLinks(t, s.tx, s.rx[d], s.link, link', d);
    }
  }

  lemma StepKeepsInv(t: Topology, s: State, a: Action)
    requires t.Valid() && Inv(t, s) && Enabled(t, s, a)
    ensures Inv(t, Next(t, s, a))
  {
    if OfPuller(a) {
      PullerKeepsInv(t, s, a);
    } else {
      ServerKeepsInv(t, s, a);
    }
  }

  lemma {:induction false} RunKeepsInv(t: Topology, s: State, acts: seq<Action>)
    requires t.Valid() && Inv(t, s) && CanRun(t, s, acts)
    ensures Inv(t, Run(t, s, acts))
    decreases |acts|
  {
    if acts != [] {
      StepKeepsInv(t, s, acts[0]);
      RunKeepsInv(t, Next(t, s, acts[0]), acts[1..]);
    }
  }

  // ---- Consequences over every run -------------------------------------------------

  ghost predicate Reachable(t: Topology, s: State)
    requires t.Valid()
  {
    exists acts :: CanRun(t, Init(t), acts) && s == Run(t, Init(t), acts)
  }

  lemma ReachableInv(t: Topology, s: State)
    requires t.Valid() && Reachable(t, s)
    ensures Inv(t, s)
  {
    var acts :| CanRun(t, Init(t), acts) && s == Run(t, Init(t), acts);
    InitInv(t);
    RunKeepsInv(t, Init(t), acts);
  }

  /** A link's cursor is its node's served count, plus the window just read off it. */
  lemma CursorPosition(t: Topology, s: State, i: nat)
    requires t.Valid() && Inv(t, s) && i < |s.link|
    ensures var y := s.rx[t.links[i].dst];
      && s.tx[t.links[i].src].earliest <= s.link[i].cursor <= |s.tx[t.links[i].src].hist|
      && (!(y.server.SRead? || y.server.SAdvance?) ==> s.link[i].cursor == y.served)
      && y.served <= s.link[i].cursor
      && (!s.link[i].ready ==> y.served == 0)
  {
    var d := t.links[i].dst;
    var y := s.rx[d];
    assert RxOk(t, s.tx, y, s.link, d) && LinkOk(t, s.tx, s.link, i);
    var j :| 0 <= j < |t.Incoming(d)| && t.Incoming(d)[j] == i;
    assert CursorOk(t, s.link, y, d, j);
    ColumnLength(t, y.log, d, j);
    assert Column(y.log, j) <= s.tx[t.Source(d, j)].hist;
    if y.server.SRead? || y.server.SAdvance? {
      assert Ready(t, s.tx, d, j, y.served, y.server.serve);
    }
  }

  /** Between serves all of a node's cursors agree; every cursor lies in its ring in
      every reachable state; the gap counter and the vanished-window error stay at zero. */
  lemma AlignedAndLossless(t: Topology, s: State)
    requires t.Valid() && Reachable(t, s)
    ensures s.gaps == 0 && s.vanished == 0
    ensures forall d :: 0 <= d < |s.rx| ==> !s.rx[d].server.SStopped?
    ensures forall i :: 0 <= i < |s.link| ==>
              s.tx[t.links[i].src].earliest <= s.link[i].cursor <= |s.tx[t.links[i].src].hist|
    ensures forall i, i' ::
              (0 <= i < |s.link| && 0 <= i' < |s.link| && t.links[i].dst == t.links[i'].dst &&
               s.rx[t.links[i].dst].server.SWait?) ==> s.link[i].cursor == s.link[i'].cursor
  {
    ReachableInv(t, s);
    forall i | 0 <= i < |s.link| {
      CursorPosition(t, s, i);
    }
    forall d | 0 <= d < |s.rx| ensures !s.rx[d].server.SStopped? {
      assert RxOk(t, s.tx, s.rx[d], s.link, d);
    }
  }

  /** First-serve co-initialisation always finds sequence 0. */
  lemma CoInitAtZero(t: Topology, s: State, d: nat)
    requires t.Valid() && Reachable(t, s) && Enabled(t, s, CoInit(d))
    ensures Next(t, s, CoInit(d)).link[t.Incoming(d)[s.rx[d].server.link]] == LinkState(0, true)
  {
    ReachableInv(t, s);
    var k := s.rx[d].server.link;
    assert RxOk(t, s.tx, s.rx[d], s.link, d);
    assert CursorOk(t, s.link, s.rx[d], d, k);
    assert LinkOk(t, s.tx, s.link, t.Incoming(d)[k]);
  }

  /** Whatever the interleaving, the windows handed to an edge, put end to end, are the
      first `served` samples its source's radio transmitted; every serve hands each edge
      a window of the same positive length, at most the batch. */
  lemma WindowsAreThePrefix(t: Topology, s: State, d: nat, j: nat)
    requires t.Valid() && Reachable(t, s) && d < |t.batch| && j < |t.Incoming(d)|
    ensures s.rx[d].served <= |s.tx[t.Source(d, j)].sent|
    ensures Column(s.rx[d].log, j) == s.tx[t.Source(d, j)].sent[..s.rx[d].served]
    ensures forall n :: 0 <= n < |s.rx[d].log| ==> ServeOk(t, s.rx[d].log[n], d)
  {
    ReachableInv(t, s);
    var y := s.rx[d];
    assert RxOk(t, s.tx, y, s.link, d) && TxOk(t, s.tx[t.Source(d, j)], s.link, t.Source(d, j));
    ColumnLength(t, y.log, d, j);
    assert Column(y.log, j) <= s.tx[t.Source(d, j)].hist;
  }

  /** Edges of one node that share a source are handed identical windows, serve by serve. */
  lemma {:induction false} SharedSourceSharedWindow(t: Topology, log: seq<Serve>, d: nat, j: nat, j': nat, n: nat)
    requires t.Valid() && d < |t.batch| && j < |t.Incoming(d)| && j' < |t.Incoming(d)| && n < |log|
    requires forall m :: 0 <= m < |log| ==> ServeOk(t, log[m], d)
    requires Column(log, j) == Column(log, j')
    ensures ServeOk(t, log[n], d) && log[n].inputs[j] == log[n].inputs[j']
  {
    var last := log[|log| - 1];
    assert ServeOk(t, last, d) && ServeOk(t, log[n], d);
    var rest := log[..|log| - 1];
    ColumnLength(t, rest, d, j);
    ColumnLength(t, rest, d, j');
    assert Column(log, j) == Column(rest, j) + last.inputs[j];
    assert Column(log, j') == Column(rest, j') + last.inputs[j'];
    assert Column(rest, j) == Column(log, j)[..TotalServed(rest)] == Column(log, j')[..TotalServed(rest)] == Column(rest, j');
    assert last.inputs[j] == Column(log, j)[TotalServed(rest)..] == last.inputs[j'];
    if n < |rest| {
      SharedSourceSharedWindow(t, rest, d, j, j', n);
    }
  }

  /** Nothing the radio sent is lost or reordered on its way into the ring. */
  lemma NothingDropped(t: Topology, s: State, d: nat)
    requires t.Valid() && Reachable(t, s) && d < |t.batch|
    ensures var x := s.tx[d]; x.sent == x.hist + x.pending + Payload(x.flight)
  {
    ReachableInv(t, s);
    assert TxOk(t, s.tx[d], s.link, d);
  }

  /** Along an edge, the destination is never served more than the source's lock-step
      radio has consumed plus its head start. */
  lemma BoundedSkew(t: Topology, s: State, i: nat)
    requires t.Valid() && Reachable(t, s) && i < |t.links| && t.radio[t.links[i].src].LockStep?
    ensures s.rx[t.links[i].dst].served <= s.rx[t.links[i].src].consumed + t.radio[t.links[i].src].offset
    ensures s.rx[t.links[i].src].consumed <= s.rx[t.links[i].src].served
  {
    ReachableInv(t, s);
    var src, dst := t.links[i].src, t.links[i].dst;
    var j :| 0 <= j < |t.Incoming(dst)| && t.Incoming(dst)[j] == i;
    WindowsAreThePrefix(t, s, dst, j);
    assert BudgetOk(t, s.tx[src], s.rx[src], src) && RxOk(t, s.tx, s.rx[src], s.link, src);
  }

  /** No radio sends more than one batch at a time. */
  predicate SmallPayloads(t: Topology)
    requires t.Valid()
  {
    forall d :: 0 <= d < |t.batch| ==> (if t.radio[d].Free? then t.radio[d].maxPayload else t.radio[d].chunk) <= t.batch[d]
  }

  ghost predicate PendingFits(t: Topology, s: State) {
    s.overflows == 0 && forall d :: 0 <= d < |s.tx| ==> |s.tx[d].pending| <= s.tx[d].Free(t.queue)
  }

  lemma StepKeepsFit(t: Topology, s: State, a: Action)
    requires t.Valid() && SmallPayloads(t) && Inv(t, s) && PendingFits(t, s) && Enabled(t, s, a)
    ensures PendingFits(t, Next(t, s, a))
  {
    assert TxOk(t, s.tx[a.d], s.link, a.d);
    hide TxOk, RxOk;
  }

  lemma {:induction false} RunKeepsFit(t: Topology, s: State, acts: seq<Action>)
    requires t.Valid() && SmallPayloads(t) && Inv(t, s) && PendingFits(t, s) && CanRun(t, s, acts)
    ensures PendingFits(t, Run(t, s, acts))
    decreases |acts|
  {
    if acts != [] {
      StepKeepsInv(t, s, acts[0]);
      StepKeepsFit(t, s, acts[0]);
      RunKeepsFit(t, Next(t, s, acts[0]), acts[1..]);
    }
  }

  /** With payloads of at most a batch the overflow counter never moves. */
  lemma NeverOverflows(t: Topology, s: State)
    requires t.Valid() && SmallPayloads(t) && Reachable(t, s)
    ensures s.overflows == 0
  {
    var acts :| CanRun(t, Init(t), acts) && s == Run(t, Init(t), acts);
    InitInv(t);
    RunKeepsFit(t, Init(t), acts);
  }
}

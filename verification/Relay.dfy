/**
 The relay protocol of src/broker.cpp: one puller and one server thread per device,
 a bounded ring per device, one cursor per link.

 A step is one mutex section or one atomic access.  The puller's cursor scan is the
 exception that matters: it holds its own ring's mutex, but cursors are advanced
 outside that mutex, so the scan is one step per link and other threads run between
 two of its loads.  Accesses are sequentially consistent and counters do not wrap.
 */
module Relay {
  import opened Wrappers
  import opened Iq
  import opened Ring

  /** The radio at the far end of a device's sockets: one that sends payloads of up to
      `maxPayload` samples whenever asked, or the lock-step radio of
      tests/test_broker.cpp, which withholds each chunk until its budget allows it. */
  datatype Radio = Free(maxPayload: nat) | LockStep(chunk: nat, offset: nat)

  datatype Link = Link(src: nat, dst: nat)

  /** `fixedBatch` selects the variant that serves full batches only; the broker
      serves whatever common window is ready. */
  datatype Topology = Topology(batch: seq<nat>, links: seq<Link>, queue: nat, radio: seq<Radio>, fixedBatch: bool)
  {
    predicate Valid() {
      && |radio| == |batch|
      && (forall i :: 0 <= i < |links| ==> links[i].src < |batch| && links[i].dst < |batch|)
      && (forall d :: 0 <= d < |batch| ==> 1 <= batch[d] && 2 * batch[d] <= queue)
    }

    /** The links ending at device `d`, in configuration order, among the first `k`. */
    function IncomingUpTo(d: nat, k: nat): (r: seq<nat>)
      requires k <= |links|
      ensures forall j :: 0 <= j < |r| ==> r[j] < k && links[r[j]].dst == d
      ensures forall j, j' :: 0 <= j < j' < |r| ==> r[j] < r[j']
      ensures forall i :: 0 <= i < k && links[i].dst == d ==> i in r
    {
      if k == 0 then [] else IncomingUpTo(d, k - 1) + if links[k - 1].dst == d then [k - 1] else []
    }

    function Incoming(d: nat): (r: seq<nat>)
      ensures forall j :: 0 <= j < |r| ==> r[j] < |links| && links[r[j]].dst == d
      ensures forall j, j' :: 0 <= j < j' < |r| ==> r[j] < r[j']
      ensures forall i :: 0 <= i < |links| && links[i].dst == d ==> i in r
    {
      IncomingUpTo(d, |links|)
    }

    /** Source device of the j-th edge into `d`. */
    function Source(d: nat, j: nat): (s: nat)
      requires Valid() && j < |Incoming(d)|
      ensures s < |batch|
    {
      links[Incoming(d)[j]].src
    }

    /** The smallest common window worth serving. */
    function Need(d: nat): nat
      requires d < |batch|
    {
      if fixedBatch then batch[d] else 1
    }
  }

  function Payload(o: Option<seq<Sample>>): seq<Sample> {
    if o.Some? then o.value else []
  }

  /** Where a puller is.  In `PScan` it holds its ring's mutex. */
  datatype Puller =
    | PTop
    | PScan(link: nat, minCursor: nat, consumer: bool, outgoing: bool)
    | PDecide(room: int)
    | PRecv
    | PStopped

  /** Where a server is; `link` counts the incoming edges already handled. */
  datatype Server =
    | SWait
    | SInit(link: nat)
    | SScan(link: nat, common: int)
    | SRead(link: nat, serve: nat)
    | SAdvance(link: nat, serve: nat)
    | SReply(serve: nat)
    | SStopped

  /** A device's transmit side: ring, puller, and the request/reply exchange with the
      radio.  `hist` is everything ever pushed (the ring holds `hist[earliest..]`) and
      `sent` everything the radio ever transmitted. */
  datatype Tx = Tx(hist: seq<Sample>, earliest: nat, puller: Puller, pending: seq<Sample>, counted: bool,
                   outstanding: bool, atRadio: bool, flight: Option<seq<Sample>>, sent: seq<Sample>)
  {
    function Free(queue: nat): int { queue - (|hist| - earliest) }
  }

  /** One answered request: the window length and the window handed to each edge. */
  datatype Serve = Serve(count: nat, inputs: seq<seq<Sample>>)

  /** A device's receive side.  `log` lists the serves so far, `cur` the windows read
      for the serve under way, `served` the samples of all serves. */
  datatype Rx = Rx(server: Server, epoch: bool, served: nat, log: seq<Serve>, cur: seq<seq<Sample>>,
                   request: bool, reply: Option<nat>, awaiting: bool, consumed: nat)

  datatype LinkState = LinkState(cursor: nat, ready: bool)

  datatype State = State(tx: seq<Tx>, rx: seq<Rx>, link: seq<LinkState>, gaps: nat, overflows: nat, vanished: nat)

  predicate Shape(t: Topology, s: State) {
    |s.tx| == |t.batch| && |s.rx| == |t.batch| && |s.link| == |t.links|
  }

  function Init(t: Topology): (s: State)
    ensures Shape(t, s)
  {
    State(
      seq(|t.batch|, _ => Tx([], 0, PTop, [], false, false, false, None, [])),
      seq(|t.batch|, _ => Rx(SWait, false, 0, [], [], false, None, false, 0)),
      seq(|t.links|, _ => LinkState(0, false)),
      0, 0, 0)
  }

  datatype Action =
    | LockRing(d: nat)                            // puller: enter the mutex section
    | ScanLink(d: nat)                            // puller: load one link's flag and cursor
    | Discard(d: nat)                             // puller: release consumed samples, note the room, leave
    | Land(d: nat)                                // puller: push the held payload
    | NoRoom(d: nat)
    | Ask(d: nat)                                 // puller: request outstanding from here on
    | PullTimeout(d: nat)
    | Take(d: nat)                                // puller: receive the reply
    | Accept(d: nat)                              // server: receive a request
    | CoInit(d: nat)                              // server: initialise one edge's cursor
    | EpochSet(d: nat)
    | ScanEdge(d: nat)                            // server: size one edge's available window
    | Decide(d: nat)
    | ReadEdge(d: nat)                            // server: copy one edge's window
    | AdvanceCursor(d: nat)                       // server: the fetch_add after the copy
    | Process(d: nat)
    | SendReply(d: nat)
    | Transmit(d: nat, payload: seq<Sample>)      // radio: answer the pull
    | Request(d: nat)                             // radio: ask for samples
    | Consume(d: nat)                             // radio: take the reply

  predicate Unlocked(s: State, d: nat)
    requires d < |s.tx|
  {
    !s.tx[d].puller.PScan?
  }

  predicate GateOpen(r: Radio, sent: nat, consumed: nat, payload: nat) {
    match r
    case Free(m) => payload <= m
    case LockStep(chunk, offset) => payload == chunk && sent + chunk <= consumed + offset
  }

  predicate Enabled(t: Topology, s: State, a: Action)
    requires t.Valid() && Shape(t, s)
  {
    a.d < |t.batch| &&
    var x := s.tx[a.d];
    var y := s.rx[a.d];
    var inc := t.Incoming(a.d);
    match a
    case LockRing(_) => x.puller.PTop?
    case ScanLink(_) => x.puller.PScan? && x.puller.link < |t.links|
    case Discard(_) => x.puller.PScan? && x.puller.link == |t.links|
    case Land(_) => x.puller.PDecide? && x.pending != []
    case NoRoom(d) => x.puller.PDecide? && x.pending == [] && x.puller.room < t.batch[d]
    case Ask(d) => x.puller.PDecide? && x.pending == [] && x.puller.room >= t.batch[d]
    case PullTimeout(d) => x.puller.PRecv? ||
                           (x.puller.PDecide? && x.pending == [] && x.puller.room >= t.batch[d] && !x.outstanding)
    case Take(_) => x.puller.PRecv? && x.flight.Some?
    case Accept(_) => y.server.SWait? && y.request
    case CoInit(d) => y.server.SInit? && y.server.link < |inc| && Unlocked(s, t.Source(d, y.server.link))
    case EpochSet(_) => y.server.SInit? && y.server.link == |inc|
    case ScanEdge(d) => y.server.SScan? && y.server.link < |inc| && Unlocked(s, t.Source(d, y.server.link))
    case Decide(_) => y.server.SScan? && y.server.link == |inc|
    case ReadEdge(d) => y.server.SRead? && y.server.link < |inc| && Unlocked(s, t.Source(d, y.server.link))
    case AdvanceCursor(_) => y.server.SAdvance? && y.server.link < |inc|
    case Process(_) => y.server.SRead? && y.server.link == |inc|
    case SendReply(_) => y.server.SReply?
    case Transmit(d, p) => x.atRadio && x.flight.None? && GateOpen(t.radio[d], |x.sent|, y.consumed, |p|)
    case Request(_) => !y.awaiting
    case Consume(_) => y.reply.Some?
  }

  /** The puller's loop body over one link (src/broker.cpp:344-355). */
  function ScanStep(t: Topology, s: State, d: nat): Puller
    requires t.Valid() && Shape(t, s) && Enabled(t, s, ScanLink(d))
  {
    var x := s.tx[d];
    var PScan(i, m, consumer, outgoing) := x.puller;
    if t.links[i].src != d then PScan(i + 1, m, consumer, outgoing)
    else if !s.link[i].ready then PScan(i + 1, x.earliest, consumer, true)
    else PScan(i + 1, if s.link[i].cursor < m then s.link[i].cursor else m, true, true)
  }

  /** What the puller releases once every link was seen (src/broker.cpp:356-360). */
  function Released(x: Tx): nat
    requires x.puller.PScan?
  {
    if !x.puller.outgoing then Discarded(x.earliest, |x.hist|, |x.hist|)
    else if x.puller.consumer then Discarded(x.earliest, |x.hist|, x.puller.minCursor)
    else x.earliest
  }

  function PullerStep(t: Topology, s: State, a: Action): (x': Tx)
    requires t.Valid() && Shape(t, s) && Enabled(t, s, a)
  {
    var x := s.tx[a.d];
    match a
    case LockRing(_) => x.(puller := PScan(0, |x.hist|, false, false))
    case ScanLink(d) => x.(puller := ScanStep(t, s, d))
    case Discard(_) => var e := Released(x); x.(earliest := e, puller := PDecide(t.queue - (|x.hist| - e)))
    case Land(_) => if |x.pending| <= x.Free(t.queue)
                    then x.(hist := x.hist + x.pending, pending := [], counted := false, puller := PTop)
                    else x.(counted := true, puller := PTop)
    case NoRoom(_) => x.(puller := PTop)
    case Ask(_) => if x.outstanding then x.(puller := PRecv) else x.(puller := PRecv, outstanding := true, atRadio := true)
    case PullTimeout(_) => x.(puller := PTop)
    case Take(d) => if |x.flight.value| > t.queue && |x.flight.value| > t.batch[d] then x.(puller := PStopped)
                    else x.(pending := x.flight.value, flight := None, outstanding := false, puller := PTop)
    case Transmit(_, p) => x.(sent := x.sent + p, flight := Some(p), atRadio := false)
    case _ => x
  }

  /** First state after the epoch is known: with no edges a full batch of silence is due. */
  function StartScan(t: Topology, d: nat): Server
    requires d < |t.batch|
  {
    if |t.Incoming(d)| == 0 then SRead(0, t.batch[d]) else SScan(0, t.batch[d])
  }

  /** The window of `ring` that starts at `cursor`, when the ring still holds all of it. */
  predicate Readable(x: Tx, cursor: nat, serve: nat) {
    serve == 0 || (x.earliest <= cursor && cursor + serve <= |x.hist|)
  }

  function ServerStep(t: Topology, s: State, a: Action): (y': Rx)
    requires t.Valid() && Shape(t, s) && Enabled(t, s, a)
  {
    var y := s.rx[a.d];
    var inc := t.Incoming(a.d);
    match a
    case Accept(d) => y.(request := false, server := if y.epoch then StartScan(t, d) else SInit(0))
    case CoInit(_) => y.(server := SInit(y.server.link + 1))
    case EpochSet(d) => y.(epoch := true, server := StartScan(t, d))
    case ScanEdge(d) =>
      var src := s.tx[t.Source(d, y.server.link)];
      var cursor := s.link[inc[y.server.link]].cursor;
      var avail := |src.hist| - if cursor < src.earliest then src.earliest else cursor;
      y.(server := SScan(y.server.link + 1, if avail < y.server.common then avail else y.server.common))
    case Decide(d) =>
      if y.server.common >= t.Need(d) && y.server.common > 0 then y.(server := SRead(0, y.server.common))
      else y.(server := SScan(0, t.batch[d]))
    case ReadEdge(d) =>
      var src := s.tx[t.Source(d, y.server.link)];
      var cursor := s.link[inc[y.server.link]].cursor;
      if !Readable(src, cursor, y.server.serve) then y.(server := SStopped)
      else y.(cur := y.cur + [if y.server.serve == 0 then [] else src.hist[cursor..cursor + y.server.serve]],
              server := SAdvance(y.server.link, y.server.serve))
    case AdvanceCursor(_) => y.(server := SRead(y.server.link + 1, y.server.serve))
    case Process(_) => y.(log := y.log + [Serve(y.server.serve, y.cur)], cur := [],
                          served := y.served + y.server.serve, server := SReply(y.server.serve))
    case SendReply(_) => y.(reply := Some(y.server.serve), server := SWait)
    case Request(_) => y.(awaiting := true, request := true)
    case Consume(_) => y.(consumed := y.consumed + y.reply.value, reply := None, awaiting := false)
    case _ => y
  }

  function LinksStep(t: Topology, s: State, a: Action): (l: seq<LinkState>)
    requires t.Valid() && Shape(t, s) && Enabled(t, s, a)
    ensures |l| == |s.link|
  {
    var y := s.rx[a.d];
    var inc := t.Incoming(a.d);
    match a
    case CoInit(d) =>
      s.link[inc[y.server.link] := LinkState(s.tx[t.Source(d, y.server.link)].earliest, true)]
    case ScanEdge(d) =>
      var i := inc[y.server.link];
      var e := s.tx[t.Source(d, y.server.link)].earliest;
      if s.link[i].cursor < e then s.link[i := s.link[i].(cursor := e)] else s.link
    case AdvanceCursor(_) =>
      var i := inc[y.server.link];
      s.link[i := s.link[i].(cursor := s.link[i].cursor + y.server.serve)]
    case _ => s.link
  }

  /** The scan found a cursor older than anything its ring still holds. */
  predicate Behind(t: Topology, s: State, d: nat)
    requires t.Valid() && Shape(t, s) && Enabled(t, s, ScanEdge(d))
  {
    var k := s.rx[d].server.link;
    s.link[t.Incoming(d)[k]].cursor < s.tx[t.Source(d, k)].earliest
  }

  function Next(t: Topology, s: State, a: Action): (s': State)
    requires t.Valid() && Shape(t, s) && Enabled(t, s, a)
    ensures Shape(t, s')
  {
    var d := a.d;
    var x := s.tx[d];
    var y := s.rx[d];
    State(
      s.tx[d := PullerStep(t, s, a)],
      s.rx[d := ServerStep(t, s, a)],
      LinksStep(t, s, a),
      s.gaps + if a.ScanEdge? && Behind(t, s, d) then 1 else 0,
      s.overflows + if a.Land? && |x.pending| > x.Free(t.queue) && !x.counted then 1 else 0,
      s.vanished + if a.ReadEdge? && ServerStep(t, s, a).server.SStopped? then 1 else 0)
  }

  /** `acts` can be executed one after the other from `s`. */
  predicate CanRun(t: Topology, s: State, acts: seq<Action>)
    requires t.Valid() && Shape(t, s)
    decreases |acts|
  {
    acts == [] ||
    (Enabled(t, s, acts[0]) && CanRun(t, Next(t, s, acts[0]), acts[1..]))
  }

  function Run(t: Topology, s: State, acts: seq<Action>): (s': State)
    requires t.Valid() && Shape(t, s) && CanRun(t, s, acts)
    ensures Shape(t, s')
    decreases |acts|
  {
    if acts == [] then s else Run(t, Next(t, s, acts[0]), acts[1..])
  }

  /** Every sample the j-th edge was handed over all serves, in order. */
  function Column(log: seq<Serve>, j: nat): seq<Sample> {
    if log == [] then []
    else
      var last := log[|log| - 1];
      Column(log[..|log| - 1], j) + if j < |last.inputs| then last.inputs[j] else []
  }

  function TotalServed(log: seq<Serve>): nat {
    if log == [] then 0 else TotalServed(log[..|log| - 1]) + log[|log| - 1].count
  }
}

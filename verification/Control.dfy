/**
 The control server's message handling (src/control_server.cpp:199-935): what each message
 does to the links' shadows, to the open batches and to the counters.
 */
module Control {
  import opened Wrappers
  import opened Json
  import opened RuntimeControl

  // ---- Parameters -----------------------------------------------------------------------------

  datatype ParamSpec = ParamSpec(name: string, min: real, max: real, isInt: bool)

  const PARAM_SPECS: seq<ParamSpec> := [
    ParamSpec("path_loss_db", -200.0, 50.0, false),
    ParamSpec("awgn_snr_db", -30.0, 120.0, false),
    ParamSpec("los_k_db", -30.0, 40.0, false),
    ParamSpec("cfo_hz", -50000.0, 50000.0, false),
    ParamSpec("tap0_delay_samples", 0.0, 1023.0, false),
    ParamSpec("tap0_gain_db", -100.0, 20.0, false),
    ParamSpec("tap0_phase_rad", -3.1415926535897932, 3.1415926535897932, false)
  ]

  function FindFrom(name: string, k: nat): (r: Option<ParamSpec>)
    requires k <= |PARAM_SPECS|
    ensures r.Some? ==> r.value in PARAM_SPECS && r.value.name == name
    decreases |PARAM_SPECS| - k
  {
    if k == |PARAM_SPECS| then None
    else if PARAM_SPECS[k].name == name then Some(PARAM_SPECS[k])
    else FindFrom(name, k + 1)
  }

  function FindParam(name: string): (r: Option<ParamSpec>)
    ensures r.Some? ==> r.value in PARAM_SPECS && r.value.name == name
  {
    FindFrom(name, 0)
  }

  /** The shadow field a parameter names; other names change nothing. */
  function WithParam(m: Mutable, name: string, v: real): Mutable {
    if name == "path_loss_db" then m.(pathLossDb := v)
    else if name == "awgn_snr_db" then m.(awgnSnrDb := v)
    else if name == "los_k_db" then m.(losKDb := v)
    else if name == "cfo_hz" then m.(cfoHz := v)
    else if name == "tap0_delay_samples" then m.(tap0Delay := v)
    else if name == "tap0_gain_db" then m.(tap0GainDb := v)
    else if name == "tap0_phase_rad" then m.(tap0PhaseRad := v)
    else m
  }

  predicate Accepts(spec: ParamSpec, v: real) {
    spec.min <= v <= spec.max && (spec.isInt ==> v == v.Floor as real)
  }

  // ---- What the server holds --------------------------------------------------------------------

  datatype StagedOp =
    | StagedScalar(link: string, param: string, value: real)
    | StagedProfile(link: string, profile: Profile)

  /** A link as the server sees it: what it writes, the slot the link reports, and the
      backend's hints (the ring and the slot length in samples). */
  datatype Link = Link(view: View, now: nat, ring: nat, slotLength: nat)

  type Links = map<string, Link>

  /** Everything a message can read or change.  `cap` bounds the warmup, 0 for no bound;
      `begun` counts the batches opened. */
  datatype Server = Server(
    links: Links, cap: nat, open: map<string, seq<StagedOp>>,
    received: nat, applied: nat, rejected: nat, begun: nat, committed: nat, aborted: nat)

  datatype Reply =
    | Rejected
    | Updated(seqno: nat, applyAt: nat)
    | Swapped(seqno: nat, applyAt: nat, warmupUntil: nat)
    | Staged
    | Begun(id: string)
    | Committed(links: nat, applyAt: nat)
    | Aborted(dropped: nat)

  type Fields = map<string, Value>

  // ---- Reading fields ---------------------------------------------------------------------------

  /** `None` where the code throws. */
  function GetNumber(f: Fields, key: string, default: real): Option<real> {
    if key !in f then Some(default) else if f[key].JNumber? then Some(f[key].n) else None
  }

  function GetBool(f: Fields, key: string, default: bool): Option<bool> {
    if key !in f then Some(default) else if f[key].JBool? then Some(f[key].b) else None
  }

  function GetString(f: Fields, key: string, default: string): Option<string> {
    if key !in f then Some(default) else if f[key].JString? then Some(f[key].s) else None
  }

  /** The slot to take effect at, or nothing if the field is not a number or negative. */
  function GetGate(f: Fields): (gate: Option<nat>) {
    match GetNumber(f, "take_effect_at_slot", 0.0)
    case None => None
    case Some(t) => if t < 0.0 then None else Some(t.Floor)
  }

  datatype Target = Direct | Bad | Batch(id: string)

  function GetTarget(s: Server, f: Fields): Target {
    if "batch_id" !in f then Direct
    else if !f["batch_id"].JString? || f["batch_id"].s == "" || f["batch_id"].s !in s.open then Bad
    else Batch(f["batch_id"].s)
  }

  // ---- What an operation does to a link ---------------------------------------------------------

  function OpView(c: View, op: StagedOp, gate: nat): View {
    match op
    case StagedScalar(_, param, value) =>
      c.(shadow := WithParam(c.shadow, param, value), gate := gate, seqno := c.seqno + 1)
    case StagedProfile(_, profile) => c.(profile := profile, pending := true, gate := gate, seqno := c.seqno + 1)
  }

  function OpLink(l: Link, op: StagedOp, gate: nat): Link {
    l.(view := OpView(l.view, op, gate))
  }

  function Later(a: nat, b: nat): nat {
    if a > b then a else b
  }

  function Reject(s: Server): (Server, Reply) {
    (s.(rejected := s.rejected + 1), Rejected)
  }

  /** A validated operation: staged if the message names a batch, otherwise carried out. */
  function Deliver(s: Server, f: Fields, op: StagedOp, gate: nat): (Server, Reply)
    requires op.link in s.links
  {
    match GetTarget(s, f)
    case Bad => Reject(s)
    case Batch(id) => (s.(open := s.open[id := s.open[id] + [op]], applied := s.applied + 1), Staged)
    case Direct =>
      var l := OpLink(s.links[op.link], op, gate);
      var c, at := l.view, Later(l.view.gate, l.now);
      (s.(links := s.links[op.link := l], applied := s.applied + 1),
       if op.StagedScalar? then Updated(c.seqno, at) else Swapped(c.seqno, at, at + 1))
  }

  // ---- Scalar updates -------------------------------------------------------------------------------

  /** The operation a scalar message asks for, if every check up to the gate passes. */
  function ScalarOp(s: Server, f: Fields): (r: Option<StagedOp>)
    ensures r.Some? ==> r.value.StagedScalar? && r.value.link in s.links
  {
    if "link_id" !in f || "param" !in f || "value" !in f then None
    else if !f["link_id"].JString? || !f["param"].JString? || !f["value"].JNumber? then None
    else
      var link, param, value := f["link_id"].s, f["param"].s, f["value"].n;
      if link !in s.links then None
      else match FindParam(param)
           case None => None
           case Some(spec) => if Accepts(spec, value) then Some(StagedScalar(link, param, value)) else None
  }

  function Scalar(s: Server, f: Fields): (Server, Reply) {
    match ScalarOp(s, f)
    case None => Reject(s)
    case Some(op) =>
      match GetGate(f)
      case None => Reject(s)
      case Some(gate) => Deliver(s, f, op, gate)
  }

  // ---- Profile swaps ------------------------------------------------------------------------------------

  function TapOf(v: Value): Option<TapSpec> {
    if !v.JObject? then None
    else
      var t := v.fields;
      match (GetNumber(t, "delay_samples", 0.0), GetNumber(t, "gain_db", 0.0), GetNumber(t, "phase_rad", 0.0))
      case (Some(delay), Some(gain), Some(phase)) => (
        match (GetBool(t, "is_los", false), GetNumber(t, "los_k_db", 0.0), GetNumber(t, "los_angle_rad", 0.0))
        case (Some(los), Some(k), Some(angle)) =>
          if delay < 0.0 || delay > 1023.0 || gain < -100.0 || gain > 20.0 then None
          else Some(TapSpec(delay, gain, phase, los, k, angle))
        case _ => None)
      case _ => None
  }

  function TapsOf(vs: seq<Value>): (r: Option<seq<TapSpec>>)
    ensures r.Some? ==> |r.value| == |vs|
  {
    if vs == [] then Some([])
    else
      match TapsOf(vs[..|vs| - 1])
      case None => None
      case Some(rest) =>
        match TapOf(vs[|vs| - 1])
        case None => None
        case Some(t) => Some(rest + [t])
  }

  function FadingOf(f: Fields): Option<Fading> {
    if "fading" !in f then Some(NO_PROFILE.fading)
    else if !f["fading"].JObject? then None
    else
      var g := f["fading"].fields;
      match (GetBool(g, "enabled", false), GetNumber(g, "f_d_max_hz", 0.0), GetNumber(g, "grid_us", 100.0))
      case (Some(on), Some(doppler), Some(grid)) =>
        if GetString(g, "spectrum", "jakes") == Some("jakes") then Some(Fading(on, doppler, grid)) else None
      case _ => None
  }

  /** The swap would leave the link warming up for longer than allowed. */
  predicate TooLong(s: Server, link: string) {
    && s.cap > 0 && link in s.links && s.links[link].ring > 0 && s.links[link].slotLength > 0
    && WarmupSlots(s.links[link].ring, s.links[link].slotLength) > s.cap
  }

  function ProfileOp(s: Server, f: Fields): (r: Option<StagedOp>)
    ensures r.Some? ==> r.value.StagedProfile? && r.value.link in s.links
  {
    if "link_id" !in f || !f["link_id"].JString? || f["link_id"].s !in s.links || TooLong(s, f["link_id"].s) then None
    else if "taps" !in f || !f["taps"].JArray? || f["taps"].items == [] || |f["taps"].items| > MAX_TAPS then None
    else match TapsOf(f["taps"].items)
         case None => None
         case Some(taps) =>
           match FadingOf(f)
           case None => None
           case Some(fading) =>
             match GetBool(f, "force", false)
             case None => None
             case Some(force) => Some(StagedProfile(f["link_id"].s, Profile(taps, fading, force)))
  }

  function Swap(s: Server, f: Fields): (Server, Reply) {
    match ProfileOp(s, f)
    case None => Reject(s)
    case Some(op) =>
      match GetGate(f)
      case None => Reject(s)
      case Some(gate) => Deliver(s, f, op, gate)
  }

  // ---- Batches ----------------------------------------------------------------------------------------------

  function Begin(s: Server, f: Fields): (Server, Reply) {
    if "id" !in f || !f["id"].JString? || f["id"].s == "" || f["id"].s in s.open then Reject(s)
    else (s.(open := s.open[f["id"].s := []], begun := s.begun + 1), Begun(f["id"].s))
  }

  /** One staged operation at commit.  A vanished link and an unknown parameter are skipped,
      the latter after its gate has been written. */
  function CommitOp(links: Links, op: StagedOp, gate: nat): (r: (Links, nat)) {
    if op.link !in links then (links, 0)
    else if op.StagedScalar? && FindParam(op.param).None? then
      (links[op.link := links[op.link].(view := links[op.link].view.(gate := gate))], 0)
    else (links[op.link := OpLink(links[op.link], op, gate)], 1)
  }

  function CommitOps(links: Links, ops: seq<StagedOp>, gate: nat): (r: (Links, nat)) {
    if ops == [] then (links, 0)
    else
      var (before, n) := CommitOps(links, ops[..|ops| - 1], gate);
      var (after, m) := CommitOp(before, ops[|ops| - 1], gate);
      (after, n + m)
  }

  function Commit(s: Server, f: Fields): (Server, Reply) {
    if "id" !in f || !f["id"].JString? || f["id"].s !in s.open then Reject(s)
    else
      var id := f["id"].s;
      match GetGate(f)
      case None => Reject(s)
      case Some(gate) =>
        var (links, n) := CommitOps(s.links, s.open[id], gate);
        (s.(links := links, open := s.open - {id}, committed := s.committed + 1), Committed(n, gate))
  }

  function Abort(s: Server, f: Fields): (Server, Reply) {
    if "id" !in f || !f["id"].JString? || f["id"].s !in s.open then Reject(s)
    else
      var id := f["id"].s;
      (s.(open := s.open - {id}, aborted := s.aborted + 1), Aborted(|s.open[id]|))
  }

  // ---- One message ---------------------------------------------------------------------------------------------

  function Dispatch(s: Server, f: Fields): (Server, Reply) {
    match GetString(f, "type", "scalar")
    case None => Reject(s)
    case Some(t) =>
      if t == "scalar" then Scalar(s, f)
      else if t == "profile_swap" then Swap(s, f)
      else if t == "batch_begin" then Begin(s, f)
      else if t == "batch_commit" then Commit(s, f)
      else if t == "batch_abort" then Abort(s, f)
      else Reject(s)
  }

  function Handle(stod: Conversion, s: Server, body: string): (Server, Reply) {
    var s1 := s.(received := s.received + 1);
    match ReadObject(stod, body, 0)
    case Err(_) => Reject(s1)
    case Ok(f, _) => Dispatch(s1, f)
  }
}

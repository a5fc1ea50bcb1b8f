/**
 One link of the CPU backend (src/cpu_backend.cpp): what its chain means at a slot, and
 the in-place execution of a slot.
 */
module CpuLinks {
  import opened Iq
  import opened Phase
  import opened Chain
  import opened RuntimeControl
  import Tdl

  // ---- What a configured chain means at a slot ----------------------------------------------

  /** Configured steps; noise and fading are not modelled. */
  datatype ModelStep =
    | PathLossStep(lossDb: real)
    | TurnStep(phaseRad: real, cfoHz: real)
    | TdlStep(taps: seq<TapSpec>)

  /** The numeric functions the channel is built on: `linear(x)` is 10^(x/20) and `sinc`
      gives a filter's eight coefficients for a fractional delay. */
  datatype Physics = Physics(tr: Trig, linear: real -> real, sinc: real -> seq<real>)
  {
    ghost predicate Valid() {
      tr.turn > 0.0 && forall f :: |sinc(f)| == Tdl.FILTER
    }

    function TapOf(s: TapSpec): Tdl.Tap {
      Tdl.Tap(s.delay, linear(s.gainDb), tr.rot(s.phaseRad))
    }

    function TapsOf(specs: seq<TapSpec>): (taps: seq<Tdl.Tap>)
      ensures |taps| == |specs| && forall k :: 0 <= k < |taps| ==> taps[k] == TapOf(specs[k])
    {
      seq(|specs|, k requires 0 <= k < |specs| => TapOf(specs[k]))
    }

    function TdlOf(specs: seq<TapSpec>): (step: Step)
      ensures step == Taps(TapsOf(specs), Tdl.Polyphase(TapsOf(specs), sinc))
    {
      Taps(TapsOf(specs), Tdl.Polyphase(TapsOf(specs), sinc))
    }

    function Increment(cfoHz: real, rate: nat): real {
      if rate == 0 then 0.0 else tr.turn * cfoHz / rate as real
    }
  }

  /** The first tap as the live scalars have it. */
  function Override(taps: seq<TapSpec>, live: Mutable): (t: seq<TapSpec>)
    ensures |t| == |taps|
  {
    if taps == [] then []
    else
      var t0 := taps[0].(delay := live.tap0Delay, gainDb := live.tap0GainDb, phaseRad := live.tap0PhaseRad);
      [if t0.isLos then t0.(losKDb := live.losKDb) else t0] + taps[1..]
  }

  function Effective(taps: seq<TapSpec>, v: LinkVars): seq<TapSpec> {
    if v.active then v.profile.taps else Override(taps, v.live)
  }

  function Resolve(ph: Physics, rate: nat, step: ModelStep, v: LinkVars): Step {
    match step
    case PathLossStep(_) => PathLoss(ph.linear(-v.live.pathLossDb))
    case TurnStep(phaseRad, _) => Turn(phaseRad, ph.Increment(v.live.cfoHz, rate))
    case TdlStep(taps) => ph.TdlOf(Effective(taps, v))
  }

  function ResolveAll(ph: Physics, rate: nat, chain: seq<ModelStep>, v: LinkVars): (c: seq<Step>)
    ensures |c| == |chain| && forall k :: 0 <= k < |chain| ==> c[k] == Resolve(ph, rate, chain[k], v)
  {
    seq(|chain|, k requires 0 <= k < |chain| => Resolve(ph, rate, chain[k], v))
  }

  predicate DelaysFit(taps: seq<TapSpec>) {
    forall k :: 0 <= k < |taps| ==> taps[k].delay >= 0.0
  }

  predicate SaneChain(chain: seq<ModelStep>) {
    forall k :: 0 <= k < |chain| ==> chain[k].TdlStep? ==> DelaysFit(chain[k].taps)
  }

  predicate SaneVars(v: LinkVars) {
    v.live.tap0Delay >= 0.0 && DelaysFit(v.profile.taps)
  }

  predicate SaneView(c: View) {
    c.shadow.tap0Delay >= 0.0 && DelaysFit(c.profile.taps)
  }

  lemma ResolvedShaped(ph: Physics, rate: nat, chain: seq<ModelStep>, v: LinkVars)
    requires ph.Valid() && SaneChain(chain) && SaneVars(v)
    ensures ShapedChain(ResolveAll(ph, rate, chain, v))
  {
    forall k | 0 <= k < |chain| ensures Resolve(ph, rate, chain[k], v).Shaped() {
      if chain[k].TdlStep? {
        var e := Effective(chain[k].taps, v);
        assert DelaysFit(e);
        assert forall j :: 0 <= j < |e| ==> ph.TapsOf(e)[j].delay == e[j].delay;
      }
    }
  }

  /** Whether the chain starts with a tdl, and where its first one is (its length if none). */
  predicate Leads(chain: seq<ModelStep>) {
    chain != [] && chain[0].TdlStep?
  }

  /** Only a leading tdl: the live scalars then leave other steps' taps as configured. */
  predicate OnlyLeads(chain: seq<ModelStep>) {
    forall k :: 0 < k < |chain| ==> !chain[k].TdlStep?
  }

  function FirstTdl(chain: seq<ModelStep>): (k: nat)
    ensures k <= |chain| && (k < |chain| ==> chain[k].TdlStep?) && forall j :: 0 <= j < k ==> !chain[j].TdlStep?
  {
    if chain == [] || chain[0].TdlStep? then 0 else 1 + FirstTdl(chain[1..])
  }

  function RingOf(chain: seq<ModelStep>, sts: seq<StepState>): nat
    requires |sts| == |chain|
  {
    if FirstTdl(chain) < |chain| then |sts[FirstTdl(chain)].line| else 0
  }

  function ClearRing(chain: seq<ModelStep>, sts: seq<StepState>): (s: seq<StepState>)
    requires |sts| == |chain|
    ensures |s| == |sts|
  {
    var k := FirstTdl(chain);
    if k < |chain| then sts[k := sts[k].(line := Zeros(|sts[k].line|))] else sts
  }

  /** A link between slots. */
  datatype LinkValue = LinkValue(vars: LinkVars, sts: seq<StepState>)

  /** What a slot starts from: parameters taken over, the ring cleared if a profile arrives. */
  function Begun(chain: seq<ModelStep>, l: LinkValue, c: View, count: nat): (l': LinkValue)
    requires |l.sts| == |chain|
    ensures |l'.sts| == |chain|
  {
    LinkValue(
      SlotBegin(l.vars, c, Leads(chain), RingOf(chain, l.sts), count),
      if Activates(l.vars, c, Leads(chain)) then ClearRing(chain, l.sts) else l.sts)
  }

  /** The last path loss and the last offset of the chain, and its leading tdl's first tap. */
  function YamlParams(chain: seq<ModelStep>): Mutable {
    var scan := Scanned(chain);
    if Leads(chain) && chain[0].taps != [] then
      var t := chain[0].taps[0];
      scan.(tap0Delay := t.delay, tap0GainDb := t.gainDb, tap0PhaseRad := t.phaseRad, losKDb := t.losKDb)
    else scan
  }

  function Scanned(chain: seq<ModelStep>): (m: Mutable)
    ensures m.tap0Delay == 0.0
  {
    if chain == [] then DEFAULTS
    else
      var m := Scanned(chain[..|chain| - 1]);
      match chain[|chain| - 1]
      case PathLossStep(lossDb) => m.(pathLossDb := lossDb)
      case TurnStep(_, cfoHz) => m.(cfoHz := cfoHz)
      case TdlStep(_) => m
  }

  /** The variables of a link nobody has written to. */
  function Untouched(live: Mutable): LinkVars {
    LinkVars(live, 0, 0, NO_PROFILE, false, 0)
  }

  /** The chain as a freshly prepared link runs it. */
  function LinkChain(ph: Physics, rate: nat, chain: seq<ModelStep>): (c: seq<Step>)
    ensures |c| == |chain| && forall k :: 0 <= k < |chain| ==> c[k] == Resolve(ph, rate, chain[k], Untouched(YamlParams(chain)))
  {
    ResolveAll(ph, rate, chain, Untouched(YamlParams(chain)))
  }

  /** The chain under the parameters a state is created with, before any are scanned. */
  function BareChain(ph: Physics, rate: nat, chain: seq<ModelStep>): (c: seq<Step>)
    ensures |c| == |chain| && forall k :: 0 <= k < |chain| ==> c[k] == Resolve(ph, rate, chain[k], Untouched(DEFAULTS))
  {
    ResolveAll(ph, rate, chain, Untouched(DEFAULTS))
  }

  /** A freshly prepared link's leading tdl runs with its own taps from the first slot on. */
  lemma FreshUsesOwnTaps(ph: Physics, rate: nat, chain: seq<ModelStep>, v: LinkVars)
    requires Leads(chain) && !v.active && v.live == YamlParams(chain)
    ensures Resolve(ph, rate, chain[0], v) == ph.TdlOf(chain[0].taps)
  {
    var taps := chain[0].taps;
    assert Override(taps, v.live) == taps;
  }

  /** A step's state as prepared from its own configuration. */
  function FreshStepState(ph: Physics, step: ModelStep): StepState {
    StepState(if step.TdlStep? then Zeros(Tdl.RingSize(ph.TapsOf(step.taps))) else [], 0.0)
  }

  function FreshLink(ph: Physics, chain: seq<ModelStep>): (l: LinkValue)
    ensures |l.sts| == |chain|
  {
    LinkValue(
      Untouched(YamlParams(chain)),
      seq(|chain|, k requires 0 <= k < |chain| => FreshStepState(ph, chain[k])))
  }

  lemma YamlSane(chain: seq<ModelStep>)
    requires SaneChain(chain)
    ensures YamlParams(chain).tap0Delay >= 0.0
  {
    if Leads(chain) && chain[0].taps != [] {
      assert DelaysFit(chain[0].taps);
    }
  }

  // ---- One slot of a link ---------------------------------------------------------------------

  ghost predicate SaneLink(ph: Physics, chain: seq<ModelStep>, l: LinkValue, c: View) {
    ph.Valid() && SaneChain(chain) && SaneVars(l.vars) && SaneView(c) && |l.sts| == |chain|
  }

  lemma BegunSane(ph: Physics, chain: seq<ModelStep>, l: LinkValue, c: View, count: nat)
    requires SaneLink(ph, chain, l, c)
    ensures SaneLink(ph, chain, Begun(chain, l, c, count), c)
  {
  }

  /** The edge a slot runs: its chain resolved from the parameters the slot starts with. */
  ghost function EdgeNow(ph: Physics, rate: nat, chain: seq<ModelStep>, l: LinkValue, c: View, count: nat): (e: Edge)
    requires SaneLink(ph, chain, l, c)
    ensures e.Shaped() && |e.chain| == |chain|
  {
    var l' := Begun(chain, l, c, count);
    BegunSane(ph, chain, l, c, count);
    ResolvedShaped(ph, rate, chain, l'.vars);
    Edge(ResolveAll(ph, rate, chain, l'.vars), l'.sts)
  }

  /** The link after a slot of `x`. */
  ghost function LinkAfter(ph: Physics, rate: nat, chain: seq<ModelStep>, l: LinkValue, c: View, x: seq<Sample>): (l': LinkValue)
    requires SaneLink(ph, chain, l, c)
    ensures SaneLink(ph, chain, l', c)
  {
    var e := EdgeNow(ph, rate, chain, l, c, |x|);
    BegunSane(ph, chain, l, c, |x|);
    LinkValue(Begun(chain, l, c, |x|).vars, ChainNext(ph.tr, e.chain, e.sts, x))
  }

  /** Nothing written that the link has not taken over. */
  predicate Quiet(l: LinkValue, c: View) {
    c.seqno == l.vars.liveSeqno
  }

  lemma SameChain(ph: Physics, rate: nat, chain: seq<ModelStep>, v: LinkVars, v': LinkVars)
    requires v.live == v'.live && v.profile == v'.profile && v.active == v'.active
    ensures ResolveAll(ph, rate, chain, v) == ResolveAll(ph, rate, chain, v')
  {
    forall k | 0 <= k < |chain| ensures Resolve(ph, rate, chain[k], v) == Resolve(ph, rate, chain[k], v') {
    }
  }

  lemma QuietBegun(chain: seq<ModelStep>, l: LinkValue, c: View, n: nat)
    requires |l.sts| == |chain| && Quiet(l, c)
    ensures var b := Begun(chain, l, c, n);
      b.sts == l.sts && b.vars.live == l.vars.live && b.vars.profile == l.vars.profile &&
      b.vars.active == l.vars.active && b.vars.liveSeqno == l.vars.liveSeqno
  {
  }

  /** With no writes outstanding a slot only advances the states of an unchanging chain. */
  lemma QuietSlot(ph: Physics, rate: nat, chain: seq<ModelStep>, l: LinkValue, c: View, x: seq<Sample>, n: nat)
    requires SaneLink(ph, chain, l, c) && Quiet(l, c)
    ensures var e := EdgeNow(ph, rate, chain, l, c, |x|);
      var l' := LinkAfter(ph, rate, chain, l, c, x);
      Quiet(l', c) && EdgeNow(ph, rate, chain, l', c, n) == Edge(e.chain, ChainNext(ph.tr, e.chain, e.sts, x))
  {
    var l' := LinkAfter(ph, rate, chain, l, c, x);
    hide Begun, ResolveAll, ChainNext;
    QuietBegun(chain, l, c, |x|);
    QuietBegun(chain, l', c, n);
    SameChain(ph, rate, chain, Begun(chain, l, c, |x|).vars, Begun(chain, l', c, n).vars);
  }
}

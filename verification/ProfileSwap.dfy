/** Swapping a link's tap profile at run time against preparing the link with it. */
module ProfileSwap {
  import opened Iq
  import opened Phase
  import opened Chain
  import opened RuntimeControl
  import opened CpuLinks
  import Tdl
  import TdlStream
  import TdlRing
  import TdlResponse

  // ---- A link over many slots, with no further control writes ---------------------------------

  ghost function LinkOver(ph: Physics, rate: nat, chain: seq<ModelStep>, l: LinkValue, c: View, slots: seq<seq<Sample>>): (l': LinkValue)
    requires SaneLink(ph, chain, l, c)
    ensures SaneLink(ph, chain, l', c)
  {
    if slots == [] then l
    else LinkAfter(ph, rate, chain, LinkOver(ph, rate, chain, l, c, slots[..|slots| - 1]), c, slots[|slots| - 1])
  }

  /** Everything the link sends over `slots`. */
  ghost function LinkSends(ph: Physics, rate: nat, chain: seq<ModelStep>, l: LinkValue, c: View, slots: seq<seq<Sample>>): seq<Sample>
    requires SaneLink(ph, chain, l, c)
  {
    if slots == [] then []
    else
      var rest, last := slots[..|slots| - 1], slots[|slots| - 1];
      var e := EdgeNow(ph, rate, chain, LinkOver(ph, rate, chain, l, c, rest), c, |last|);
      LinkSends(ph, rate, chain, l, c, rest) + ChainOut(ph.tr, e.chain, e.sts, last)
  }

  // ---- The two links -----------------------------------------------------------------------------

  /** A slot at which a link with a leading tdl, and no other, takes a profile over. */
  ghost predicate SwapSlot(ph: Physics, chain: seq<ModelStep>, l: LinkValue, c: View) {
    && SaneLink(ph, chain, l, c) && Leads(chain) && OnlyLeads(chain) && Activates(l.vars, c, true)
  }

  /** The same chain configured with the profile's taps. */
  function Configured(chain: seq<ModelStep>, c: View): seq<ModelStep>
    requires Leads(chain)
  {
    chain[0 := TdlStep(c.profile.taps)]
  }

  /** A link newly prepared with those taps; the steps behind the tdl carry on. */
  function NewLink(ph: Physics, chain: seq<ModelStep>, l: LinkValue, c: View): LinkValue
    requires Leads(chain) && |l.sts| == |chain|
  {
    var start := FreshStepState(ph, TdlStep(c.profile.taps));
    var live := if c.profile.taps == [] then c.shadow
                else
                  var t := c.profile.taps[0];
                  c.shadow.(tap0Delay := t.delay, tap0GainDb := t.gainDb, tap0PhaseRad := t.phaseRad, losKDb := t.losKDb);
    LinkValue(LinkVars(live, c.seqno, 0, NO_PROFILE, false, 0), l.sts[0 := start])
  }

  function NewTdl(ph: Physics, c: View): Step {
    ph.TdlOf(c.profile.taps)
  }

  lemma NewSane(ph: Physics, chain: seq<ModelStep>, l: LinkValue, c: View)
    requires SwapSlot(ph, chain, l, c)
    ensures SaneLink(ph, Configured(chain, c), NewLink(ph, chain, l, c), c)
  {
  }

  // ---- Edges over many slots -----------------------------------------------------------------------

  function EdgeOver(tr: Trig, e: Edge, slots: seq<seq<Sample>>): (e': Edge)
    requires e.Shaped() && tr.turn > 0.0
    ensures e'.Shaped() && e'.chain == e.chain
  {
    if slots == [] then e
    else
      var e' := EdgeOver(tr, e, slots[..|slots| - 1]);
      Edge(e'.chain, ChainNext(tr, e'.chain, e'.sts, slots[|slots| - 1]))
  }

  function EdgeSends(tr: Trig, e: Edge, slots: seq<seq<Sample>>): seq<Sample>
    requires e.Shaped() && tr.turn > 0.0
  {
    if slots == [] then []
    else
      var e' := EdgeOver(tr, e, slots[..|slots| - 1]);
      EdgeSends(tr, e, slots[..|slots| - 1]) + ChainOut(tr, e'.chain, e'.sts, slots[|slots| - 1])
  }

  /** From its first slot on, a link whose control is quiet runs the edge that slot starts with. */
  lemma {:induction false} QuietOver(ph: Physics, rate: nat, chain: seq<ModelStep>, l: LinkValue, c: View, slots: seq<seq<Sample>>, n: nat)
    requires SaneLink(ph, chain, l, c) && slots != [] && n == |slots[0]|
    requires Takes(l.vars, c) || Quiet(l, c)
    ensures var e := EdgeNow(ph, rate, chain, l, c, n);
      var l' := LinkOver(ph, rate, chain, l, c, slots);
      Quiet(l', c) && (forall m :: EdgeNow(ph, rate, chain, l', c, m) == EdgeOver(ph.tr, e, slots)) &&
      LinkSends(ph, rate, chain, l, c, slots) == EdgeSends(ph.tr, e, slots)
    decreases |slots|
  {
    var rest, last := slots[..|slots| - 1], slots[|slots| - 1];
    var before := LinkOver(ph, rate, chain, l, c, rest);
    var e := EdgeNow(ph, rate, chain, l, c, n);
    if rest == [] {
      FirstSlot(ph, rate, chain, l, c, last);
      assert slots == [last];
      OneSlot(ph, rate, chain, l, c, last);
    } else {
      QuietOver(ph, rate, chain, l, c, rest, n);
      hide EdgeNow, LinkAfter, SaneLink;
      forall m ensures EdgeNow(ph, rate, chain, LinkOver(ph, rate, chain, l, c, slots), c, m) == EdgeOver(ph.tr, e, slots) {
        QuietSlot(ph, rate, chain, before, c, last, m);
      }
      QuietSlot(ph, rate, chain, before, c, last, 0);
    }
  }

  lemma OneSlot(ph: Physics, rate: nat, chain: seq<ModelStep>, l: LinkValue, c: View, x: seq<Sample>)
    requires SaneLink(ph, chain, l, c)
    ensures var e := EdgeNow(ph, rate, chain, l, c, |x|);
      LinkOver(ph, rate, chain, l, c, [x]) == LinkAfter(ph, rate, chain, l, c, x) &&
      LinkSends(ph, rate, chain, l, c, [x]) == ChainOut(ph.tr, e.chain, e.sts, x) &&
      EdgeOver(ph.tr, e, [x]) == Edge(e.chain, ChainNext(ph.tr, e.chain, e.sts, x)) &&
      EdgeSends(ph.tr, e, [x]) == ChainOut(ph.tr, e.chain, e.sts, x)
  {
    assert ph.tr.turn > 0.0;
    hide EdgeNow, LinkAfter, SaneLink, ChainOut, ChainNext;
    var e := EdgeNow(ph, rate, chain, l, c, |x|);
    assert [x][..0] == [];
    assert LinkOver(ph, rate, chain, l, c, []) == l && LinkSends(ph, rate, chain, l, c, []) == [];
    assert EdgeOver(ph.tr, e, []) == e && EdgeSends(ph.tr, e, []) == [];
  }

  /** After a slot that takes the shadow over, nothing is outstanding. */
  lemma FirstSlot(ph: Physics, rate: nat, chain: seq<ModelStep>, l: LinkValue, c: View, x: seq<Sample>)
    requires SaneLink(ph, chain, l, c) && (Takes(l.vars, c) || Quiet(l, c))
    ensures var e := EdgeNow(ph, rate, chain, l, c, |x|);
      var l' := LinkAfter(ph, rate, chain, l, c, x);
      Quiet(l', c) && forall m :: EdgeNow(ph, rate, chain, l', c, m) == Edge(e.chain, ChainNext(ph.tr, e.chain, e.sts, x))
  {
    var l' := LinkAfter(ph, rate, chain, l, c, x);
    var b := Begun(chain, l, c, |x|);
    assert b.vars.liveSeqno == c.seqno;
    forall m ensures EdgeNow(ph, rate, chain, l', c, m) ==
                     Edge(EdgeNow(ph, rate, chain, l, c, |x|).chain,
                          ChainNext(ph.tr, EdgeNow(ph, rate, chain, l, c, |x|).chain, EdgeNow(ph, rate, chain, l, c, |x|).sts, x))
    {
      AfterTaken(ph, rate, chain, l, c, x, m);
    }
  }

  lemma AfterTaken(ph: Physics, rate: nat, chain: seq<ModelStep>, l: LinkValue, c: View, x: seq<Sample>, m: nat)
    requires SaneLink(ph, chain, l, c) && Begun(chain, l, c, |x|).vars.liveSeqno == c.seqno
    ensures var e := EdgeNow(ph, rate, chain, l, c, |x|);
      EdgeNow(ph, rate, chain, LinkAfter(ph, rate, chain, l, c, x), c, m) == Edge(e.chain, ChainNext(ph.tr, e.chain, e.sts, x))
  {
    var l' := LinkAfter(ph, rate, chain, l, c, x);
    hide Begun, ResolveAll, ChainNext;
    QuietBegun(chain, l', c, m);
    SameChain(ph, rate, chain, Begun(chain, l, c, |x|).vars, Begun(chain, l', c, m).vars);
  }

  // ---- Rings of different sizes behind the same tdl -------------------------------------------------

  /** Two edges that differ at most in the size of their leading ring, both having heard `x`. */
  ghost predicate SameButRing(e: Edge, e': Edge, x: seq<Sample>) {
    && e.Shaped() && e'.Shaped() && e.chain == e'.chain != [] && e.chain[0].Taps?
    && e.sts[1..] == e'.sts[1..]
    && e.sts[0].line == TdlStream.Tail(x, |e.sts[0].line|) && e'.sts[0].line == TdlStream.Tail(x, |e'.sts[0].line|)
    && TdlRing.DiesOut(e.chain[0].taps, e.chain[0].poly, |e.sts[0].line|)
    && TdlRing.DiesOut(e.chain[0].taps, e.chain[0].poly, |e'.sts[0].line|)
  }

  lemma RingSlot(tr: Trig, e: Edge, e': Edge, x: seq<Sample>, input: seq<Sample>)
    requires SameButRing(e, e', x) && tr.turn > 0.0
    ensures ChainOut(tr, e.chain, e.sts, input) == ChainOut(tr, e'.chain, e'.sts, input)
    ensures SameButRing(Edge(e.chain, ChainNext(tr, e.chain, e.sts, input)),
                        Edge(e'.chain, ChainNext(tr, e'.chain, e'.sts, input)), x + input)
  {
    var taps, poly := e.chain[0].taps, e.chain[0].poly;
    TdlRing.DeepSlot(taps, poly, x, input, |e.sts[0].line|);
    TdlRing.DeepSlot(taps, poly, x, input, |e'.sts[0].line|);
    TdlStream.RollIsTail(x, input, |e.sts[0].line|);
    TdlStream.RollIsTail(x, input, |e'.sts[0].line|);
    hide TdlRing.DiesOut, TdlStream.Tail, Tdl.SlotOut, Tdl.Roll, Tdl.Whole, Tdl.Shaped;
    assert StepOut(tr, e.chain[0], e.sts[0], input) == StepOut(tr, e'.chain[0], e'.sts[0], input);
  }

  lemma {:induction false} RingsOver(tr: Trig, e: Edge, e': Edge, slots: seq<seq<Sample>>)
    requires SameButRing(e, e', []) && tr.turn > 0.0
    ensures SameButRing(EdgeOver(tr, e, slots), EdgeOver(tr, e', slots), Flatten(slots))
    ensures EdgeSends(tr, e, slots) == EdgeSends(tr, e', slots)
  {
    if slots != [] {
      var rest, last := slots[..|slots| - 1], slots[|slots| - 1];
      RingsOver(tr, e, e', rest);
      assert e.Shaped() && e'.Shaped();
      hide SameButRing, ChainOut, ChainNext, Edge.Shaped;
      RingSlot(tr, EdgeOver(tr, e, rest), EdgeOver(tr, e', rest), Flatten(rest), last);
    }
  }

  // ---- The swap ---------------------------------------------------------------------------------------

  lemma SwappedEdge(ph: Physics, rate: nat, chain: seq<ModelStep>, l: LinkValue, c: View, n: nat)
    requires SwapSlot(ph, chain, l, c)
    ensures var e := EdgeNow(ph, rate, chain, l, c, n);
      e.chain[0] == NewTdl(ph, c) && e.sts == l.sts[0 := l.sts[0].(line := Zeros(|l.sts[0].line|))] &&
      forall k :: 0 < k < |chain| ==>
        e.chain[k] == Resolve(ph, rate, chain[k], LinkVars(c.shadow, 0, 0, NO_PROFILE, false, 0))
  {
    assert FirstTdl(chain) == 0;
  }

  lemma NewEdge(ph: Physics, rate: nat, chain: seq<ModelStep>, l: LinkValue, c: View, n: nat)
    requires SwapSlot(ph, chain, l, c)
    ensures SaneLink(ph, Configured(chain, c), NewLink(ph, chain, l, c), c)
    ensures var e := EdgeNow(ph, rate, Configured(chain, c), NewLink(ph, chain, l, c), c, n);
      e.chain[0] == NewTdl(ph, c) && e.sts == NewLink(ph, chain, l, c).sts &&
      forall k :: 0 < k < |chain| ==>
        e.chain[k] == Resolve(ph, rate, chain[k], LinkVars(c.shadow, 0, 0, NO_PROFILE, false, 0))
  {
    NewSane(ph, chain, l, c);
    var l' := NewLink(ph, chain, l, c);
    QuietBegun(Configured(chain, c), l', c, n);
    assert Override(c.profile.taps, l'.vars.live) == c.profile.taps;
  }

  lemma SwapEdges(ph: Physics, rate: nat, chain: seq<ModelStep>, l: LinkValue, c: View, n: nat)
    requires SwapSlot(ph, chain, l, c)
    requires TdlRing.DiesOut(NewTdl(ph, c).taps, NewTdl(ph, c).poly, |l.sts[0].line|)
    ensures SaneLink(ph, Configured(chain, c), NewLink(ph, chain, l, c), c)
    ensures SameButRing(EdgeNow(ph, rate, chain, l, c, n),
                        EdgeNow(ph, rate, Configured(chain, c), NewLink(ph, chain, l, c), c, n), [])
  {
    var taps, poly := NewTdl(ph, c).taps, NewTdl(ph, c).poly;
    SwappedEdge(ph, rate, chain, l, c, n);
    NewEdge(ph, rate, chain, l, c, n);
    var e, e' := EdgeNow(ph, rate, chain, l, c, n), EdgeNow(ph, rate, Configured(chain, c), NewLink(ph, chain, l, c), c, n);
    assert e.chain == e'.chain;
    TdlRing.CoveredDiesOut(taps, poly, Tdl.RingSize(taps));
    assert forall r: nat :: Zeros(r) == TdlStream.Tail([], r);
  }

  /** From the slot that takes a profile over, for every later input, the link sends exactly what
      a link newly prepared with the profile's taps sends, as long as its old ring is as deep
      as the new response. */
  lemma SwapIsFreshLink(ph: Physics, rate: nat, chain: seq<ModelStep>, l: LinkValue, c: View, slots: seq<seq<Sample>>)
    requires SwapSlot(ph, chain, l, c)
    requires TdlRing.DiesOut(NewTdl(ph, c).taps, NewTdl(ph, c).poly, |l.sts[0].line|)
    ensures SaneLink(ph, Configured(chain, c), NewLink(ph, chain, l, c), c)
    ensures LinkSends(ph, rate, chain, l, c, slots) ==
            LinkSends(ph, rate, Configured(chain, c), NewLink(ph, chain, l, c), c, slots)
  {
    NewSane(ph, chain, l, c);
    if slots != [] {
      var n := |slots[0]|;
      var chain', l' := Configured(chain, c), NewLink(ph, chain, l, c);
      SwapEdges(ph, rate, chain, l, c, n);
      RingsOver(ph.tr, EdgeNow(ph, rate, chain, l, c, n), EdgeNow(ph, rate, chain', l', c, n), slots);
      QuietOver(ph, rate, chain, l, c, slots, n);
      QuietOver(ph, rate, chain', l', c, slots, n);
    }
  }

  // ---- ... and exactly when it is not ------------------------------------------------------------------

  lemma {:induction false} TdlOnly(tr: Trig, e: Edge, slots: seq<seq<Sample>>)
    requires e.Shaped() && |e.chain| == 1 && e.chain[0].Taps? && tr.turn > 0.0
    ensures EdgeOver(tr, e, slots).sts[0].line == TdlStream.StreamLine(e.sts[0].line, slots)
    ensures EdgeSends(tr, e, slots) == TdlStream.StreamOut(e.chain[0].taps, e.chain[0].poly, e.sts[0].line, slots)
  {
    if slots != [] {
      var rest, last := slots[..|slots| - 1], slots[|slots| - 1];
      TdlOnly(tr, e, rest);
      var e' := EdgeOver(tr, e, rest);
      hide Tdl.SlotOut, Tdl.Roll, Tdl.Shaped;
      assert e'.chain[1..] == [] && e'.sts[1..] == [];
      assert ChainOut(tr, e'.chain, e'.sts, last) == StepOut(tr, e'.chain[0], e'.sts[0], last);
    }
  }

  ghost predicate SwapIsFresh(ph: Physics, rate: nat, chain: seq<ModelStep>, l: LinkValue, c: View)
    requires SwapSlot(ph, chain, l, c)
  {
    NewSane(ph, chain, l, c);
    forall slots :: LinkSends(ph, rate, chain, l, c, slots) ==
                    LinkSends(ph, rate, Configured(chain, c), NewLink(ph, chain, l, c), c, slots)
  }

  lemma TdlOnlySends(ph: Physics, rate: nat, chain: seq<ModelStep>, l: LinkValue, c: View, slots: seq<seq<Sample>>)
    requires SwapSlot(ph, chain, l, c) && |chain| == 1 && slots != []
    ensures SaneLink(ph, Configured(chain, c), NewLink(ph, chain, l, c), c)
    ensures var taps, poly := NewTdl(ph, c).taps, NewTdl(ph, c).poly;
      Tdl.Shaped(taps, poly) &&
      LinkSends(ph, rate, chain, l, c, slots) == TdlStream.StreamOut(taps, poly, Zeros(|l.sts[0].line|), slots) &&
      LinkSends(ph, rate, Configured(chain, c), NewLink(ph, chain, l, c), c, slots) ==
        TdlStream.StreamOut(taps, poly, Zeros(Tdl.RingSize(taps)), slots)
  {
    var n := |slots[0]|;
    var chain', l' := Configured(chain, c), NewLink(ph, chain, l, c);
    SwappedEdge(ph, rate, chain, l, c, n);
    NewEdge(ph, rate, chain, l, c, n);
    var e, e' := EdgeNow(ph, rate, chain, l, c, n), EdgeNow(ph, rate, chain', l', c, n);
    assert e.chain[0].Shaped();
    hide EdgeNow, LinkSends, LinkOver, EdgeSends, EdgeOver, TdlStream.StreamOut, Tdl.Shaped, SwapSlot;
    TdlOnly(ph.tr, e, slots);
    TdlOnly(ph.tr, e', slots);
    QuietOver(ph, rate, chain, l, c, slots, n);
    QuietOver(ph, rate, chain', l', c, slots, n);
  }

  lemma ShortRingShows(ph: Physics, rate: nat, chain: seq<ModelStep>, l: LinkValue, c: View)
    requires SwapSlot(ph, chain, l, c) && |chain| == 1
    requires !TdlRing.DiesOut(NewTdl(ph, c).taps, NewTdl(ph, c).poly, |l.sts[0].line|)
    ensures !SwapIsFresh(ph, rate, chain, l, c)
  {
    var taps, poly, r := NewTdl(ph, c).taps, NewTdl(ph, c).poly, |l.sts[0].line|;
    var deep := Tdl.RingSize(taps);
    TdlRing.CoveredDiesOut(taps, poly, deep);
    var m :| m > r && TdlResponse.Response(taps, poly, m) != ZERO;
    TdlRing.ShallowRingLoses(taps, poly, r, deep, m);
    var slots := [TdlResponse.Impulse(0, m), [ZERO]];
    TdlOnlySends(ph, rate, chain, l, c, slots);
  }

  /** On a link that is nothing but its tdl, the swap is a fresh link for every stream precisely
      when the new response dies out within the old ring: a runtime delay the ring was not
      prepared for is cut off. */
  lemma SwapExactly(ph: Physics, rate: nat, chain: seq<ModelStep>, l: LinkValue, c: View)
    requires SwapSlot(ph, chain, l, c) && |chain| == 1
    ensures SwapIsFresh(ph, rate, chain, l, c) <==>
            TdlRing.DiesOut(NewTdl(ph, c).taps, NewTdl(ph, c).poly, |l.sts[0].line|)
  {
    if TdlRing.DiesOut(NewTdl(ph, c).taps, NewTdl(ph, c).poly, |l.sts[0].line|) {
      NewSane(ph, chain, l, c);
      forall slots ensures LinkSends(ph, rate, chain, l, c, slots) ==
                           LinkSends(ph, rate, Configured(chain, c), NewLink(ph, chain, l, c), c, slots)
      {
        SwapIsFreshLink(ph, rate, chain, l, c, slots);
      }
    } else {
      ShortRingShows(ph, rate, chain, l, c);
    }
  }

  /** The control protocol never withdraws a profile: once one is pending, every later write
      that a slot takes over clears the ring again. */
  lemma EveryLaterWriteClears(ph: Physics, chain: seq<ModelStep>, l: LinkValue, c: View, c': View, n: nat)
    requires SwapSlot(ph, chain, l, c) && |l.sts| == |chain|
    requires c'.pending == c.pending && c'.profile == c.profile && c'.seqno > c.seqno && c'.gate <= l.vars.nextSlot + 1
    ensures var l' := Begun(chain, l, c, n);
      Activates(l'.vars, c', true) && Begun(chain, l', c', n).sts[0].line == Zeros(|l.sts[0].line|)
  {
    assert FirstTdl(chain) == 0;
  }

  // ---- The warmup window --------------------------------------------------------------------------------

  lemma WarmupSpan(ring: nat, count: nat)
    requires count > 0
    ensures ring <= WarmupSlots(ring, count) * count < ring + count
  {
    var q := (ring + count - 1) / count;
    assert q * count <= ring + count - 1 < q * count + count by {
      DivRange(ring + count - 1, count);
    }
  }

  lemma DivRange(a: nat, b: nat)
    requires b > 0
    ensures (a / b) * b <= a < (a / b) * b + b
  {
    assert a == (a / b) * b + a % b;
  }

  lemma TailForgets(h: seq<Sample>, x: seq<Sample>, r: nat)
    requires |x| >= r
    ensures TdlStream.Tail(h + x, r) == TdlStream.Tail(x, r)
  {
    forall j | 0 <= j < r ensures TdlStream.Tail(h + x, r)[j] == TdlStream.Tail(x, r)[j] {
      assert At(h + x, |h + x| - r + j) == At(x, |x| - r + j);
    }
  }

  lemma {:induction false} EvenSlots(slots: seq<seq<Sample>>, count: nat)
    requires forall k :: 0 <= k < |slots| ==> |slots[k]| == count
    ensures |Flatten(slots)| == |slots| * count
  {
    if slots != [] {
      EvenSlots(slots[..|slots| - 1], count);
    }
  }

  /** Once the warmup window has passed, clearing the ring has left no trace: every later slot is
      the new taps' convolution over everything the link ever heard, swap or no swap. */
  lemma WarmupIsEnough(taps: seq<Tdl.Tap>, poly: seq<seq<real>>, history: seq<Sample>, slots: seq<seq<Sample>>,
                       count: nat, r: nat, input: seq<Sample>)
    requires Tdl.Shaped(taps, poly) && TdlRing.DiesOut(taps, poly, r) && count > 0
    requires |slots| >= WarmupSlots(r, count) && forall k :: 0 <= k < |slots| ==> |slots[k]| == count
    ensures var x := history + Flatten(slots);
      Tdl.SlotOut(taps, poly, TdlStream.StreamLine(Zeros(r), slots), input) == Tdl.Whole(taps, poly, x + input)[|x|..]
  {
    EvenSlots(slots, count);
    WarmupSpan(r, count);
    assert |slots| * count >= WarmupSlots(r, count) * count by { Monotone(WarmupSlots(r, count), |slots|, count); }
    TdlStream.RingHoldsTail(slots, r);
    TailForgets(history, Flatten(slots), r);
    TdlRing.DeepSlot(taps, poly, history + Flatten(slots), input, r);
  }

  lemma Monotone(a: nat, b: nat, c: nat)
    requires a <= b
    ensures a * c <= b * c
  {
  }
}

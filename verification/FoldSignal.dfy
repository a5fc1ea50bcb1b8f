/** A folded link computes its base channel on the delayed stream. */
module FoldSignal {
  import opened Iq
  import opened Phase
  import opened Chain
  import opened RuntimeControl
  import opened CpuLinks
  import opened Fold
  import opened FoldMeaning
  import Tdl
  import TdlStream
  import TdlResponse

  const IMPULSE: seq<real> := [0.0, 0.0, 0.0, 1.0, 0.0, 0.0, 0.0, 0.0]

  /** No gain, no phase and no fractional delay leave a sample alone. */
  ghost predicate Grounded(ph: Physics) {
    ph.Valid() && ph.linear(0.0) == 1.0 && ph.tr.rot(0.0) == TdlResponse.ONE && ph.sinc(0.0) == IMPULSE
  }

  // ---- A tdl with all taps moved back -----------------------------------------------------------

  lemma {:induction false} ConvShift(f: Tdl.Signal, g: Tdl.Signal, taps: seq<Tdl.Tap>, late: seq<Tdl.Tap>, poly: seq<seq<real>>,
                                     d: nat, n: int, k: nat)
    requires Tdl.Shaped(taps, poly) && Tdl.Shaped(late, poly) && k <= |taps|
    requires forall j :: 0 <= j < |taps| ==>
               late[j].Whole() == taps[j].Whole() + d && late[j].gain == taps[j].gain && late[j].rotation == taps[j].rotation
    requires forall m :: g(m) == f(m - d)
    ensures Tdl.Conv(f, late, poly, n, k) == Tdl.Conv(g, taps, poly, n, k)
  {
    if k > 0 {
      ConvShift(f, g, taps, late, poly, d, n, k - 1);
      TdlStream.FilterAgrees(f, g, poly[k - 1], n - late[k - 1].Whole(), n - taps[k - 1].Whole(), Tdl.FILTER);
      assert Tdl.TapOut(Tdl.Filter(f, poly[k - 1], n - late[k - 1].Whole(), Tdl.FILTER), late[k - 1]) ==
             Tdl.TapOut(Tdl.Filter(g, poly[k - 1], n - taps[k - 1].Whole(), Tdl.FILTER), taps[k - 1]);
    }
  }

  lemma WholeShift(taps: seq<Tdl.Tap>, late: seq<Tdl.Tap>, poly: seq<seq<real>>, d: nat, x: seq<Sample>)
    requires Tdl.Shaped(taps, poly) && Tdl.Shaped(late, poly) && |taps| == |late|
    requires forall j :: 0 <= j < |taps| ==>
               late[j].Whole() == taps[j].Whole() + d && late[j].gain == taps[j].gain && late[j].rotation == taps[j].rotation
    ensures Tdl.Whole(late, poly, x) == Tdl.Whole(taps, poly, Zeros(d) + x)[..|x|]
  {
    forall n | 0 <= n < |x| ensures Tdl.WholeOut(late, poly, x, n) == Tdl.WholeOut(taps, poly, Zeros(d) + x, n) {
      ConvShift(m => At(x, m), m => At(Zeros(d) + x, m), taps, late, poly, d, n, |taps|);
    }
  }

  // ---- A unit tap -----------------------------------------------------------------------------------

  lemma ScaleUnits(v: Sample)
    ensures Scale(v, 1.0) == v && Scale(v, 0.0) == ZERO
    ensures Add(v, ZERO) == v && Add(ZERO, v) == v && Rotate(v, TdlResponse.ONE) == v
  {
  }

  lemma {:induction false} ImpulseFilter(f: Tdl.Signal, h: seq<real>, pos: int, i: nat)
    requires |h| == 8 && i <= 8 && h[3] == 1.0 && forall j :: 0 <= j < 8 && j != 3 ==> h[j] == 0.0
    ensures Tdl.Filter(f, h, pos, i) == if i <= 3 then ZERO else f(pos)
  {
    hide Add, Scale;
    if i > 0 {
      ImpulseFilter(f, h, pos, i - 1);
      ScaleUnits(f(pos + 3 - (i - 1)));
      ScaleUnits(f(pos));
      ScaleUnits(ZERO);
    }
  }

  lemma UnitTapOut(f: Tdl.Signal, taps: seq<Tdl.Tap>, poly: seq<seq<real>>, d: nat, n: int)
    requires taps == [Tdl.Tap(d as real, 1.0, TdlResponse.ONE)] && poly == [IMPULSE] && Tdl.Shaped(taps, poly)
    ensures Tdl.Conv(f, taps, poly, n, |taps|) == f(n - d)
  {
    hide Add, Scale, Rotate;
    ImpulseFilter(f, poly[0], n - d, 8);
    ScaleUnits(f(n - d));
    assert taps[0].Whole() == d;
    assert Tdl.Conv(f, taps, poly, n, 0) == ZERO;
  }

  lemma UnitTapDelays(taps: seq<Tdl.Tap>, poly: seq<seq<real>>, d: nat, x: seq<Sample>)
    requires taps == [Tdl.Tap(d as real, 1.0, TdlResponse.ONE)] && poly == [IMPULSE]
    ensures Tdl.Shaped(taps, poly) && Tdl.Whole(taps, poly, x) == (Zeros(d) + x)[..|x|]
  {
    hide Tdl.Conv;
    forall n | 0 <= n < |x| ensures Tdl.WholeOut(taps, poly, x, n) == (Zeros(d) + x)[n] {
      UnitTapOut(m => At(x, m), taps, poly, d, n);
    }
  }

  // ---- Steps that look at one sample -------------------------------------------------------------

  lemma {:induction false} PrefixChain(tr: Trig, chain: seq<Step>, y: seq<Sample>, n: nat)
    requires ShapedChain(chain) && n <= |y| && forall k :: 0 <= k < |chain| ==> !chain[k].Taps?
    ensures WholeChain(tr, chain, y)[..n] == WholeChain(tr, chain, y[..n])
  {
    if chain != [] {
      PrefixChain(tr, chain[1..], WholeStep(tr, chain[0], y), n);
      assert WholeStep(tr, chain[0], y)[..n] == WholeStep(tr, chain[0], y[..n]);
    }
  }

  // ---- The two ways of folding -----------------------------------------------------------------------

  lemma {:induction false} ScannedTdl(taps: seq<TapSpec>, rest: seq<ModelStep>)
    ensures Scanned([TdlStep(taps)] + rest) == Scanned(rest)
  {
    var chain := [TdlStep(taps)] + rest;
    if rest == [] {
      assert chain[..0] == [];
    } else {
      assert chain[..|chain| - 1] == [TdlStep(taps)] + rest[..|rest| - 1];
      ScannedTdl(taps, rest[..|rest| - 1]);
    }
  }

  /** Steps other than a tdl resolve alike under any first tap. */
  lemma TailMeaning(ph: Physics, rate: nat, chain: seq<ModelStep>, v: LinkVars, v': LinkVars)
    requires v.live.pathLossDb == v'.live.pathLossDb && v.live.cfoHz == v'.live.cfoHz
    requires forall k :: 0 <= k < |chain| ==> !chain[k].TdlStep?
    ensures ResolveAll(ph, rate, chain, v) == ResolveAll(ph, rate, chain, v')
    ensures forall k :: 0 <= k < |chain| ==> !ResolveAll(ph, rate, chain, v)[k].Taps?
    ensures ShapedChain(ResolveAll(ph, rate, chain, v))
  {
  }

  /** What a chain with a leading tdl means: its own taps, then the rest. */
  lemma LeadMeaning(ph: Physics, rate: nat, taps: seq<TapSpec>, rest: seq<ModelStep>, v: LinkVars)
    requires forall k :: 0 <= k < |rest| ==> !rest[k].TdlStep?
    requires v.live.pathLossDb == Scanned(rest).pathLossDb && v.live.cfoHz == Scanned(rest).cfoHz
    ensures LinkChain(ph, rate, [TdlStep(taps)] + rest) == [ph.TdlOf(taps)] + ResolveAll(ph, rate, rest, v)
  {
    var chain := [TdlStep(taps)] + rest;
    ConsMeaning(ph, rate, TdlStep(taps), rest);
    hide Resolve, ResolveAll, Scanned, YamlParams, LinkChain;
    ScannedTdl(taps, rest);
    NoTdlScan(chain);
    FreshUsesOwnTaps(ph, rate, chain, Untouched(YamlParams(chain)));
    TailMeaning(ph, rate, rest, Untouched(YamlParams(chain)), v);
  }

  lemma ConsMeaning(ph: Physics, rate: nat, first: ModelStep, rest: seq<ModelStep>)
    ensures var v := Untouched(YamlParams([first] + rest));
      LinkChain(ph, rate, [first] + rest) == [Resolve(ph, rate, first, v)] + ResolveAll(ph, rate, rest, v)
  {
    hide Resolve, YamlParams;
  }

  lemma {:induction false} NoTdlScan(chain: seq<ModelStep>)
    ensures YamlParams(chain).pathLossDb == Scanned(chain).pathLossDb && YamlParams(chain).cfoHz == Scanned(chain).cfoHz
  {
  }

  lemma MergedMeaning(ph: Physics, rate: nat, taps: seq<TapSpec>, rest: seq<ModelStep>, d: nat, x: seq<Sample>)
    requires Grounded(ph) && DelaysFit(taps) && forall k :: 0 <= k < |rest| ==> !rest[k].TdlStep?
    ensures var base, late := [TdlStep(taps)] + rest, [TdlStep(ShiftTaps(taps, d as real))] + rest;
      ShapedChain(LinkChain(ph, rate, base)) && ShapedChain(LinkChain(ph, rate, late)) &&
      WholeChain(ph.tr, LinkChain(ph, rate, late), x) == WholeChain(ph.tr, LinkChain(ph, rate, base), Zeros(d) + x)[..|x|]
  {
    hide *;
    var v := LinkVars(Scanned(rest), 0, 0, NO_PROFILE, false, 0);
    var shifted := ShiftTaps(taps, d as real);
    LeadMeaning(ph, rate, taps, rest, v);
    LeadMeaning(ph, rate, shifted, rest, v);
    TailMeaning(ph, rate, rest, v, v);
    var t, t' := ph.TapsOf(taps), ph.TapsOf(shifted);
    GroundedValid(ph);
    ShiftedTaps(ph, taps, d);
    WholeShift(t, t', Tdl.Polyphase(t, ph.sinc), d, x);
    TapsWhole(ph.tr, ph.TdlOf(taps), Zeros(d) + x);
    TapsWhole(ph.tr, ph.TdlOf(shifted), x);
    LeadChain(ph.tr, ph.TdlOf(taps), ph.TdlOf(shifted), ResolveAll(ph, rate, rest, v), d, x);
  }

  lemma GroundedValid(ph: Physics)
    requires Grounded(ph)
    ensures ph.Valid()
  {
  }

  lemma ShiftedTaps(ph: Physics, taps: seq<TapSpec>, d: nat)
    requires ph.Valid() && DelaysFit(taps)
    ensures var t, t' := ph.TapsOf(taps), ph.TapsOf(ShiftTaps(taps, d as real));
      Tdl.Polyphase(t, ph.sinc) == Tdl.Polyphase(t', ph.sinc) && Tdl.Shaped(t, Tdl.Polyphase(t, ph.sinc)) &&
      Tdl.Shaped(t', Tdl.Polyphase(t, ph.sinc)) &&
      forall j :: 0 <= j < |t| ==> t'[j].Whole() == t[j].Whole() + d && t'[j].gain == t[j].gain && t'[j].rotation == t[j].rotation
  {
    var t, t' := ph.TapsOf(taps), ph.TapsOf(ShiftTaps(taps, d as real));
    forall j | 0 <= j < |t| ensures t'[j].Whole() == t[j].Whole() + d {
      assert t'[j].delay == t[j].delay + d as real;
    }
    forall j | 0 <= j < |t| ensures t'[j].delay - t'[j].Whole() as real == t[j].delay - t[j].Whole() as real {
    }
  }

  /** A delaying first step delays what the rest of the chain computes. */
  lemma LeadChain(tr: Trig, lead: Step, late: Step, tail: seq<Step>, d: nat, x: seq<Sample>)
    requires lead.Shaped() && late.Shaped() && ShapedChain(tail) && forall k :: 0 <= k < |tail| ==> !tail[k].Taps?
    requires WholeStep(tr, late, x) == WholeStep(tr, lead, Zeros(d) + x)[..|x|]
    ensures ShapedChain([lead] + tail) && ShapedChain([late] + tail)
    ensures WholeChain(tr, [late] + tail, x) == WholeChain(tr, [lead] + tail, Zeros(d) + x)[..|x|]
  {
    assert ([lead] + tail)[1..] == tail && ([late] + tail)[1..] == tail;
    PrefixChain(tr, tail, WholeStep(tr, lead, Zeros(d) + x), |x|);
  }

  lemma PrependedMeaning(ph: Physics, rate: nat, chain: seq<ModelStep>, d: nat, x: seq<Sample>)
    requires Grounded(ph) && forall k :: 0 <= k < |chain| ==> !chain[k].TdlStep?
    ensures var late := [TdlStep([TapSpec(d as real, 0.0, 0.0, false, 0.0, 0.0)])] + chain;
      ShapedChain(LinkChain(ph, rate, chain)) && ShapedChain(LinkChain(ph, rate, late)) &&
      WholeChain(ph.tr, LinkChain(ph, rate, late), x) == WholeChain(ph.tr, LinkChain(ph, rate, chain), Zeros(d) + x)[..|x|]
  {
    hide *;
    var unit := [TapSpec(d as real, 0.0, 0.0, false, 0.0, 0.0)];
    var tail, lead := LinkChain(ph, rate, chain), ph.TdlOf(unit);
    UnitFront(ph, rate, chain, unit);
    UnitSpec(ph, unit, d);
    UnitTapDelays(lead.taps, lead.poly, d, x);
    TapsWhole(ph.tr, lead, x);
    FrontDelay(ph.tr, lead, tail, d, x);
  }

  lemma TapsWhole(tr: Trig, step: Step, x: seq<Sample>)
    requires step.Taps? && Tdl.Shaped(step.taps, step.poly)
    ensures step.Shaped() && WholeStep(tr, step, x) == Tdl.Whole(step.taps, step.poly, x)
  {
  }

  lemma UnitFront(ph: Physics, rate: nat, chain: seq<ModelStep>, unit: seq<TapSpec>)
    requires forall k :: 0 <= k < |chain| ==> !chain[k].TdlStep?
    ensures LinkChain(ph, rate, [TdlStep(unit)] + chain) == [ph.TdlOf(unit)] + LinkChain(ph, rate, chain)
    ensures ShapedChain(LinkChain(ph, rate, chain)) && forall k :: 0 <= k < |chain| ==> !LinkChain(ph, rate, chain)[k].Taps?
    ensures ph.TdlOf(unit).Taps?
  {
    var v := Untouched(YamlParams(chain));
    NoTdlScan(chain);
    TailMeaning(ph, rate, chain, v, v);
    hide Scanned, YamlParams, Resolve;
    LeadMeaning(ph, rate, unit, chain, v);
  }

  lemma FrontDelay(tr: Trig, lead: Step, tail: seq<Step>, d: nat, x: seq<Sample>)
    requires lead.Shaped() && ShapedChain(tail) && forall k :: 0 <= k < |tail| ==> !tail[k].Taps?
    requires WholeStep(tr, lead, x) == (Zeros(d) + x)[..|x|]
    ensures ShapedChain([lead] + tail)
    ensures WholeChain(tr, [lead] + tail, x) == WholeChain(tr, tail, Zeros(d) + x)[..|x|]
  {
    assert ([lead] + tail)[1..] == tail;
    PrefixChain(tr, tail, Zeros(d) + x, |x|);
  }

  lemma UnitSpec(ph: Physics, unit: seq<TapSpec>, d: nat)
    requires Grounded(ph) && unit == [TapSpec(d as real, 0.0, 0.0, false, 0.0, 0.0)]
    ensures ph.TdlOf(unit).taps == [Tdl.Tap(d as real, 1.0, TdlResponse.ONE)] && ph.TdlOf(unit).poly == [IMPULSE]
  {
    assert ph.TapsOf(unit) == [ph.TapOf(unit[0])];
    assert Tdl.Polyphase(ph.TapsOf(unit), ph.sinc) == [ph.sinc(0.0)];
  }

  /** Delaying a chain by a whole number of samples, either way, is running it on the delayed
      stream. */
  lemma DelayedMeaning(ph: Physics, rate: nat, chain: seq<ModelStep>, d: nat, x: seq<Sample>)
    requires Grounded(ph) && SaneChain(chain) && OnlyLeads(chain)
    ensures var late := Delayed(chain, d as real);
      ShapedChain(LinkChain(ph, rate, chain)) && ShapedChain(LinkChain(ph, rate, late)) &&
      WholeChain(ph.tr, LinkChain(ph, rate, late), x) == WholeChain(ph.tr, LinkChain(ph, rate, chain), Zeros(d) + x)[..|x|]
  {
    hide *;
    if Leads(chain) {
      LeadParts(chain, d);
      MergedMeaning(ph, rate, chain[0].taps, chain[1..], d, x);
    } else {
      FrontParts(chain, d);
      PrependedMeaning(ph, rate, chain, d, x);
    }
  }

  lemma FrontParts(chain: seq<ModelStep>, d: nat)
    requires !Leads(chain) && OnlyLeads(chain)
    ensures forall k :: 0 <= k < |chain| ==> !chain[k].TdlStep?
    ensures Delayed(chain, d as real) == [TdlStep([TapSpec(d as real, 0.0, 0.0, false, 0.0, 0.0)])] + chain
  {
  }

  lemma LeadParts(chain: seq<ModelStep>, d: nat)
    requires Leads(chain) && SaneChain(chain) && OnlyLeads(chain)
    ensures chain != [] && chain[0].TdlStep? && forall k :: 0 <= k < |chain| - 1 ==> !chain[1..][k].TdlStep?
    ensures chain == [TdlStep(chain[0].taps)] + chain[1..] && DelaysFit(chain[0].taps)
    ensures Delayed(chain, d as real) == [TdlStep(ShiftTaps(chain[0].taps, d as real))] + chain[1..]
  {
  }

  /** Every delayed link of a folded topology computes its configured model on its source's
      stream delayed by source offset plus propagation delay. */
  lemma FoldedSignal(t: Setup, k: nat, ph: Physics, rate: nat, d: nat, x: seq<Sample>)
    requires t.KnownBases() && Clean(t) && k < |t.links| && t.Folds(k) && t.Delay(k) == d as real
    requires Grounded(ph)
    requires var base := t.models[t.links[k].model].chain; SaneChain(base) && OnlyLeads(base)
    ensures Final(t).names[k] in Final(t).models
    ensures var base, folded := t.models[t.links[k].model].chain, Final(t).models[Final(t).names[k]].chain;
      ShapedChain(LinkChain(ph, rate, base)) && ShapedChain(LinkChain(ph, rate, folded)) &&
      WholeChain(ph.tr, LinkChain(ph, rate, folded), x) == WholeChain(ph.tr, LinkChain(ph, rate, base), Zeros(d) + x)[..|x|]
  {
    CleanServes(t, k);
    hide Final, LinkChain, WholeChain, Grounded;
    DelayedMeaning(ph, rate, t.models[t.links[k].model].chain, d, x);
  }
}

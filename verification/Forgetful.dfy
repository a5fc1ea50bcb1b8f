/**
 Chains that forget: when a slot's output does not depend on the slots before it.  Otherwise there is a
 window that tells, and what it tells survives being summed with copies of itself.
 */
module Forgetful {
  import opened Iq
  import opened Phase
  import opened Chain
  import opened Fused
  import FusedProof
  import opened Receiver
  import opened LeadChains
  import Tdl
  import TdlStream
  import TdlResponse
  import TdlRing

  // ---- Chains that forget ---------------------------------------------------------------------------------

  /** The turn of all oscillators from one sample to the next. */
  function Drift(chain: seq<Step>): real {
    if chain == [] then 0.0 else (if chain[0].Turn? then chain[0].increment else 0.0) + Drift(chain[1..])
  }

  lemma {:induction false} SpinDrifts(chain: seq<Step>, n: nat)
    ensures Spin(chain, n) == Spin(chain, 0) + Angle(n, Drift(chain))
  {
    if chain != [] {
      SpinDrifts(chain[1..], n);
      if chain[0].Turn? {
        var a, b := chain[0].increment, Drift(chain[1..]);
        assert n as real * (a + b) == n as real * a + n as real * b;
      }
    }
  }

  /** No slot depends on earlier ones: the tdl hears nothing but the present, and either it is silent
      altogether or the oscillators turn by whole turns per sample. */
  ghost predicate Forgets(tr: Trig, chain: seq<Step>)
    requires ShapedChain(chain)
  {
    if LeadsWithTaps(chain) then
      var Taps(taps, poly) := chain[0];
      TdlRing.DiesOut(taps, poly, 0) && (SilentTaps(taps, poly) || tr.Congruent(Drift(Back(chain)), 0.0))
    else tr.Congruent(Drift(chain), 0.0)
  }

  /** Whole turns per sample: one factor for every sample. */
  lemma NoDrift(tr: Trig, chain: seq<Step>, n: nat)
    requires Circular(tr) && tr.Congruent(Drift(chain), 0.0)
    ensures Coefficient(tr, chain, n) == Coefficient(tr, chain, 0)
  {
    hide Circular, Factor, Trig.Congruent, Scale, Spin, Drift;
    var d, s := Drift(chain), Spin(chain, 0);
    SpinDrifts(chain, n);
    OneTurn(d, n);
    WholeTurns(tr, 1, d, n);
    Shifted(tr, Angle(n, d), 0.0, s);
    RotatesAlike(tr, s + Angle(n, d), s + 0.0);
    assert s + 0.0 == s;
  }

  lemma OneTurn(d: real, n: nat)
    ensures Angle(1, d) == d && Angle(1, Angle(n, d)) == Angle(n, d)
  {
  }

  lemma RotatesAlike(tr: Trig, a: real, b: real)
    requires Circular(tr) && tr.Congruent(a, b)
    ensures tr.rot(a) == tr.rot(b)
  {
    hide Trig.Congruent;
  }

  lemma FrontForgets(taps: seq<Tdl.Tap>, poly: seq<seq<real>>, h: seq<Sample>, r: nat, x: seq<Sample>)
    requires Tdl.Shaped(taps, poly) && TdlRing.DiesOut(taps, poly, 0)
    ensures Tdl.SlotOut(taps, poly, TdlStream.Tail(h, r), x) == Tdl.SlotOut(taps, poly, [], x)
  {
    assert TdlRing.DiesOut(taps, poly, r);
    hide TdlRing.DiesOut, Tdl.SlotOut, Tdl.Shaped;
    assert TdlStream.Tail(h, 0) == [];
    TdlRing.DeepSlot(taps, poly, h, x, r);
    TdlRing.DeepSlot(taps, poly, h, x, 0);
  }

  /** A chain that forgets sends the same for a slot after any two histories. */
  lemma ForgetfulSlot(tr: Trig, chain: seq<Step>, s: seq<StepState>, h: seq<Sample>, s': seq<StepState>, h': seq<Sample>, x: seq<Sample>)
    requires Circular(tr) && ShapedChain(chain) && LeadingOnly(chain) && Forgets(tr, chain)
    requires After(tr, chain, s, h) && After(tr, chain, s', h') && |s| == |s'| == |chain|
    ensures tr.turn > 0.0 && ChainOut(tr, chain, s, x) == ChainOut(tr, chain, s', x)
  {
    hide *;
    SlotAfter(tr, chain, s, h, x);
    SlotAfter(tr, chain, s', h', x);
    FrontsAlike(tr, chain, s, h, s', h', x);
    var y, y' := ChainOut(tr, chain, s, x), ChainOut(tr, chain, s', x);
    forall i | 0 <= i < |x| ensures y[i] == y'[i] {
      FactoredAt(tr, Back(chain), Front(chain, s, x), y, |h|, i, |h| + i);
      FactoredAt(tr, Back(chain), Front(chain, s', x), y', |h'|, i, |h'| + i);
      SampleAlike(tr, chain, s, h, x, i, |h| + i, |h'| + i);
    }
  }

  lemma SampleAlike(tr: Trig, chain: seq<Step>, s: seq<StepState>, h: seq<Sample>, x: seq<Sample>, i: nat, n: nat, n': nat)
    requires Circular(tr) && ShapedChain(chain) && Forgets(tr, chain) && After(tr, chain, s, h) && i < |x|
    ensures var v := Front(chain, s, x)[i];
      Rotate(v, Coefficient(tr, Back(chain), n)) == Rotate(v, Coefficient(tr, Back(chain), n'))
  {
    hide Circular, Coefficient, Advanced, Rotate, Trig.Congruent, Tdl.SlotOut, TdlRing.DiesOut, SilentTaps, Drift;
    if tr.Congruent(Drift(Back(chain)), 0.0) {
      NoDrift(tr, Back(chain), n);
      NoDrift(tr, Back(chain), n');
    } else {
      SilentFront(chain[0].taps, chain[0].poly, s[0].line, x, i);
      TdlResponse.Units(Coefficient(tr, Back(chain), n));
      TdlResponse.Units(Coefficient(tr, Back(chain), n'));
    }
  }

  lemma FrontsAlike(tr: Trig, chain: seq<Step>, s: seq<StepState>, h: seq<Sample>, s': seq<StepState>, h': seq<Sample>, x: seq<Sample>)
    requires ShapedChain(chain) && Forgets(tr, chain) && After(tr, chain, s, h) && After(tr, chain, s', h')
    ensures Front(chain, s, x) == Front(chain, s', x)
  {
    hide Advanced, Tdl.SlotOut, TdlRing.DiesOut, SilentTaps, Trig.Congruent;
    if LeadsWithTaps(chain) {
      FrontForgets(chain[0].taps, chain[0].poly, h, |s[0].line|, x);
      FrontForgets(chain[0].taps, chain[0].poly, h', |s'[0].line|, x);
    }
  }

  /** Equal factors at two samples in a row: no drift. */
  lemma StandsStill(tr: Trig, chain: seq<Step>, n: nat)
    requires Circular(tr) && Factor(chain) != 0.0 && Coefficient(tr, chain, n) == Coefficient(tr, chain, n + 1)
    ensures tr.Congruent(Drift(chain), 0.0)
  {
    hide Circular, Spin, Factor, Drift, Rotate, Trig.Congruent;
    var f, d, a := Factor(chain), Drift(chain), Spin(chain, n);
    SpinDrifts(chain, n);
    SpinDrifts(chain, n + 1);
    AngleSum(n, 1, d);
    OneTurn(d, 0);
    assert Spin(chain, n + 1) == a + d;
    SameScale(tr.rot(a), tr.rot(a + d), f);
    Compose(tr, a, d);
    TdlResponse.Units(tr.rot(a));
    Undo(tr, a, tr.rot(d), TdlResponse.ONE);
    WholeTurn(tr, d);
  }

  // ---- An echo --------------------------------------------------------------------------------------------

  /** The front sample of a window with one impulse at `p`, sent for the first time. */
  lemma FirstPass(taps: seq<Tdl.Tap>, poly: seq<seq<real>>, r: nat, p: nat, l: nat)
    requires Tdl.Shaped(taps, poly) && Tdl.Covers(taps, r) && p < l
    ensures Tdl.SlotOut(taps, poly, TdlStream.Tail([], r), TdlResponse.Impulse(p, l))[0] == TdlResponse.Response(taps, poly, 0 - p)
  {
    hide *;
    var x := TdlResponse.Impulse(p, l);
    assert [] + x == x;
    TdlStream.SlotSample(taps, poly, [], x, r, 0);
    TdlResponse.PulseWhole(taps, poly, x, p, 0);
  }

  lemma {:induction false} LoneTerm(f: Tdl.Signal, taps: seq<Tdl.Tap>, poly: seq<seq<real>>, n: int, t0: int, lo: int, hi: int)
    requires Tdl.Shaped(taps, poly)
    requires forall t :: lo <= t < hi && t != t0 ==> f(t) == ZERO || TdlResponse.Response(taps, poly, n - t) == ZERO
    ensures TdlResponse.ResponseSum(f, taps, poly, n, lo, hi) ==
            if lo <= t0 < hi then Rotate(f(t0), TdlResponse.Response(taps, poly, n - t0)) else ZERO
    decreases hi - lo
  {
    hide TdlResponse.Response, Tdl.Shaped, Rotate, Add;
    if lo < hi {
      LoneTerm(f, taps, poly, n, t0, lo, hi - 1);
      TdlResponse.Units(TdlResponse.ResponseSum(f, taps, poly, n, lo, hi - 1));
      TdlResponse.Units(f(hi - 1));
      TdlResponse.Units(TdlResponse.Response(taps, poly, n - (hi - 1)));
      TdlResponse.Units(Rotate(f(hi - 1), TdlResponse.Response(taps, poly, n - (hi - 1))));
    }
  }

  /** The farthest echo. */
  lemma {:induction false} LastEcho(taps: seq<Tdl.Tap>, poly: seq<seq<real>>, r: nat) returns (m: nat)
    requires Tdl.Shaped(taps, poly) && TdlRing.DiesOut(taps, poly, r) && !TdlRing.DiesOut(taps, poly, 0)
    ensures 0 < m && TdlResponse.Response(taps, poly, m) != ZERO && TdlRing.DiesOut(taps, poly, m)
  {
    hide TdlResponse.Response, Tdl.Shaped;
    assert r > 0;
    m := r;
    if TdlResponse.Response(taps, poly, r) == ZERO {
      assert TdlRing.DiesOut(taps, poly, r - 1);
      m := LastEcho(taps, poly, r - 1);
    }
  }

  /** One silent sample after an impulse, `m + q` samples later: whatever came before the impulse is too
      old to be heard. */
  lemma EchoFront(taps: seq<Tdl.Tap>, poly: seq<seq<real>>, r: nat, h: seq<Sample>, m: nat, q: nat)
    requires Tdl.Shaped(taps, poly) && Tdl.Covers(taps, r) && 0 < m && TdlRing.DiesOut(taps, poly, m)
    ensures Tdl.SlotOut(taps, poly, TdlStream.Tail(h + TdlResponse.Impulse(0, m) + Zeros(q), r), [ZERO])[0] ==
            TdlResponse.Response(taps, poly, m + q)
  {
    hide *;
    var x := h + TdlResponse.Impulse(0, m) + Zeros(q);
    TdlStream.SlotSample(taps, poly, x, [ZERO], r, 0);
    EchoWhole(taps, poly, h, m, q, x + [ZERO], |x|);
  }

  lemma EchoWhole(taps: seq<Tdl.Tap>, poly: seq<seq<real>>, h: seq<Sample>, m: nat, q: nat, x: seq<Sample>, n: nat)
    requires Tdl.Shaped(taps, poly) && 0 < m && TdlRing.DiesOut(taps, poly, m)
    requires x == h + TdlResponse.Impulse(0, m) + Zeros(q) + [ZERO] && n == |h| + m + q
    ensures Tdl.WholeOut(taps, poly, x, n) == TdlResponse.Response(taps, poly, m + q)
  {
    hide TdlResponse.Response, Tdl.Conv, TdlResponse.ResponseSum, TdlResponse.Impulse, Tdl.RingSize, Tdl.Shaped, TdlRing.DiesOut, At;
    var lo: int := 0 - Tdl.RingSize(taps);
    TdlResponse.ConvIsResponse(t => At(x, t), taps, poly, n, lo);
    forall t | lo <= t < n + 4 && t != |h| ensures At(x, t) == ZERO || TdlResponse.Response(taps, poly, n - t) == ZERO {
      EchoSample(h, m, q, t);
      EchoesOver(taps, poly, m, n - t);
    }
    EchoSample(h, m, q, |h|);
    LoneTerm(t => At(x, t), taps, poly, n, |h|, lo, n + 4);
    TdlResponse.Units(TdlResponse.Response(taps, poly, m + q));
  }

  lemma EchoesOver(taps: seq<Tdl.Tap>, poly: seq<seq<real>>, m: nat, k: int)
    requires Tdl.Shaped(taps, poly) && TdlRing.DiesOut(taps, poly, m)
    ensures k > m ==> TdlResponse.Response(taps, poly, k) == ZERO
  {
  }

  lemma EchoSample(h: seq<Sample>, m: nat, q: nat, t: int)
    requires 0 < m
    ensures t >= |h| ==> At(h + TdlResponse.Impulse(0, m) + Zeros(q) + [ZERO], t) == if t == |h| then TdlResponse.ONE else ZERO
  {
    assert forall k :: 0 <= k < m ==> TdlResponse.Impulse(0, m)[k] == if k == 0 then TdlResponse.ONE else ZERO;
  }

  // ---- Equal lengths ----------------------------------------------------------------------------------------

  function Length2(v: Sample): real {
    Norm(v.i, v.q)
  }

  function Dot(a: Sample, b: Sample): real {
    Times(a.i, b.i) + Times(a.q, b.q)
  }

  /** ... and rotations keep the length of a sample. */
  ghost predicate OnCircle(tr: Trig) {
    Circular(tr) && forall a :: UnitLength(tr, a)
  }

  predicate UnitLength(tr: Trig, a: real) {
    Length2(tr.rot(a)) == 1.0
  }

  lemma Unit(tr: Trig, a: real)
    requires OnCircle(tr)
    ensures Length2(tr.rot(a)) == 1.0
  {
    assert UnitLength(tr, a);
  }

  lemma Lengths(v: Sample, c: Sample)
    ensures Length2(Rotate(v, c)) == Length2(v) * Length2(c)
  {
    var a, b, x, y := v.i, v.q, c.i, c.q;
    assert (a * x - b * y) * (a * x - b * y) + (a * y + b * x) * (a * y + b * x) == (a * a + b * b) * (x * x + y * y);
  }

  lemma ScaledLength(v: Sample, f: real)
    ensures Length2(Scale(v, f)) == f * f * Length2(v)
  {
    assert (f * v.i) * (f * v.i) + (f * v.q) * (f * v.q) == f * f * (v.i * v.i + v.q * v.q);
  }

  /** A chain gives every sample of one strength the same strength. */
  lemma SameLength(tr: Trig, chain: seq<Step>, v: Sample, n: nat, n': nat)
    requires OnCircle(tr)
    ensures Length2(Rotate(v, Coefficient(tr, chain, n))) == Length2(Rotate(v, Coefficient(tr, chain, n')))
  {
    hide Circular, Length2, Spin, Factor, Rotate, Scale;
    Lengths(v, Coefficient(tr, chain, n));
    Lengths(v, Coefficient(tr, chain, n'));
    Unit(tr, Spin(chain, n));
    Unit(tr, Spin(chain, n'));
    ScaledLength(tr.rot(Spin(chain, n)), Factor(chain));
    ScaledLength(tr.rot(Spin(chain, n')), Factor(chain));
  }

  lemma Nearest(a: Sample, w: Sample)
    requires Length2(a) == Length2(w)
    ensures Dot(a, w) <= Dot(w, w) && (Dot(a, w) == Dot(w, w) ==> a == w)
  {
    var u, v := a.i - w.i, a.q - w.q;
    Apart(a, w, u, v);
    hide Times;
    Square(u);
    Square(v);
  }

  lemma Apart(a: Sample, w: Sample, u: real, v: real)
    requires u == a.i - w.i && v == a.q - w.q
    ensures Times(u, u) + Times(v, v) == Length2(a) + Length2(w) - 2.0 * Dot(a, w)
  {
    assert u * u == a.i * a.i - 2.0 * (a.i * w.i) + w.i * w.i;
    assert v * v == a.q * a.q - 2.0 * (a.q * w.q) + w.q * w.q;
  }

  lemma Silent(w: Sample)
    ensures Dot(ZERO, w) == 0.0 && Dot(w, w) >= 0.0 && (Dot(w, w) == 0.0 ==> w == ZERO)
  {
    assert Times(0.0, w.i) == 0.0 && Times(0.0, w.q) == 0.0;
    hide Times;
    Square(w.i);
    Square(w.q);
  }

  lemma DotAdds(a: Sample, b: Sample, w: Sample)
    ensures Dot(Add(a, b), w) == Dot(a, w) + Dot(b, w)
  {
  }

  /** Both silent; or `b` is `w`, and `a` silent or as strong. */
  predicate Tame(a: Sample, b: Sample, w: Sample) {
    (a == ZERO && b == ZERO) || (b == w && (a == ZERO || Length2(a) == Length2(w)))
  }

  lemma TameDot(a: Sample, b: Sample, w: Sample)
    requires Tame(a, b, w)
    ensures Dot(a, w) <= Dot(b, w) && (Dot(a, w) == Dot(b, w) ==> a == b)
  {
    hide Length2, Dot;
    Silent(w);
    if a != ZERO {
      Nearest(a, w);
    }
  }

  /** Samples as strong as `w` only add up to as many `w` if each of them is `w`. */
  lemma {:induction false} SumForces(ys: seq<seq<Sample>>, zs: seq<seq<Sample>>, count: nat, i: nat, w: Sample, n: nat)
    requires |ys| == |zs| && n <= |ys| && i < count
    requires forall e :: 0 <= e < |ys| ==> |ys[e]| == count && |zs[e]| == count && Tame(ys[e][i], zs[e][i], w)
    ensures Dot(Mix(ys[..n], count)[i], w) <= Dot(Mix(zs[..n], count)[i], w)
    ensures Dot(Mix(ys[..n], count)[i], w) == Dot(Mix(zs[..n], count)[i], w) ==> forall e :: 0 <= e < n ==> ys[e][i] == zs[e][i]
  {
    hide Mix, Dot, Tame, Add;
    if n == 0 {
      assert ys[..0] == zs[..0];
    } else {
      SumForces(ys, zs, count, i, w, n - 1);
      FusedProof.MixSample(ys, count, n - 1, i);
      FusedProof.MixSample(zs, count, n - 1, i);
      TameDot(ys[n - 1][i], zs[n - 1][i], w);
      DotAdds(Mix(ys[..n - 1], count)[i], ys[n - 1][i], w);
      DotAdds(Mix(zs[..n - 1], count)[i], zs[n - 1][i], w);
    }
  }

  lemma SumTells(ys: seq<seq<Sample>>, zs: seq<seq<Sample>>, count: nat, i: nat, w: Sample, e: nat)
    requires |ys| == |zs| && i < count && e < |ys|
    requires forall e :: 0 <= e < |ys| ==> |ys[e]| == count && |zs[e]| == count && Tame(ys[e][i], zs[e][i], w)
    requires Mix(ys, count)[i] == Mix(zs, count)[i]
    ensures ys[e][i] == zs[e][i]
  {
    hide Mix, Dot, Tame;
    SumForces(ys, zs, count, i, w, |ys|);
    assert ys[..|ys|] == ys && zs[..|zs|] == zs;
  }

  // ---- Weighing --------------------------------------------------------------------------------------------

  /** A front sample `v` weighed by the steps behind the tdl, `n` samples into the stream. */
  function Weighed(tr: Trig, chain: seq<Step>, v: Sample, n: nat): Sample {
    Rotate(v, Coefficient(tr, Back(chain), n))
  }

  lemma NothingWeighed(tr: Trig, chain: seq<Step>, n: nat)
    ensures Weighed(tr, chain, ZERO, n) == ZERO
  {
    TdlResponse.Units(Coefficient(tr, Back(chain), n));
  }

  lemma WeighedAlike(tr: Trig, chain: seq<Step>, v: Sample, n: nat, n': nat)
    requires OnCircle(tr)
    ensures Tame(Weighed(tr, chain, v, n), Weighed(tr, chain, v, n'), Weighed(tr, chain, v, n'))
  {
    hide Length2, Coefficient, Rotate, OnCircle;
    SameLength(tr, Back(chain), v, n, n');
  }

  lemma WeighedApart(tr: Trig, chain: seq<Step>, v: Sample, n: nat)
    requires v != ZERO && Weighed(tr, chain, v, n) == Weighed(tr, chain, v, n + 1)
    ensures Coefficient(tr, Back(chain), n) == Coefficient(tr, Back(chain), n + 1)
  {
    hide Rotate, Coefficient, Back;
    Cancel(v, Coefficient(tr, Back(chain), n), Coefficient(tr, Back(chain), n + 1));
  }

  lemma BothSilent(w: Sample)
    ensures Tame(ZERO, ZERO, w)
  {
  }

  /** Some other link has the key of link `k`. */
  predicate Repeated<Key(==)>(keys: seq<Key>, k: nat)
    requires k < |keys|
  {
    exists j :: 0 <= j < |keys| && j != k && keys[j] == keys[k]
  }

  /** Links with one key are handed one window. */
  predicate SameWindows<Key(==)>(keys: seq<Key>, inputs: seq<seq<Sample>>) {
    forall j, k :: 0 <= j < |keys| && 0 <= k < |keys| && j < |inputs| && k < |inputs| && keys[j] == keys[k] ==> inputs[j] == inputs[k]
  }

  // ---- Links with one key ------------------------------------------------------------------------------------

  function Count<Key(==)>(keys: seq<Key>, key: Key, n: nat): nat
    requires n <= |keys|
  {
    if n == 0 then 0 else Count(keys, key, n - 1) + if keys[n - 1] == key then 1 else 0
  }

  /** How many links before the `k`-th share its key. */
  function Rank<Key(==)>(keys: seq<Key>, k: nat): nat
    requires k < |keys|
  {
    Count(keys, keys[k], k)
  }

  lemma {:induction false} CountGrows<Key>(keys: seq<Key>, key: Key, j: nat, n: nat)
    requires j < n <= |keys| && keys[j] == key
    ensures Count(keys, key, n) > Count(keys, key, j)
  {
    if j < n - 1 {
      CountGrows(keys, key, j, n - 1);
    }
  }

  /** Of several links with one key one is the second. */
  lemma {:induction false} Second<Key>(keys: seq<Key>, k: nat) returns (e: nat)
    requires k < |keys| && Rank(keys, k) > 0
    ensures e < |keys| && keys[e] == keys[k] && Rank(keys, e) == 1
  {
    e := k;
    if Rank(keys, k) != 1 {
      var j := Before(keys, keys[k], k);
      e := Second(keys, j);
    }
  }

  lemma {:induction false} Before<Key>(keys: seq<Key>, key: Key, n: nat) returns (j: nat)
    requires n <= |keys| && Count(keys, key, n) > 0
    ensures j < n && keys[j] == key && Rank(keys, j) == Count(keys, key, n) - 1
  {
    if keys[n - 1] == key {
      j := n - 1;
    } else {
      j := Before(keys, key, n - 1);
    }
  }

  lemma RepeatedRank<Key>(keys: seq<Key>, k: nat) returns (e: nat)
    requires k < |keys| && Repeated(keys, k)
    ensures e < |keys| && keys[e] == keys[k] && Rank(keys, e) == 1
  {
    var j :| 0 <= j < |keys| && j != k && keys[j] == keys[k];
    var later, sooner := if j < k then k else j, if j < k then j else k;
    CountGrows(keys, keys[k], sooner, later);
    e := Second(keys, later);
  }

  /** Only the links with the key of link `k` hear anything. */
  function Call<Key(==)>(keys: seq<Key>, k: nat, x: seq<Sample>): (inputs: seq<seq<Sample>>)
    requires k < |keys|
    ensures |inputs| == |keys| && SameWindows(keys, inputs)
    ensures forall e :: 0 <= e < |keys| ==> inputs[e] == if keys[e] == keys[k] then x else Zeros(|x|)
  {
    seq(|keys|, e requires 0 <= e < |keys| => if keys[e] == keys[k] then x else Zeros(|x|))
  }

  lemma Round(tr: Trig)
    requires OnCircle(tr)
    ensures Circular(tr)
  {
  }
}

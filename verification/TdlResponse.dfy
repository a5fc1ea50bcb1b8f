/**
 The tapped delay line through its impulse response: exactly when it can be fed in
 slots, and exactly when it does nothing.
 */
module TdlResponse {
  import opened Iq
  import opened Tdl
  import opened TdlStream

  const ONE := Sample(1.0, 0.0)

  function Pulse(p: int, v: Sample): Signal {
    m => if m == p then v else ZERO
  }

  /** Output at position `m` for a unit impulse at position 0. */
  function Response(taps: seq<Tap>, poly: seq<seq<real>>, m: int): Sample
    requires Shaped(taps, poly)
  {
    Conv(Pulse(0, ONE), taps, poly, m, |taps|)
  }

  // ---- Linearity ------------------------------------------------------------------------

  lemma ScaleAdd(a: Sample, b: Sample, c: real)
    ensures Scale(Add(a, b), c) == Add(Scale(a, c), Scale(b, c))
  {
  }

  lemma RotateAdd(a: Sample, b: Sample, r: Sample)
    ensures Rotate(Add(a, b), r) == Add(Rotate(a, r), Rotate(b, r))
    ensures Rotate(r, Add(a, b)) == Add(Rotate(r, a), Rotate(r, b))
  {
  }

  lemma RotateScale(v: Sample, a: Sample, c: real)
    ensures Rotate(v, Scale(a, c)) == Scale(Rotate(v, a), c)
  {
  }

  lemma RotateRotate(v: Sample, a: Sample, r: Sample)
    ensures Rotate(Rotate(v, a), r) == Rotate(v, Rotate(a, r))
  {
  }

  lemma AddSwap(a: Sample, b: Sample, c: Sample, d: Sample)
    ensures Add(Add(a, b), Add(c, d)) == Add(Add(a, c), Add(b, d))
  {
  }

  lemma {:induction false} FilterAdds(f: Signal, g: Signal, fg: Signal, h: seq<real>, p: int, i: nat)
    requires i <= |h| && forall m :: fg(m) == Add(f(m), g(m))
    ensures Filter(fg, h, p, i) == Add(Filter(f, h, p, i), Filter(g, h, p, i))
  {
    if i == 0 {
      return;
    }
    hide Add, Scale, Rotate;
    var m := p + 3 - (i - 1);
    FilterAdds(f, g, fg, h, p, i - 1);
    ScaleAdd(f(m), g(m), h[i - 1]);
    AddSwap(Filter(f, h, p, i - 1), Filter(g, h, p, i - 1), Scale(f(m), h[i - 1]), Scale(g(m), h[i - 1]));
  }

  lemma TapAdds(a: Sample, b: Sample, t: Tap)
    ensures TapOut(Add(a, b), t) == Add(TapOut(a, t), TapOut(b, t))
  {
    RotateAdd(a, b, t.rotation);
    ScaleAdd(Rotate(a, t.rotation), Rotate(b, t.rotation), t.gain);
    hide Add, Scale, Rotate;
  }

  lemma ConvStep(f: Signal, taps: seq<Tap>, poly: seq<seq<real>>, n: int, k: nat)
    requires Shaped(taps, poly) && 0 < k <= |taps|
    ensures Conv(f, taps, poly, n, k) ==
            Add(Conv(f, taps, poly, n, k - 1), TapOut(Filter(f, poly[k - 1], n - taps[k - 1].Whole(), FILTER), taps[k - 1]))
  {
  }

  lemma ConvNone(f: Signal, taps: seq<Tap>, poly: seq<seq<real>>, n: int)
    requires Shaped(taps, poly)
    ensures Conv(f, taps, poly, n, 0) == ZERO
  {
  }

  lemma ConvAddsTap(f: Signal, g: Signal, fg: Signal, taps: seq<Tap>, poly: seq<seq<real>>, n: int, k: nat)
    requires Shaped(taps, poly) && 0 < k <= |taps| && forall m :: fg(m) == Add(f(m), g(m))
    requires Conv(fg, taps, poly, n, k - 1) == Add(Conv(f, taps, poly, n, k - 1), Conv(g, taps, poly, n, k - 1))
    ensures Conv(fg, taps, poly, n, k) == Add(Conv(f, taps, poly, n, k), Conv(g, taps, poly, n, k))
  {
    hide Add, TapOut, Filter, Conv;
    ConvStep(f, taps, poly, n, k);
    ConvStep(g, taps, poly, n, k);
    ConvStep(fg, taps, poly, n, k);
    var t, h, p := taps[k - 1], poly[k - 1], n - taps[k - 1].Whole();
    FilterAdds(f, g, fg, h, p, FILTER);
    var a, b := Filter(f, h, p, FILTER), Filter(g, h, p, FILTER);
    TapAdds(a, b, t);
    AddSwap(Conv(f, taps, poly, n, k - 1), Conv(g, taps, poly, n, k - 1), TapOut(a, t), TapOut(b, t));
  }

  lemma {:induction false} ConvAdds(f: Signal, g: Signal, fg: Signal, taps: seq<Tap>, poly: seq<seq<real>>, n: int, k: nat)
    requires Shaped(taps, poly) && k <= |taps| && forall m :: fg(m) == Add(f(m), g(m))
    ensures Conv(fg, taps, poly, n, k) == Add(Conv(f, taps, poly, n, k), Conv(g, taps, poly, n, k))
  {
    hide Conv, Add;
    if k == 0 {
      ConvNone(f, taps, poly, n);
      ConvNone(g, taps, poly, n);
      ConvNone(fg, taps, poly, n);
      AddSilence(ZERO);
    } else {
      ConvAdds(f, g, fg, taps, poly, n, k - 1);
      ConvAddsTap(f, g, fg, taps, poly, n, k);
    }
  }

  lemma {:induction false} FilterTurns(f: Signal, g: Signal, v: Sample, h: seq<real>, p: int, i: nat)
    requires i <= |h| && forall m :: g(m) == Rotate(v, f(m))
    ensures Filter(g, h, p, i) == Rotate(v, Filter(f, h, p, i))
  {
    if i == 0 {
      return;
    }
    hide Add, Scale, Rotate;
    var m := p + 3 - (i - 1);
    FilterTurns(f, g, v, h, p, i - 1);
    RotateScale(v, f(m), h[i - 1]);
    RotateAdd(Filter(f, h, p, i - 1), Scale(f(m), h[i - 1]), v);
  }

  lemma TapTurns(v: Sample, a: Sample, t: Tap)
    ensures TapOut(Rotate(v, a), t) == Rotate(v, TapOut(a, t))
  {
    RotateRotate(v, a, t.rotation);
    RotateScale(v, Rotate(a, t.rotation), t.gain);
    hide Scale, Rotate;
  }

  lemma {:induction false} ConvTurns(f: Signal, g: Signal, v: Sample, taps: seq<Tap>, poly: seq<seq<real>>, n: int, k: nat)
    requires Shaped(taps, poly) && k <= |taps| && forall m :: g(m) == Rotate(v, f(m))
    ensures Conv(g, taps, poly, n, k) == Rotate(v, Conv(f, taps, poly, n, k))
  {
    if k == 0 {
      return;
    }
    hide Add, Rotate, TapOut, Filter;
    var t, p := taps[k - 1], n - taps[k - 1].Whole();
    var a := Filter(f, poly[k - 1], p, FILTER);
    ConvTurns(f, g, v, taps, poly, n, k - 1);
    FilterTurns(f, g, v, poly[k - 1], p, FILTER);
    TapTurns(v, a, t);
    RotateAdd(Conv(f, taps, poly, n, k - 1), TapOut(a, t), v);
  }

  lemma PulseOut(taps: seq<Tap>, poly: seq<seq<real>>, p: int, v: Sample, n: int)
    requires Shaped(taps, poly)
    ensures Conv(Pulse(p, v), taps, poly, n, |taps|) == Rotate(v, Response(taps, poly, n - p))
  {
    ConvTurns(Pulse(0, ONE), Pulse(0, v), v, taps, poly, n - p, |taps|);
    ConvAgrees(Pulse(p, v), Pulse(0, v), taps, poly, n, n - p, |taps|);
  }

  // ---- The response determines the channel ------------------------------------------------

  function Window(f: Signal, lo: int, hi: int): Signal {
    m => if lo <= m < hi then f(m) else ZERO
  }

  /** The signal on [lo, hi) weighted by the response, as a plain sum. */
  function ResponseSum(f: Signal, taps: seq<Tap>, poly: seq<seq<real>>, n: int, lo: int, hi: int): Sample
    requires Shaped(taps, poly)
    decreases hi - lo
  {
    if hi <= lo then ZERO
    else Add(ResponseSum(f, taps, poly, n, lo, hi - 1), Rotate(f(hi - 1), Response(taps, poly, n - (hi - 1))))
  }

  lemma AddSilence(a: Sample)
    ensures Add(a, ZERO) == a && Rotate(ZERO, a) == ZERO
  {
  }

  lemma SilentOut(f: Signal, taps: seq<Tap>, poly: seq<seq<real>>, n: int)
    requires Shaped(taps, poly) && forall m :: f(m) == ZERO
    ensures Conv(f, taps, poly, n, |taps|) == ZERO
  {
    PulseOut(taps, poly, 0, ZERO, n);
    ConvAgrees(f, Pulse(0, ZERO), taps, poly, n, n, |taps|);
    AddSilence(Response(taps, poly, n));
  }

  lemma WindowSplit(f: Signal, lo: int, hi: int, m: int)
    requires lo < hi
    ensures Window(f, lo, hi)(m) == Add(Window(f, lo, hi - 1)(m), Pulse(hi - 1, f(hi - 1))(m))
  {
  }

  lemma {:induction false} WindowOut(f: Signal, taps: seq<Tap>, poly: seq<seq<real>>, n: int, lo: int, hi: int)
    requires Shaped(taps, poly) && lo <= hi
    ensures Conv(Window(f, lo, hi), taps, poly, n, |taps|) == ResponseSum(f, taps, poly, n, lo, hi)
    decreases hi - lo
  {
    hide Add, Scale, Rotate, Conv, Shaped;
    if lo == hi {
      SilentOut(Window(f, lo, hi), taps, poly, n);
    } else {
      var rest, last := Window(f, lo, hi - 1), Pulse(hi - 1, f(hi - 1));
      WindowOut(f, taps, poly, n, lo, hi - 1);
      PulseOut(taps, poly, hi - 1, f(hi - 1), n);
      forall m ensures Window(f, lo, hi)(m) == Add(rest(m), last(m)) {
        WindowSplit(f, lo, hi, m);
      }
      ConvAdds(rest, last, Window(f, lo, hi), taps, poly, n, |taps|);
    }
  }

  /** The channel is the convolution with its impulse response. */
  lemma ConvIsResponse(f: Signal, taps: seq<Tap>, poly: seq<seq<real>>, n: int, lo: int)
    requires Shaped(taps, poly) && lo <= n - RingSize(taps) && lo <= n
    ensures Conv(f, taps, poly, n, |taps|) == ResponseSum(f, taps, poly, n, lo, n + 4)
  {
    assert forall k :: 0 <= k < |taps| ==> taps[k].Whole() + FILTER <= RingSize(taps);
    ConvAgrees(f, Window(f, lo, n + 4), taps, poly, n, n, |taps|);
    WindowOut(f, taps, poly, n, lo, n + 4);
  }

  // ---- Looking ahead ------------------------------------------------------------------------

  /** The filter reads at most three samples past the output; none of them counts. */
  predicate NoLookahead(taps: seq<Tap>, poly: seq<seq<real>>)
    requires Shaped(taps, poly)
  {
    forall m :: -3 <= m < 0 ==> Response(taps, poly, m) == ZERO
  }

  /** No tap has a nonzero coefficient ahead of the sample it produces. */
  predicate Causal(taps: seq<Tap>, poly: seq<seq<real>>)
    requires Shaped(taps, poly)
  {
    forall k, i :: 0 <= k < |taps| && 0 <= i < FILTER && i < 3 - taps[k].Whole() ==> poly[k][i] == 0.0
  }

  lemma CausalLooksNowhere(taps: seq<Tap>, poly: seq<seq<real>>)
    requires Shaped(taps, poly) && Causal(taps, poly)
    ensures NoLookahead(taps, poly)
  {
    forall m | -3 <= m < 0 ensures Response(taps, poly, m) == ZERO {
      ConvAgrees(Pulse(0, ONE), Pulse(0, ZERO), taps, poly, m, m, |taps|);
      PulseOut(taps, poly, 0, ZERO, m);
    }
  }

  lemma {:induction false} FutureSum(f: Signal, taps: seq<Tap>, poly: seq<seq<real>>, n: int, lo: int, hi: int)
    requires Shaped(taps, poly) && NoLookahead(taps, poly) && n < lo && (hi <= n + 4 || hi <= lo)
    ensures ResponseSum(f, taps, poly, n, lo, hi) == ZERO
    decreases hi - lo
  {
    hide Response, Add, Rotate, Shaped;
    if lo < hi {
      FutureSum(f, taps, poly, n, lo, hi - 1);
      SumStep(f, taps, poly, n, lo, hi);
      Units(f(hi - 1));
      Units(ZERO);
      assert Response(taps, poly, n - (hi - 1)) == ZERO;
    }
  }

  /** A signal and what follows it, as a sum. */
  lemma SplitAt(f: Signal, x: seq<Sample>, y: seq<Sample>, m: int)
    requires f(m) == At(x + y, m)
    ensures f(m) == Add(At(x, m), Window(f, |x|, |x| + |y|)(m))
  {
  }

  lemma FutureSilent(f: Signal, taps: seq<Tap>, poly: seq<seq<real>>, n: int, lo: int, hi: int)
    requires Shaped(taps, poly) && NoLookahead(taps, poly) && n < lo
    ensures Conv(Window(f, lo, hi), taps, poly, n, |taps|) == ZERO
  {
    hide NoLookahead, Conv, ResponseSum;
    var future := Window(f, lo, hi);
    var end := if n + 4 <= lo then lo else n + 4;
    ConvAgrees(future, Window(future, lo, end), taps, poly, n, n, |taps|);
    WindowOut(future, taps, poly, n, lo, end);
    FutureSum(future, taps, poly, n, lo, end);
  }

  lemma FutureIgnored(taps: seq<Tap>, poly: seq<seq<real>>, x: seq<Sample>, y: seq<Sample>, n: nat)
    requires Shaped(taps, poly) && NoLookahead(taps, poly) && n < |x|
    ensures WholeOut(taps, poly, x + y, n) == WholeOut(taps, poly, x, n)
  {
    hide *;
    var all: Signal := m => At(x + y, m);
    var past: Signal := m => At(x, m);
    var future := Window(all, |x|, |x| + |y|);
    forall m ensures all(m) == Add(past(m), future(m)) {
      SplitAt(all, x, y, m);
    }
    ConvAdds(past, future, all, taps, poly, n, |taps|);
    FutureSilent(all, taps, poly, n, |x|, |x| + |y|);
    AddSilence(Conv(past, taps, poly, n, |taps|));
    WholeIsConv(taps, poly, x, n);
    WholeIsConv(taps, poly, x + y, n);
  }

  lemma WholeIsConv(taps: seq<Tap>, poly: seq<seq<real>>, x: seq<Sample>, n: int)
    requires Shaped(taps, poly)
    ensures WholeOut(taps, poly, x, n) == Conv(m => At(x, m), taps, poly, n, |taps|)
  {
  }

  /** A channel that does not look ahead: first outputs do not depend on what follows. */
  lemma WholePrefix(taps: seq<Tap>, poly: seq<seq<real>>, x: seq<Sample>, y: seq<Sample>)
    requires Shaped(taps, poly) && NoLookahead(taps, poly)
    ensures Whole(taps, poly, x + y)[..|x|] == Whole(taps, poly, x)
  {
    forall n | 0 <= n < |x|
      ensures WholeOut(taps, poly, x + y, n) == WholeOut(taps, poly, x, n)
    {
      FutureIgnored(taps, poly, x, y, n);
    }
  }

  // ---- Cutting the stream -------------------------------------------------------------------

  /** Every cut of a stream into slots gives the outputs of one convolution over the
      whole stream. */
  lemma {:induction false} CutIndependence(taps: seq<Tap>, poly: seq<seq<real>>, slots: seq<seq<Sample>>, r: nat)
    requires Shaped(taps, poly) && NoLookahead(taps, poly) && Covers(taps, r)
    ensures StreamOut(taps, poly, Zeros(r), slots) == Whole(taps, poly, Flatten(slots))
  {
    if slots != [] {
      var rest, last := slots[..|slots| - 1], slots[|slots| - 1];
      var x := Flatten(rest);
      CutIndependence(taps, poly, rest, r);
      RingHoldsTail(rest, r);
      SlotIsConvolution(taps, poly, x, last, r);
      WholePrefix(taps, poly, x, last);
      var whole := Whole(taps, poly, x + last);
      assert whole == whole[..|x|] + whole[|x|..];
    }
  }

  /** A lone impulse `m` samples late, served in two slots, misses what the one-slot run
      already hears at sample 0. */
  lemma CutMissesLookahead(taps: seq<Tap>, poly: seq<seq<real>>, r: nat, m: int)
    requires Shaped(taps, poly) && Covers(taps, r) && 1 <= m <= 3 && Response(taps, poly, 0 - m) != ZERO
    ensures var slots := [[ZERO], Zeros(m - 1) + [ONE]];
      StreamOut(taps, poly, Zeros(r), slots) != Whole(taps, poly, Flatten(slots))
  {
    hide *;
    var a, b := [ZERO], Zeros(m - 1) + [ONE];
    TwoParts(a, b);
    LateImpulse(m);
    PulseWhole(taps, poly, a + b, m, 0);
    SilentStart(taps, poly, r);
    TwoSlotsOut(taps, poly, r, a, b);
    WholeAt(taps, poly, a + b, 0);
    assert StreamOut(taps, poly, Zeros(r), [a, b])[0] == ZERO;
    assert Whole(taps, poly, Flatten([a, b]))[0] == Response(taps, poly, 0 - m);
  }

  lemma TwoParts(a: seq<Sample>, b: seq<Sample>)
    ensures Flatten([a, b]) == a + b && Flatten([a]) == a
  {
    assert [a, b][..1] == [a] && [a][..0] == [] && Flatten([]) == [];
  }

  lemma LateImpulse(m: int)
    requires 1 <= m
    ensures |[ZERO] + (Zeros(m - 1) + [ONE])| == m + 1
    ensures forall n :: At([ZERO] + (Zeros(m - 1) + [ONE]), n) == Pulse(m, ONE)(n)
  {
  }

  lemma WholeAt(taps: seq<Tap>, poly: seq<seq<real>>, x: seq<Sample>, n: nat)
    requires Shaped(taps, poly) && n < |x|
    ensures Whole(taps, poly, x)[n] == WholeOut(taps, poly, x, n)
  {
  }

  lemma NoHistory(r: nat)
    ensures Zeros(r) == Tail([], r)
  {
  }

  /** Silence in, silence out. */
  lemma SilentStart(taps: seq<Tap>, poly: seq<seq<real>>, r: nat)
    requires Shaped(taps, poly) && Covers(taps, r)
    ensures SlotOut(taps, poly, Zeros(r), [ZERO])[0] == ZERO
  {
    hide Conv, Covers, Shaped, SlotOut, Tail, Zeros;
    NoHistory(r);
    assert [] + [ZERO] == [ZERO];
    SlotSample(taps, poly, [], [ZERO], r, 0);
    SilentOut(m => At([ZERO], m), taps, poly, 0);
  }

  lemma TwoSlotsOut(taps: seq<Tap>, poly: seq<seq<real>>, r: nat, a: seq<Sample>, b: seq<Sample>)
    requires Shaped(taps, poly) && a != []
    ensures |StreamOut(taps, poly, Zeros(r), [a, b])| == |a| + |b|
    ensures StreamOut(taps, poly, Zeros(r), [a, b])[0] == SlotOut(taps, poly, Zeros(r), a)[0]
  {
    hide SlotOut, Shaped, Zeros, Roll;
    TwoParts(a, b);
    assert [a, b][..1] == [a] && [a][..0] == [];
    assert StreamLine(Zeros(r), []) == Zeros(r) && StreamOut(taps, poly, Zeros(r), []) == [];
    assert StreamOut(taps, poly, Zeros(r), [a]) == SlotOut(taps, poly, Zeros(r), a);
  }

  ghost predicate CutFree(taps: seq<Tap>, poly: seq<seq<real>>, r: nat)
    requires Shaped(taps, poly)
  {
    forall slots :: StreamOut(taps, poly, Zeros(r), slots) == Whole(taps, poly, Flatten(slots))
  }

  /** Serving a stream in slots is exact for every cut precisely when the channel's
      response is silent at the three positions ahead of the output. */
  lemma CutFreeExactly(taps: seq<Tap>, poly: seq<seq<real>>, r: nat)
    requires Shaped(taps, poly) && Covers(taps, r)
    ensures CutFree(taps, poly, r) <==> NoLookahead(taps, poly)
  {
    if NoLookahead(taps, poly) {
      forall slots ensures StreamOut(taps, poly, Zeros(r), slots) == Whole(taps, poly, Flatten(slots)) {
        CutIndependence(taps, poly, slots, r);
      }
    } else {
      var m :| -3 <= m < 0 && Response(taps, poly, m) != ZERO;
      CutMissesLookahead(taps, poly, r, -m);
    }
  }

  // ---- Doing nothing ------------------------------------------------------------------------

  /** The impulse response is the unit impulse itself. */
  ghost predicate Transparent(taps: seq<Tap>, poly: seq<seq<real>>)
    requires Shaped(taps, poly)
  {
    forall m :: Response(taps, poly, m) == Pulse(0, ONE)(m)
  }

  lemma Units(v: Sample)
    ensures Rotate(v, ONE) == v && Rotate(ONE, v) == v && Rotate(v, ZERO) == ZERO && Rotate(ZERO, v) == ZERO
    ensures Add(ZERO, v) == v && Add(v, ZERO) == v && Scale(v, 1.0) == v
  {
  }

  lemma SumStep(f: Signal, taps: seq<Tap>, poly: seq<seq<real>>, n: int, lo: int, hi: int)
    requires Shaped(taps, poly) && lo < hi
    ensures ResponseSum(f, taps, poly, n, lo, hi) ==
            Add(ResponseSum(f, taps, poly, n, lo, hi - 1), Rotate(f(hi - 1), Response(taps, poly, n - (hi - 1))))
  {
    hide Response, Add, Rotate;
  }

  lemma {:induction false} TransparentSum(f: Signal, taps: seq<Tap>, poly: seq<seq<real>>, n: int, lo: int, hi: int)
    requires Shaped(taps, poly) && Transparent(taps, poly) && lo <= hi
    ensures ResponseSum(f, taps, poly, n, lo, hi) == if lo <= n < hi then f(n) else ZERO
    decreases hi - lo
  {
    hide Response, Add, Rotate, Shaped;
    if lo < hi {
      TransparentSum(f, taps, poly, n, lo, hi - 1);
      SumStep(f, taps, poly, n, lo, hi);
      assert Response(taps, poly, n - (hi - 1)) == Pulse(0, ONE)(n - (hi - 1));
      Units(f(hi - 1));
      Units(ResponseSum(f, taps, poly, n, lo, hi - 1));
    }
  }

  lemma TransparentConv(f: Signal, taps: seq<Tap>, poly: seq<seq<real>>, n: int)
    requires Shaped(taps, poly) && Transparent(taps, poly)
    ensures Conv(f, taps, poly, n, |taps|) == f(n)
  {
    hide Conv, ResponseSum, Transparent, Shaped;
    ConvIsResponse(f, taps, poly, n, n - RingSize(taps));
    TransparentSum(f, taps, poly, n, n - RingSize(taps), n + 4);
  }

  /** A slot passes through a transparent channel unchanged, whatever its ring holds. */
  lemma TransparentSlot(taps: seq<Tap>, poly: seq<seq<real>>, line: seq<Sample>, input: seq<Sample>)
    requires Shaped(taps, poly) && Transparent(taps, poly)
    ensures SlotOut(taps, poly, line, input) == input
  {
    forall n | 0 <= n < |input| ensures SlotOut(taps, poly, line, input)[n] == input[n] {
      TransparentConv(m => Read(line, input, m), taps, poly, n);
    }
  }

  lemma PulseWhole(taps: seq<Tap>, poly: seq<seq<real>>, input: seq<Sample>, p: nat, at: nat)
    requires Shaped(taps, poly) && forall n :: At(input, n) == Pulse(p, ONE)(n)
    ensures WholeOut(taps, poly, input, at) == Response(taps, poly, at - p)
  {
    hide Response, Conv, Shaped, Covers;
    ConvAgrees(m => At(input, m), Pulse(p, ONE), taps, poly, at, at, |taps|);
    PulseOut(taps, poly, p, ONE, at);
    Units(Response(taps, poly, at - p));
  }

  function Impulse(p: nat, count: nat): (x: seq<Sample>)
    ensures |x| == count
    ensures p < count ==> forall n :: At(x, n) == Pulse(p, ONE)(n)
  {
    seq(count, n requires 0 <= n < count => Pulse(p, ONE)(n))
  }

  /** A slot holding one impulse at `p` hears the response at `at - p` in position `at`. */
  lemma PulseSlot(taps: seq<Tap>, poly: seq<seq<real>>, r: nat, p: nat, at: nat)
    requires Shaped(taps, poly) && Covers(taps, r)
    ensures SlotOut(taps, poly, Zeros(r), Impulse(p, p + at + 1))[at] == Response(taps, poly, at - p)
  {
    hide *;
    var input := Impulse(p, p + at + 1);
    NoHistory(r);
    assert [] + input == input;
    SlotSample(taps, poly, [], input, r, at);
    PulseWhole(taps, poly, input, p, at);
  }

  lemma OpaqueAt(taps: seq<Tap>, poly: seq<seq<real>>, r: nat, m: int)
    requires Shaped(taps, poly) && Covers(taps, r) && Response(taps, poly, m) != Pulse(0, ONE)(m)
    ensures exists input :: SlotOut(taps, poly, Zeros(r), input) != input
  {
    hide Response, Shaped, Covers, SlotOut, Zeros;
    var p := if m < 0 then 0 - m else 0;
    var input := Impulse(p, p + (m + p) + 1);
    PulseSlot(taps, poly, r, p, m + p);
    assert input[m + p] == At(input, m + p) == Pulse(0, ONE)(m);
    assert SlotOut(taps, poly, Zeros(r), input) != input;
  }

  /** Any other channel changes some stream, already in its first slot. */
  lemma OpaqueChanges(taps: seq<Tap>, poly: seq<seq<real>>, r: nat)
    requires Shaped(taps, poly) && Covers(taps, r) && !Transparent(taps, poly)
    ensures exists input :: SlotOut(taps, poly, Zeros(r), input) != input
  {
    hide Response, Shaped, Covers, SlotOut;
    var m :| Response(taps, poly, m) != Pulse(0, ONE)(m);
    OpaqueAt(taps, poly, r, m);
  }
}

/** How deep a history ring must be: exactly as deep as the channel's response reaches. */
module TdlRing {
  import opened Iq
  import opened Tdl
  import opened TdlStream
  import opened TdlResponse

  /** The response has died out beyond `r` samples back. */
  ghost predicate DiesOut(taps: seq<Tap>, poly: seq<seq<real>>, r: nat)
    requires Shaped(taps, poly)
  {
    forall m :: m > r ==> Response(taps, poly, m) == ZERO
  }

  lemma CoveredDiesOut(taps: seq<Tap>, poly: seq<seq<real>>, r: nat)
    requires Shaped(taps, poly) && Covers(taps, r)
    ensures DiesOut(taps, poly, r)
  {
    forall m | m > r ensures Response(taps, poly, m) == ZERO {
      Beyond(taps, poly, r, m);
    }
  }

  lemma Beyond(taps: seq<Tap>, poly: seq<seq<real>>, r: nat, m: int)
    requires Shaped(taps, poly) && Covers(taps, r) && m > r
    ensures Response(taps, poly, m) == ZERO
  {
    hide Conv, Add, Scale, Rotate;
    forall j, i | 0 <= j < |taps| && 0 <= i < FILTER
      ensures poly[j][i] == 0.0 ||
              Pulse(0, ONE)(m - taps[j].Whole() + 3 - i) == Pulse(0, ZERO)(m - taps[j].Whole() + 3 - i)
    {
      assert taps[j].Whole() + 4 <= r;
    }
    ConvAgrees(Pulse(0, ONE), Pulse(0, ZERO), taps, poly, m, m, |taps|);
    PulseOut(taps, poly, 0, ZERO, m);
    AddSilence(Response(taps, poly, m));
  }

  // ---- Deep enough --------------------------------------------------------------------------

  lemma {:induction false} PastSum(f: Signal, taps: seq<Tap>, poly: seq<seq<real>>, n: int, r: nat, lo: int, hi: int)
    requires Shaped(taps, poly) && DiesOut(taps, poly, r) && lo <= hi && hi <= n - r
    ensures ResponseSum(f, taps, poly, n, lo, hi) == ZERO
    decreases hi - lo
  {
    hide Response, Shaped;
    if lo < hi {
      PastSum(f, taps, poly, n, r, lo, hi - 1);
      assert n - (hi - 1) > r;
      AddSilence(ZERO);
      Units(f(hi - 1));
      SumStep(f, taps, poly, n, lo, hi);
    }
  }

  /** What happened more than `r` samples ago no longer matters. */
  lemma PastSilent(f: Signal, taps: seq<Tap>, poly: seq<seq<real>>, n: int, r: nat, hi: int)
    requires Shaped(taps, poly) && DiesOut(taps, poly, r) && hi <= n - r
    requires forall m :: m >= hi ==> f(m) == ZERO
    ensures Conv(f, taps, poly, n, |taps|) == ZERO
  {
    var lo := if hi < n - RingSize(taps) then hi else n - RingSize(taps);
    assert forall k :: 0 <= k < |taps| ==> taps[k].Whole() + FILTER <= RingSize(taps);
    hide Conv, ResponseSum, Response, DiesOut;
    ConvAgrees(f, Window(f, lo, hi), taps, poly, n, n, |taps|);
    WindowOut(f, taps, poly, n, lo, hi);
    PastSum(f, taps, poly, n, r, lo, hi);
  }

  lemma ReadSplit(x: seq<Sample>, input: seq<Sample>, r: nat, m: int)
    ensures At(x + input, |x| + m) ==
            Add(Read(Tail(x, r), input, m), if m < 0 - r then At(x + input, |x| + m) else ZERO)
  {
    if m >= 0 - r {
      ReadIsStream(x, input, r, m);
    }
  }

  lemma DeepConv(read: Signal, past: Signal, whole: Signal, taps: seq<Tap>, poly: seq<seq<real>>, n: int, r: nat)
    requires Shaped(taps, poly) && DiesOut(taps, poly, r) && 0 <= n
    requires forall m :: whole(m) == Add(read(m), past(m))
    requires forall m :: m >= 0 - r ==> past(m) == ZERO
    ensures Conv(whole, taps, poly, n, |taps|) == Conv(read, taps, poly, n, |taps|)
  {
    hide Conv, Add, Shaped, DiesOut, Response;
    ConvAdds(read, past, whole, taps, poly, n, |taps|);
    PastSilent(past, taps, poly, n, r, 0 - r);
    Units(Conv(read, taps, poly, n, |taps|));
  }

  lemma SlotIsRead(taps: seq<Tap>, poly: seq<seq<real>>, line: seq<Sample>, input: seq<Sample>, n: nat)
    requires Shaped(taps, poly) && n < |input|
    ensures SlotOut(taps, poly, line, input)[n] == Conv(m => Read(line, input, m), taps, poly, n, |taps|)
  {
  }

  lemma WholeShift(taps: seq<Tap>, poly: seq<seq<real>>, y: seq<Sample>, d: nat, n: nat)
    requires Shaped(taps, poly)
    ensures Conv(m => At(y, d + m), taps, poly, n, |taps|) == WholeOut(taps, poly, y, d + n)
  {
    hide Conv, At;
    ConvAgrees(m => At(y, d + m), m => At(y, m), taps, poly, n, d + n, |taps|);
  }

  /** A slot after history `x`, with any ring at least as deep as the response. */
  lemma DeepSample(taps: seq<Tap>, poly: seq<seq<real>>, x: seq<Sample>, input: seq<Sample>, r: nat, n: nat)
    requires Shaped(taps, poly) && DiesOut(taps, poly, r) && n < |input|
    ensures SlotOut(taps, poly, Tail(x, r), input)[n] == WholeOut(taps, poly, x + input, |x| + n)
  {
    hide *;
    var line, y := Tail(x, r), x + input;
    var read: Signal := m => Read(line, input, m);
    var whole: Signal := m => At(y, |x| + m);
    var past: Signal := m => if m < 0 - r then At(y, |x| + m) else ZERO;
    forall m ensures whole(m) == Add(read(m), past(m)) { ReadSplit(x, input, r, m); }
    forall m | m >= 0 - r ensures past(m) == ZERO {}
    SlotIsRead(taps, poly, line, input, n);
    WholeShift(taps, poly, y, |x|, n);
    DeepConv(read, past, whole, taps, poly, n, r);
  }

  lemma DeepSlot(taps: seq<Tap>, poly: seq<seq<real>>, x: seq<Sample>, input: seq<Sample>, r: nat)
    requires Shaped(taps, poly) && DiesOut(taps, poly, r)
    ensures SlotOut(taps, poly, Tail(x, r), input) == Whole(taps, poly, x + input)[|x|..]
  {
    hide DiesOut;
    forall n | 0 <= n < |input|
      ensures SlotOut(taps, poly, Tail(x, r), input)[n] == WholeOut(taps, poly, x + input, |x| + n)
    {
      DeepSample(taps, poly, x, input, r, n);
    }
  }

  /** Two empty rings deep enough for the channel serve every cut of every stream alike. */
  lemma {:induction false} DeepRingsAgree(taps: seq<Tap>, poly: seq<seq<real>>, slots: seq<seq<Sample>>, r: nat, r': nat)
    requires Shaped(taps, poly) && DiesOut(taps, poly, r) && DiesOut(taps, poly, r')
    ensures StreamOut(taps, poly, Zeros(r), slots) == StreamOut(taps, poly, Zeros(r'), slots)
  {
    hide DiesOut;
    if slots != [] {
      var rest, last := slots[..|slots| - 1], slots[|slots| - 1];
      DeepRingsAgree(taps, poly, rest, r, r');
      RingHoldsTail(rest, r);
      RingHoldsTail(rest, r');
      DeepSlot(taps, poly, Flatten(rest), last, r);
      DeepSlot(taps, poly, Flatten(rest), last, r');
    }
  }

  // ---- Too shallow ------------------------------------------------------------------------------

  lemma TwoSlots(taps: seq<Tap>, poly: seq<seq<real>>, r: nat, a: seq<Sample>, b: seq<Sample>)
    requires Shaped(taps, poly)
    ensures StreamOut(taps, poly, Zeros(r), [a, b]) ==
            SlotOut(taps, poly, Zeros(r), a) + SlotOut(taps, poly, Tail(a, r), b)
  {
    var slots := [a, b];
    assert slots[..1] == [a] && [a][..0] == [] && Zeros(r) == Tail([], r) && [] + a == a;
    RollIsTail([], a, r);
    assert StreamOut(taps, poly, Zeros(r), []) == [] && StreamLine(Zeros(r), []) == Zeros(r);
    assert StreamOut(taps, poly, Zeros(r), [a]) == SlotOut(taps, poly, Zeros(r), a);
    assert StreamLine(Zeros(r), [a]) == Tail(a, r);
  }

  lemma ForgottenPulse(taps: seq<Tap>, poly: seq<seq<real>>, r: nat, m: nat)
    requires Shaped(taps, poly) && m > r
    ensures SlotOut(taps, poly, Tail(Impulse(0, m), r), [ZERO])[0] == ZERO
  {
    var line := Tail(Impulse(0, m), r);
    forall j | 0 <= j < r ensures line[j] == ZERO {
      assert line[j] == At(Impulse(0, m), m - r + j) == Pulse(0, ONE)(m - r + j);
    }
    var read: Signal := p => Read(line, [ZERO], p);
    assert forall p :: read(p) == ZERO;
    hide Conv, Read, Tail, Zeros, Impulse;
    SilentOut(read, taps, poly, 0);
  }

  lemma RememberedPulse(taps: seq<Tap>, poly: seq<seq<real>>, r: nat, m: nat)
    requires Shaped(taps, poly) && DiesOut(taps, poly, r) && m > 0
    ensures SlotOut(taps, poly, Tail(Impulse(0, m), r), [ZERO])[0] == Response(taps, poly, m)
  {
    var x := Impulse(0, m);
    forall n ensures At(x + [ZERO], n) == Pulse(0, ONE)(n) {
      assert At(x, n) == Pulse(0, ONE)(n);
    }
    hide DiesOut, Response, SlotOut, Tail, WholeOut, Impulse;
    DeepSample(taps, poly, x, [ZERO], r, 0);
    PulseWhole(taps, poly, x + [ZERO], 0, m);
  }

  /** A short ring loses exactly the echoes that outlive it. */
  lemma ShallowRingLoses(taps: seq<Tap>, poly: seq<seq<real>>, r: nat, deep: nat, m: nat)
    requires Shaped(taps, poly) && DiesOut(taps, poly, deep) && m > r && Response(taps, poly, m) != ZERO
    ensures var slots := [Impulse(0, m), [ZERO]];
      StreamOut(taps, poly, Zeros(r), slots) != StreamOut(taps, poly, Zeros(deep), slots)
  {
    hide DiesOut, Response, SlotOut, Tail, StreamOut, Impulse;
    var a, b := Impulse(0, m), [ZERO];
    TwoSlots(taps, poly, r, a, b);
    TwoSlots(taps, poly, deep, a, b);
    ForgottenPulse(taps, poly, r, m);
    RememberedPulse(taps, poly, deep, m);
    assert (SlotOut(taps, poly, Zeros(r), a) + SlotOut(taps, poly, Tail(a, r), b))[m] == ZERO;
    assert (SlotOut(taps, poly, Zeros(deep), a) + SlotOut(taps, poly, Tail(a, deep), b))[m] == Response(taps, poly, m);
  }

  ghost predicate SameStreams(taps: seq<Tap>, poly: seq<seq<real>>, r: nat, r': nat)
    requires Shaped(taps, poly)
  {
    forall slots :: StreamOut(taps, poly, Zeros(r), slots) == StreamOut(taps, poly, Zeros(r'), slots)
  }

  /** A ring of `r` serves like one sized for these taps on every cut of every stream
      precisely when the response has died out after `r` samples. */
  lemma RingExactly(taps: seq<Tap>, poly: seq<seq<real>>, r: nat, deep: nat)
    requires Shaped(taps, poly) && Covers(taps, deep)
    ensures SameStreams(taps, poly, r, deep) <==> DiesOut(taps, poly, r)
  {
    CoveredDiesOut(taps, poly, deep);
    if DiesOut(taps, poly, r) {
      forall slots ensures StreamOut(taps, poly, Zeros(r), slots) == StreamOut(taps, poly, Zeros(deep), slots) {
        DeepRingsAgree(taps, poly, slots, r, deep);
      }
    } else {
      var m :| m > r && Response(taps, poly, m) != ZERO;
      ShallowRingLoses(taps, poly, r, deep, m);
    }
  }
}

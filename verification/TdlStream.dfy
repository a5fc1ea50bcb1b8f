/** Cutting a stream into slots does not change what the tapped delay line computes. */
module TdlStream {
  import opened Iq
  import opened Tdl

  /** The last `r` samples of a stream with silence before it. */
  function Tail(x: seq<Sample>, r: nat): (t: seq<Sample>)
    ensures |t| == r
    ensures forall j :: 0 <= j < r ==> t[j] == At(x, |x| - r + j)
  {
    seq(r, j requires 0 <= j < r => At(x, |x| - r + j))
  }

  lemma RollIsTail(x: seq<Sample>, input: seq<Sample>, r: nat)
    ensures Roll(Tail(x, r), input) == Tail(x + input, r)
  {
    var line := Tail(x, r);
    if |input| < r {
      forall j | 0 <= j < r ensures Roll(line, input)[j] == Tail(x + input, r)[j] {
        assert j < r - |input| ==> Roll(line, input)[j] == line[j + |input|];
      }
    }
  }

  lemma {:induction false} FilterAgrees(f: Signal, g: Signal, h: seq<real>, p: int, q: int, i: nat)
    requires i <= |h|
    requires forall m :: 0 <= m < i ==> h[m] == 0.0 || f(p + 3 - m) == g(q + 3 - m)
    ensures Filter(f, h, p, i) == Filter(g, h, q, i)
  {
    if i > 0 {
      FilterAgrees(f, g, h, p, q, i - 1);
    }
  }

  /** Two signals give the same output wherever they agree on the samples that carry a
      nonzero coefficient. */
  lemma {:induction false} ConvAgrees(f: Signal, g: Signal, taps: seq<Tap>, poly: seq<seq<real>>, n: int, m: int, k: nat)
    requires Shaped(taps, poly) && k <= |taps|
    requires forall j, i :: 0 <= j < k && 0 <= i < FILTER ==>
               poly[j][i] == 0.0 || f(n - taps[j].Whole() + 3 - i) == g(m - taps[j].Whole() + 3 - i)
    ensures Conv(f, taps, poly, n, k) == Conv(g, taps, poly, m, k)
  {
    if k > 0 {
      ConvAgrees(f, g, taps, poly, n, m, k - 1);
      FilterAgrees(f, g, poly[k - 1], n - taps[k - 1].Whole(), m - taps[k - 1].Whole(), FILTER);
    }
  }

  /** Running slot by slot: the ring afterwards, and the outputs so far. */
  function StreamLine(line: seq<Sample>, slots: seq<seq<Sample>>): (l: seq<Sample>)
    ensures |l| == |line|
  {
    if slots == [] then line else Roll(StreamLine(line, slots[..|slots| - 1]), slots[|slots| - 1])
  }

  function StreamOut(taps: seq<Tap>, poly: seq<seq<real>>, line: seq<Sample>, slots: seq<seq<Sample>>): (y: seq<Sample>)
    requires Shaped(taps, poly)
    ensures |y| == |Flatten(slots)|
  {
    if slots == [] then []
    else
      var rest := slots[..|slots| - 1];
      StreamOut(taps, poly, line, rest) + SlotOut(taps, poly, StreamLine(line, rest), slots[|slots| - 1])
  }

  lemma {:induction false} RingHoldsTail(slots: seq<seq<Sample>>, r: nat)
    ensures StreamLine(Zeros(r), slots) == Tail(Flatten(slots), r)
  {
    if slots == [] {
      assert forall j :: 0 <= j < r ==> Tail([], r)[j] == ZERO;
    } else {
      RingHoldsTail(slots[..|slots| - 1], r);
      RollIsTail(Flatten(slots[..|slots| - 1]), slots[|slots| - 1], r);
    }
  }

  /** Reading the slot and its ring is reading the stream, down to the ring's depth. */
  lemma ReadIsStream(x: seq<Sample>, input: seq<Sample>, r: nat, idx: int)
    requires r + idx >= 0
    ensures Read(Tail(x, r), input, idx) == At(x + input, |x| + idx)
  {
  }

  lemma SlotSample(taps: seq<Tap>, poly: seq<seq<real>>, x: seq<Sample>, input: seq<Sample>, r: nat, n: nat)
    requires Shaped(taps, poly) && Covers(taps, r) && n < |input|
    ensures SlotOut(taps, poly, Tail(x, r), input)[n] == WholeOut(taps, poly, x + input, |x| + n)
  {
    var f: Signal := m => Read(Tail(x, r), input, m);
    var g: Signal := m => At(x + input, m);
    forall j, i | 0 <= j < |taps| && 0 <= i < FILTER
      ensures poly[j][i] == 0.0 || f(n - taps[j].Whole() + 3 - i) == g(|x| + n - taps[j].Whole() + 3 - i)
    {
      assert taps[j].Whole() + 4 <= r;
      ReadIsStream(x, input, r, n - taps[j].Whole() + 3 - i);
    }
    ConvAgrees(f, g, taps, poly, n, |x| + n, |taps|);
  }

  /** A slot after history `x` computes the whole-stream convolution of everything up to
      that slot's end, with silence beyond it, as long as the ring reaches far enough.
      The slot may be shorter than the ring. */
  lemma SlotIsConvolution(taps: seq<Tap>, poly: seq<seq<real>>, x: seq<Sample>, input: seq<Sample>, r: nat)
    requires Shaped(taps, poly) && Covers(taps, r)
    ensures SlotOut(taps, poly, Tail(x, r), input) == Whole(taps, poly, x + input)[|x|..]
  {
    forall n | 0 <= n < |input|
      ensures SlotOut(taps, poly, Tail(x, r), input)[n] == WholeOut(taps, poly, x + input, |x| + n)
    {
      SlotSample(taps, poly, x, input, r, n);
    }
  }

  /** Whatever the filter looks ahead at: the n-th slot's outputs are the convolution of everything
      up to that slot's end. */
  lemma EverySlotIsConvolution(taps: seq<Tap>, poly: seq<seq<real>>, slots: seq<seq<Sample>>, r: nat, n: nat)
    requires Shaped(taps, poly) && Covers(taps, r) && n < |slots|
    ensures SlotOut(taps, poly, StreamLine(Zeros(r), slots[..n]), slots[n]) ==
            Whole(taps, poly, Flatten(slots[..n]) + slots[n])[|Flatten(slots[..n])|..]
  {
    RingHoldsTail(slots[..n], r);
    SlotIsConvolution(taps, poly, Flatten(slots[..n]), slots[n], r);
  }
}

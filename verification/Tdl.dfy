/**
 The tapped-delay-line step of include/ocudu_gpu_channel/delay.h: an 8-coefficient
 fractional-delay filter per tap, fed slot by slot through a history ring.  A tap's
 linear gain, its rotation and its filter coefficients are given numbers.
 */
module Tdl {
  import opened Iq

  const FILTER: nat := 8

  datatype Tap = Tap(delay: real, gain: real, rotation: Sample)
  {
    function Whole(): int { delay.Floor }
  }

  type Signal = int -> Sample

  predicate Shaped(taps: seq<Tap>, poly: seq<seq<real>>) {
    && |taps| == |poly|
    && (forall k :: 0 <= k < |taps| ==> taps[k].delay >= 0.0)
    && forall k :: 0 <= k < |poly| ==> |poly[k]| == FILTER
  }

  /** The first `i` terms of one tap's filter around position `pos`. */
  function Filter(f: Signal, h: seq<real>, pos: int, i: nat): Sample
    requires i <= |h|
  {
    if i == 0 then ZERO else Add(Filter(f, h, pos, i - 1), Scale(f(pos + 3 - (i - 1)), h[i - 1]))
  }

  /** One tap's share of the output. */
  function TapOut(x: Sample, t: Tap): Sample {
    Scale(Rotate(x, t.rotation), t.gain)
  }

  /** The first `k` taps' contributions to output sample `n`. */
  function Conv(f: Signal, taps: seq<Tap>, poly: seq<seq<real>>, n: int, k: nat): Sample
    requires Shaped(taps, poly) && k <= |taps|
  {
    if k == 0 then ZERO
    else
      var t := taps[k - 1];
      Add(Conv(f, taps, poly, n, k - 1),
          TapOut(Filter(f, poly[k - 1], n - t.Whole(), FILTER), t))
  }

  /** Output sample `n` of the channel run on the whole stream `x` at once. */
  function WholeOut(taps: seq<Tap>, poly: seq<seq<real>>, x: seq<Sample>, n: int): Sample
    requires Shaped(taps, poly)
  {
    Conv(m => At(x, m), taps, poly, n, |taps|)
  }

  /** The channel as one convolution over the whole stream. */
  function Whole(taps: seq<Tap>, poly: seq<seq<real>>, x: seq<Sample>): (y: seq<Sample>)
    requires Shaped(taps, poly)
    ensures |y| == |x|
  {
    seq(|x|, n requires 0 <= n < |x| => WholeOut(taps, poly, x, n))
  }

  /** What the step reads at slot position `idx`: the slot, then the ring, then silence. */
  function Read(line: seq<Sample>, input: seq<Sample>, idx: int): Sample {
    if idx >= |input| then ZERO
    else if idx >= 0 then input[idx]
    else if |line| + idx < 0 then ZERO
    else line[|line| + idx]
  }

  /** One slot's outputs. */
  function SlotOut(taps: seq<Tap>, poly: seq<seq<real>>, line: seq<Sample>, input: seq<Sample>): (y: seq<Sample>)
    requires Shaped(taps, poly)
    ensures |y| == |input|
  {
    seq(|input|, n requires 0 <= n < |input| => Conv(m => Read(line, input, m), taps, poly, n, |taps|))
  }

  /** The ring after a slot. */
  function Roll(line: seq<Sample>, input: seq<Sample>): (r: seq<Sample>)
    ensures |r| == |line|
  {
    if |input| >= |line| then input[|input| - |line|..] else line[|input|..] + input
  }

  // ---- Sizing ---------------------------------------------------------------------------

  function Ceil(x: real): int {
    -((-x).Floor)
  }

  function MaxDelay(taps: seq<Tap>): (m: real)
    ensures m >= 0.0 && forall k :: 0 <= k < |taps| ==> taps[k].delay <= m
  {
    if taps == [] then 0.0
    else
      var m := MaxDelay(taps[..|taps| - 1]);
      var d := taps[|taps| - 1].delay;
      if d > m then d else m
  }

  function RingSize(taps: seq<Tap>): (r: nat)
    ensures forall k :: 0 <= k < |taps| ==> taps[k].Whole() + FILTER <= r
  {
    Ceil(MaxDelay(taps)) + FILTER
  }

  /** The ring reaches back to the oldest sample any tap asks for. */
  predicate Covers(taps: seq<Tap>, ring: nat) {
    forall k :: 0 <= k < |taps| ==> taps[k].Whole() + 4 <= ring
  }

  function Polyphase(taps: seq<Tap>, sinc: real -> seq<real>): (poly: seq<seq<real>>)
    ensures |poly| == |taps|
  {
    seq(|taps|, k requires 0 <= k < |taps| => sinc(taps[k].delay - taps[k].Whole() as real))
  }

  /** One-shot setup of a link's tap state (delay.h:78-96).  `sinc` stands for the
      windowed-sinc design; an existing ring that is long enough is left alone. */
  method PrepareTdlState(taps: seq<Tap>, sinc: real -> seq<real>, line: array<Sample>)
      returns (poly: seq<seq<real>>, line': array<Sample>)
    requires forall k :: 0 <= k < |taps| ==> taps[k].delay >= 0.0
    ensures poly == Polyphase(taps, sinc)
    ensures line'.Length >= RingSize(taps) && Covers(taps, line'.Length)
    ensures if line.Length < RingSize(taps) then fresh(line') && line'[..] == Zeros(RingSize(taps)) else line' == line
  {
    poly := [];
    var maxTau := 0.0;
    for k := 0 to |taps|
      invariant poly == Polyphase(taps, sinc)[..k]
      invariant maxTau == MaxDelay(taps[..k])
    {
      var tau := taps[k].delay;
      maxTau := if tau > maxTau then tau else maxTau;
      var frac := tau - tau.Floor as real;
      poly := poly + [sinc(frac)];
      assert taps[..k + 1][..k] == taps[..k];
    }
    assert taps[..|taps|] == taps;
    var ringSize := Ceil(maxTau) + FILTER;
    line' := line;
    if line.Length < ringSize {
      line' := new Sample[ringSize](_ => ZERO);
    }
  }

  /** The step itself, as the nested loops and in-place roll of delay.h:109-175, writing
      its slot into `out` from `base` on. */
  method ApplyTdlStep(input: seq<Sample>, out: array<Sample>, base: nat,
                      taps: seq<Tap>, poly: seq<seq<real>>, line: array<Sample>)
    requires Shaped(taps, poly) && base + |input| <= out.Length && out != line
    modifies out, line
    ensures out[base..base + |input|] == SlotOut(taps, poly, old(line[..]), input)
    ensures forall p :: 0 <= p < out.Length && !(base <= p < base + |input|) ==> out[p] == old(out[p])
    ensures line[..] == Roll(old(line[..]), input)
  {
    var count := |input|;
    ghost var was := line[..];
    ghost var f := m => Read(was, input, m);
    for n := 0 to count
      invariant line[..] == was
      invariant out[base..base + n] == SlotOut(taps, poly, was, input)[..n]
      invariant forall p :: 0 <= p < out.Length && !(base <= p < base + count) ==> out[p] == old(out[p])
    {
      var acc := ZERO;
      for k := 0 to |taps|
        invariant acc == Conv(f, taps, poly, n, k)
      {
        var tauInt := taps[k].delay.Floor;
        var h := poly[k];
        var x := ZERO;
        for i := 0 to FILTER
          invariant x == Filter(f, h, n - tauInt, i)
        {
          var idx := n - tauInt + 3 - i;
          var s := ZERO;
          if idx < count {
            if idx >= 0 {
              s := input[idx];
            } else if line.Length + idx >= 0 {
              s := line[line.Length + idx];
              assert s == was[|was| + idx];
            }
          }
          assert s == f(idx);
          x := Add(x, Scale(s, h[i]));
        }
        acc := Add(acc, Scale(Rotate(x, taps[k].rotation), taps[k].gain));
      }
      out[base + n] := acc;
      assert out[base..base + n + 1] == out[base..base + n] + [acc];
    }
    RollLine(input, line);
  }

  /** Keeps the last `line.Length` samples of history plus slot, in place. */
  method RollLine(input: seq<Sample>, line: array<Sample>)
    modifies line
    ensures line[..] == Roll(old(line[..]), input)
  {
    ghost var was := line[..];
    var count, size := |input|, line.Length;
    if count >= size {
      for j := 0 to size
        invariant forall m :: 0 <= m < j ==> line[m] == input[count - size + m]
      {
        line[j] := input[count - size + j];
      }
    } else {
      var keep := size - count;
      for j := 0 to keep
        invariant forall m :: 0 <= m < j ==> line[m] == was[m + count]
        invariant forall m :: j <= m < size ==> line[m] == was[m]
      {
        line[j] := line[j + count];
      }
      for j := 0 to count
        invariant forall m :: 0 <= m < keep ==> line[m] == was[m + count]
        invariant forall m :: 0 <= m < j ==> line[keep + m] == input[m]
      {
        line[keep + j] := input[j];
      }
    }
  }
}

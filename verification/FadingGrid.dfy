/**
 The coarse grid a fading gain is interpolated from (include/ocudu_gpu_channel/delay.h:301-397)
 and the device's bounded copy of it (src/device_channel.cu:84-198).  The grid's values are
 given: both sides sample the same gain process.
 */
module FadingGrid {
  import opened Iq

  const DEVICE_POINTS: nat := 32

  function Max1(n: int): (m: nat)
    ensures m >= 1
  {
    if n < 1 then 1 else n
  }

  /** Samples between grid points: a time in microseconds, rounded, at least one sample. */
  function Stride(gridUs: real, rate: real): (s: nat)
    ensures s >= 1
  {
    Max1((gridUs * 0.000001 * rate + 0.5).Floor)
  }

  function Points(count: nat, stride: nat): nat
    requires stride > 0
  {
    (count + stride - 1) / stride + 1
  }

  function Min(a: int, b: int): int {
    if a < b then a else b
  }

  /** Between two grid values. */
  function Between(a: Sample, b: Sample, w: real): Sample {
    Add(Scale(a, 1.0 - w), Scale(b, w))
  }

  /** The gain at sample `n`: the straight line between the grid points around it. */
  function Gain(grid: nat -> Sample, stride: nat, n: nat): Sample
    requires stride > 0
  {
    Between(grid(n / stride), grid(n / stride + 1), (n % stride) as real / stride as real)
  }

  lemma Quotients(count: nat, stride: nat, n: nat)
    requires stride > 0 && n < count
    ensures n / stride + 1 < Points(count, stride)
    ensures n - (n / stride) * stride == n % stride
  {
    var q, p := n / stride, (count + stride - 1) / stride;
    assert n == q * stride + n % stride;
    assert count + stride - 1 == p * stride + (count + stride - 1) % stride;
    if q + 1 > p {
      assert q >= p;
      Multiples(p, q, stride);
    }
  }

  lemma Multiples(p: nat, q: nat, s: nat)
    requires p <= q
    ensures p * s <= q * s
  {
  }

  lemma GainHere(grid: nat -> Sample, count: nat, stride: nat, n: nat)
    requires stride > 0 && n < count
    ensures n / stride + 1 < Points(count, stride)
    ensures Gain(grid, stride, n) ==
            Between(grid(n / stride), grid(n / stride + 1), (n - (n / stride) * stride) as real / stride as real)
  {
    Quotients(count, stride, n);
  }

  /** The host's loop: every index it forms lies inside the grid it sized, and its gains are
      the interpolation. */
  method HostGains(grid: nat -> Sample, count: nat, gridUs: real, rate: real) returns (gains: seq<Sample>)
    ensures |gains| == count && forall n :: 0 <= n < count ==> gains[n] == Gain(grid, Stride(gridUs, rate), n)
  {
    hide Points, Gain, Stride;
    var stride := Stride(gridUs, rate);
    var points := Points(count, stride);
    var g := new Sample[points];
    for k := 0 to points
      invariant forall j :: 0 <= j < k ==> g[j] == grid(j)
    {
      g[k] := grid(k);
    }
    gains := [];
    for n := 0 to count
      invariant forall j :: 0 <= j < points ==> g[j] == grid(j)
      invariant |gains| == n && forall m :: 0 <= m < n ==> gains[m] == Gain(grid, stride, m)
    {
      GainHere(grid, count, stride, n);
      var floor := n / stride;
      var ceil := Min(floor + 1, points - 1);
      var w := (n - floor * stride) as real / stride as real;
      assert ceil == floor + 1 && g[floor] == grid(floor) && g[ceil] == grid(floor + 1);
      gains := gains + [Add(Scale(g[floor], 1.0 - w), Scale(g[ceil], w))];
    }
  }

  /** The device's gain: the same with the grid cut off after 32 points. */
  function DeviceGain(grid: nat -> Sample, count: nat, stride: nat, n: nat): Sample
    requires stride > 0
  {
    var points := Min(Points(count, stride), DEVICE_POINTS);
    var floor := Min(n / stride, points - 1);
    var ceil := Min(n / stride + 1, points - 1);
    Between(grid(floor), grid(ceil), (n - floor * stride) as real / stride as real)
  }

  lemma EndOfGrid(a: Sample, b: Sample, c: Sample)
    ensures Between(a, b, 0.0) == Between(a, c, 0.0) == a
    ensures Between(a, a, 1.0) == a
  {
  }

  /** Up to the last point the device holds, nothing is lost. */
  lemma DeviceFits(grid: nat -> Sample, count: nat, stride: nat, n: nat)
    requires stride > 0 && n < count && n <= 31 * stride
    ensures DeviceGain(grid, count, stride, n) == Gain(grid, stride, n)
  {
    Quotients(count, stride, n);
    var q := n / stride;
    assert n == q * stride + n % stride;
    if q >= 31 {
      Multiples(31, q, stride);
      assert n % stride == 0 && q * stride == 31 * stride;
      if q > 31 { Multiples(32, q, stride); }
      assert 0 as real / stride as real == 0.0;
      EndOfGrid(grid(31), grid(31), grid(32));
    }
  }

  /** One sample further the device repeats its last point. */
  lemma DeviceStops(grid: nat -> Sample, count: nat, stride: nat)
    requires stride > 0 && 31 * stride + 1 < count
    ensures DeviceGain(grid, count, stride, 31 * stride + 1) == grid(31)
  {
    var n := 31 * stride + 1;
    Quotients(count, stride, n);
    var q := n / stride;
    assert n == q * stride + n % stride;
    if stride == 1 {
      assert q == 32;
      EndOfGrid(grid(31), grid(31), grid(31));
    } else {
      Past(stride, q, n);
      var w := 1 as real / stride as real;
      Level(grid(31), w);
    }
  }

  lemma Past(stride: nat, q: nat, n: nat)
    requires stride > 1 && n == 31 * stride + 1 && n == q * stride + n % stride
    ensures q == 31 && n % stride == 1
  {
    Unique(stride, q, n % stride, 31, 1);
  }

  lemma Unique(s: nat, q: nat, r: nat, p: nat, t: nat)
    requires s > 0 && r < s && t < s && q * s + r == p * s + t
    ensures q == p && r == t
  {
    assert (q - p) * s == t - r;
    Gap(q - p, s);
  }

  lemma Gap(d: int, s: nat)
    ensures d >= 1 ==> d * s >= s
    ensures d <= -1 ==> d * s <= 0 - s
  {
  }

  lemma Level(a: Sample, w: real)
    ensures Between(a, a, w) == a
  {
    assert (1.0 - w) * a.i + w * a.i == a.i;
    assert (1.0 - w) * a.q + w * a.q == a.q;
  }

  ghost predicate GridsAgree(count: nat, stride: nat)
    requires stride > 0
  {
    forall grid: nat -> Sample, n: nat :: n < count ==> DeviceGain(grid, count, stride, n) == Gain(grid, stride, n)
  }

  function StepUp(k: nat): Sample {
    if k <= 31 then ZERO else Sample(1.0, 0.0)
  }

  /** A step at the 33rd point is seen by the host one sample past the device's last point. */
  lemma StepHeard(stride: nat)
    requires stride > 0
    ensures Gain(StepUp, stride, 31 * stride + 1) != ZERO
  {
    var n := 31 * stride + 1;
    var q := n / stride;
    assert n == q * stride + n % stride;
    if stride == 1 {
      assert q == 32 && n % stride == 0;
      EndOfGrid(StepUp(32), StepUp(33), StepUp(33));
    } else {
      Past(stride, q, n);
      var w := 1 as real / stride as real;
      assert w > 0.0;
      hide Gain;
      Ramp(w);
      assert Gain(StepUp, stride, n) == Between(StepUp(31), StepUp(32), w) by { GainAt(stride, n); }
    }
  }

  lemma GainAt(stride: nat, n: nat)
    requires stride > 0 && n / stride == 31 && n % stride == 1
    ensures Gain(StepUp, stride, n) == Between(StepUp(31), StepUp(32), 1 as real / stride as real)
  {
  }

  lemma Ramp(w: real)
    requires w > 0.0
    ensures Between(StepUp(31), StepUp(32), w).i == w
  {
  }

  lemma StepShows(count: nat, stride: nat)
    requires stride > 0 && 31 * stride + 1 < count
    ensures DeviceGain(StepUp, count, stride, 31 * stride + 1) != Gain(StepUp, stride, 31 * stride + 1)
  {
    hide DeviceGain, Gain;
    DeviceStops(StepUp, count, stride);
    StepHeard(stride);
  }

  /** Host and device interpolate alike, for every gain process and every sample of the slot,
      precisely when the slot does not run past the device's last point. */
  lemma GridsAgreeExactly(count: nat, gridUs: real, rate: real)
    ensures GridsAgree(count, Stride(gridUs, rate)) <==> count <= 31 * Stride(gridUs, rate) + 1
  {
    hide Stride;
    var stride := Stride(gridUs, rate);
    if count <= 31 * stride + 1 {
      forall grid: nat -> Sample, n: nat | n < count ensures DeviceGain(grid, count, stride, n) == Gain(grid, stride, n) {
        DeviceFits(grid, count, stride, n);
      }
    } else {
      StepShows(count, stride);
    }
  }

  // ---- In numbers -------------------------------------------------------------------------------------------------

  /** The stride is the spacing in samples to the nearest whole one, halves upwards, but at least one. */
  lemma StrideNearest(gridUs: real, rate: real, exact: real)
    requires exact * 1000000.0 == gridUs * rate
    ensures var s := Stride(gridUs, rate) as real;
      if exact >= 0.5 then s - 0.5 <= exact < s + 0.5 else s == 1.0
  {
    hide Stride;
    Millionths(gridUs, rate, exact);
    StrideAt(gridUs, rate, exact);
  }

  lemma StrideAt(gridUs: real, rate: real, exact: real)
    requires gridUs * 0.000001 * rate == exact
    ensures Stride(gridUs, rate) == Max1((exact + 0.5).Floor)
  {
  }

  lemma Millionths(a: real, b: real, exact: real)
    requires exact * 1000000.0 == a * b
    ensures a * 0.000001 * b == exact
  {
    assert a * 0.000001 * b == (a * b) * 0.000001;
  }

  /** The grid has one point past the end of the slot and no more. */
  lemma PointsFewest(count: nat, stride: nat)
    requires stride > 0
    ensures var p := Points(count, stride);
      && p >= 1 && count <= (p - 1) * stride && (p > 1 ==> (p - 2) * stride < count)
  {
    var n := (count + stride - 1) / stride;
    assert count + stride - 1 == n * stride + (count + stride - 1) % stride;
    assert (n - 1) * stride == n * stride - stride;
  }

  /** From `a` a share of the way to `b`. */
  function Towards(a: Sample, b: Sample, share: real): Sample {
    Sample(a.i + share * (b.i - a.i), a.q + share * (b.q - a.q))
  }

  /** `r` samples after grid point `q` the gain is that point's, moved that share of the way to the next one. */
  lemma GainLine(grid: nat -> Sample, stride: nat, q: nat, r: nat, n: nat, share: real)
    requires r < stride && n == q * stride + r && share == r as real / stride as real
    ensures Gain(grid, stride, n) == Towards(grid(q), grid(q + 1), share)
  {
    hide Between, Towards, Gain;
    assert n == (n / stride) * stride + n % stride;
    Unique(stride, n / stride, n % stride, q, r);
    GainFrom(grid, stride, n, q, r);
    Straight(grid(q), grid(q + 1), share);
  }

  lemma GainFrom(grid: nat -> Sample, stride: nat, n: nat, q: nat, r: nat)
    requires stride > 0 && n / stride == q && n % stride == r
    ensures Gain(grid, stride, n) == Between(grid(q), grid(q + 1), r as real / stride as real)
  {
  }

  lemma Straight(a: Sample, b: Sample, w: real)
    ensures Between(a, b, w) == Towards(a, b, w)
  {
    Line(a.i, b.i, w);
    Line(a.q, b.q, w);
    var c := Between(a, b, w);
    assert c.i == (1.0 - w) * a.i + w * b.i && c.q == (1.0 - w) * a.q + w * b.q;
  }

  lemma Line(x: real, y: real, w: real)
    ensures (1.0 - w) * x + w * y == x + w * (y - x)
  {
  }
}

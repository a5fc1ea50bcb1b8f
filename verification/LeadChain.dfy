/**
 Chains with a tdl at most in front, one slot at a time: what the tdl makes of the slot, weighed by
 one factor per sample.
 */
module LeadChains {
  import opened Iq
  import opened Phase
  import opened Chain
  import opened EndToEnd
  import opened Fused
  import opened Receiver
  import opened Configured
  import Tdl
  import TdlStream
  import TdlResponse

  /** The per-sample steps. */
  function Back(chain: seq<Step>): (b: seq<Step>) {
    if LeadsWithTaps(chain) then chain[1..] else chain
  }

  function BackStates(chain: seq<Step>, sts: seq<StepState>): (b: seq<StepState>)
    requires |sts| == |chain|
    ensures |b| == |Back(chain)|
  {
    if LeadsWithTaps(chain) then sts[1..] else sts
  }

  /** What the leading tdl makes of a slot after history `h`. */
  function Front(chain: seq<Step>, sts: seq<StepState>, x: seq<Sample>): (y: seq<Sample>)
    requires ShapedChain(chain) && |sts| == |chain|
    ensures |y| == |x|
  {
    if LeadsWithTaps(chain) then Tdl.SlotOut(chain[0].taps, chain[0].poly, sts[0].line, x) else x
  }

  /** Every oscillator has advanced by `n` samples. */
  ghost predicate Advanced(tr: Trig, chain: seq<Step>, sts: seq<StepState>, n: nat)
    requires |sts| == |chain|
  {
    forall k :: 0 <= k < |chain| && chain[k].Turn? ==> tr.Congruent(sts[k].phase, Angle(n, chain[k].increment))
  }

  /** The chain's states after history `h`. */
  ghost predicate After(tr: Trig, chain: seq<Step>, sts: seq<StepState>, h: seq<Sample>) {
    && |sts| == |chain| && Advanced(tr, Back(chain), BackStates(chain, sts), |h|)
    && (LeadsWithTaps(chain) ==> |sts[0].line| == Tdl.RingSize(chain[0].taps) && sts[0].line == TdlStream.Tail(h, |sts[0].line|))
  }

  lemma {:induction false} AdvancedIsCaughtUp(tr: Trig, chain: seq<Step>, sts: seq<StepState>, x: seq<Sample>)
    requires PerSample(chain) && ShapedChain(chain) && |sts| == |chain|
    ensures CaughtUp(tr, chain, sts, x) <==> Advanced(tr, chain, sts, |x|)
  {
    if chain != [] {
      AdvancedIsCaughtUp(tr, chain[1..], sts[1..], WholeStep(tr, chain[0], x));
      AdvancedHead(tr, chain, sts, |x|);
    }
  }

  lemma AdvancedHead(tr: Trig, chain: seq<Step>, sts: seq<StepState>, n: nat)
    requires |sts| == |chain| && chain != []
    ensures Advanced(tr, chain, sts, n) <==>
            (chain[0].Turn? ==> tr.Congruent(sts[0].phase, Angle(n, chain[0].increment))) && Advanced(tr, chain[1..], sts[1..], n)
  {
    hide Trig.Congruent, Angle;
    if Advanced(tr, chain[1..], sts[1..], n) && (chain[0].Turn? ==> tr.Congruent(sts[0].phase, Angle(n, chain[0].increment))) {
      forall k | 0 <= k < |chain| && chain[k].Turn? ensures tr.Congruent(sts[k].phase, Angle(n, chain[k].increment)) {
        assert k > 0 ==> chain[k] == chain[1..][k - 1] && sts[k] == sts[1..][k - 1];
      }
    }
    if Advanced(tr, chain, sts, n) {
      forall k | 0 <= k < |chain| - 1 && chain[1..][k].Turn?
        ensures tr.Congruent(sts[1..][k].phase, Angle(n, chain[1..][k].increment))
      {
        assert chain[k + 1].Turn?;
      }
    }
  }

  /** `y` is `x` with one factor per sample, from sample `n` of a stream on. */
  ghost predicate Factored(tr: Trig, chain: seq<Step>, x: seq<Sample>, y: seq<Sample>, n: nat) {
    |y| == |x| && forall i, at: nat :: 0 <= i < |x| && at == n + i ==> y[i] == Rotate(x[i], Coefficient(tr, chain, at))
  }

  /** A slot of per-sample steps that have advanced by `n`. */
  lemma BackOut(tr: Trig, chain: seq<Step>, sts: seq<StepState>, n: nat, x: seq<Sample>)
    requires Circular(tr) && PerSample(chain) && ShapedChain(chain) && |sts| == |chain| && Advanced(tr, chain, sts, n)
    ensures tr.turn > 0.0 && Advanced(tr, chain, ChainNext(tr, chain, sts, x), n + |x|)
    ensures Factored(tr, chain, x, ChainOut(tr, chain, sts, x), n)
  {
    hide Trig.Periodic, Circular, Advanced, WholeChain, ChainOut, ChainNext, Coefficient, Rotate, PerSample, ShapedChain;
    RotatesPeriodically(tr);
    BackContinues(tr, chain, sts, Zeros(n), x);
    BackSamples(tr, chain, Zeros(n), x, ChainOut(tr, chain, sts, x));
  }

  lemma BackSamples(tr: Trig, chain: seq<Step>, past: seq<Sample>, x: seq<Sample>, y: seq<Sample>)
    requires Circular(tr) && PerSample(chain) && ShapedChain(chain) && |x| == |y|
    requires y == WholeChain(tr, chain, past + x)[|past|..]
    ensures Factored(tr, chain, x, y, |past|)
  {
    hide WholeChain, Circular, PerSample, ShapedChain, Coefficient, Rotate;
    forall i, at: nat | 0 <= i < |x| && at == |past| + i ensures y[i] == Rotate(x[i], Coefficient(tr, chain, at)) {
      BackSample(tr, chain, past, x, y, i, at);
    }
  }

  lemma BackSample(tr: Trig, chain: seq<Step>, past: seq<Sample>, x: seq<Sample>, y: seq<Sample>, i: nat, at: nat)
    requires Circular(tr) && PerSample(chain) && ShapedChain(chain) && at == |past| + i && i < |x| == |y|
    requires y == WholeChain(tr, chain, past + x)[|past|..]
    ensures y[i] == Rotate(x[i], Coefficient(tr, chain, at))
  {
    hide *;
    PerSampleIs(tr, chain, past + x, at);
  }

  lemma BackContinues(tr: Trig, chain: seq<Step>, sts: seq<StepState>, past: seq<Sample>, x: seq<Sample>)
    requires tr.Periodic() && PerSample(chain) && ShapedChain(chain) && |sts| == |chain| && Advanced(tr, chain, sts, |past|)
    ensures tr.turn > 0.0 && Advanced(tr, chain, ChainNext(tr, chain, sts, x), |past| + |x|)
    ensures WholeChain(tr, chain, past + x)[|past|..] == ChainOut(tr, chain, sts, x)
  {
    hide *;
    Turning(tr);
    AdvancedIsCaughtUp(tr, chain, sts, past);
    PerSampleCausal(chain);
    ChainContinues(tr, chain, sts, past, x);
    AdvancedIsCaughtUp(tr, chain, ChainNext(tr, chain, sts, x), past + x);
  }

  lemma SlotAfterTdl(tr: Trig, chain: seq<Step>, sts: seq<StepState>, h: seq<Sample>, x: seq<Sample>)
    requires Circular(tr) && ShapedChain(chain) && LeadsWithTaps(chain) && PerSample(chain[1..]) && After(tr, chain, sts, h)
    ensures tr.turn > 0.0 && After(tr, chain, ChainNext(tr, chain, sts, x), h + x)
    ensures Factored(tr, chain[1..], Front(chain, sts, x), ChainOut(tr, chain, sts, x), |h|)
  {
    hide Circular, Advanced, Factored, PerSample, Tdl.SlotOut, Tdl.Roll, Tdl.RingSize;
    RotatesPeriodically(tr);
    var y, next := Front(chain, sts, x), ChainNext(tr, chain, sts, x);
    BackOut(tr, chain[1..], sts[1..], |h|, y);
    TdlStream.RollIsTail(h, x, |sts[0].line|);
    assert next[1..] == ChainNext(tr, chain[1..], sts[1..], y);
  }

  lemma SlotAfterBare(tr: Trig, chain: seq<Step>, sts: seq<StepState>, h: seq<Sample>, x: seq<Sample>)
    requires Circular(tr) && ShapedChain(chain) && PerSample(chain) && !LeadsWithTaps(chain) && After(tr, chain, sts, h)
    ensures tr.turn > 0.0 && After(tr, chain, ChainNext(tr, chain, sts, x), h + x)
    ensures Factored(tr, chain, x, ChainOut(tr, chain, sts, x), |h|)
  {
    hide Circular, Advanced, Factored, PerSample, ChainOut, ChainNext;
    BackOut(tr, chain, sts, |h|, x);
  }

  /** A slot after history `h`. */
  lemma SlotAfter(tr: Trig, chain: seq<Step>, sts: seq<StepState>, h: seq<Sample>, x: seq<Sample>)
    requires Circular(tr) && ShapedChain(chain) && LeadingOnly(chain) && After(tr, chain, sts, h)
    ensures tr.turn > 0.0 && After(tr, chain, ChainNext(tr, chain, sts, x), h + x)
    ensures Factored(tr, Back(chain), Front(chain, sts, x), ChainOut(tr, chain, sts, x), |h|)
  {
    hide Circular, After, Factored, PerSample, ChainOut, ChainNext, ShapedChain, LeadingOnly;
    BackIsPerSample(chain);
    if LeadsWithTaps(chain) {
      SlotAfterTdl(tr, chain, sts, h, x);
    } else {
      SlotAfterBare(tr, chain, sts, h, x);
    }
  }

  lemma BackIsPerSample(chain: seq<Step>)
    requires ShapedChain(chain) && LeadingOnly(chain)
    ensures PerSample(Back(chain)) && ShapedChain(Back(chain))
  {
  }

  lemma FreshIsAfter(tr: Trig, chain: seq<Step>)
    requires ShapedChain(chain)
    ensures After(tr, chain, FreshOf(chain).sts, [])
  {
    forall k | 0 <= k < |Back(chain)| && Back(chain)[k].Turn?
      ensures tr.Congruent(BackStates(chain, FreshOf(chain).sts)[k].phase, Angle(0, Back(chain)[k].increment))
    {
      Reflexive(tr, 0.0);
    }
  }

  lemma FactoredAt(tr: Trig, chain: seq<Step>, x: seq<Sample>, y: seq<Sample>, n: nat, i: nat, at: nat)
    requires Factored(tr, chain, x, y, n) && i < |x| && at == n + i
    ensures |y| == |x| && y[i] == Rotate(x[i], Coefficient(tr, chain, at))
  {
  }

  lemma Covering(taps: seq<Tdl.Tap>)
    ensures Tdl.Covers(taps, Tdl.RingSize(taps))
  {
  }

  // ---- Silence -------------------------------------------------------------------------------------

  ghost predicate SilentTaps(taps: seq<Tdl.Tap>, poly: seq<seq<real>>)
    requires Tdl.Shaped(taps, poly)
  {
    forall m :: TdlResponse.Response(taps, poly, m) == ZERO
  }

  lemma {:induction false} SilentSum(f: Tdl.Signal, taps: seq<Tdl.Tap>, poly: seq<seq<real>>, n: int, lo: int, hi: int)
    requires Tdl.Shaped(taps, poly) && SilentTaps(taps, poly)
    ensures TdlResponse.ResponseSum(f, taps, poly, n, lo, hi) == ZERO
    decreases hi - lo
  {
    hide TdlResponse.Response, Tdl.Shaped;
    if lo < hi {
      SilentSum(f, taps, poly, n, lo, hi - 1);
      TdlResponse.AddSilence(ZERO);
      TdlResponse.Units(f(hi - 1));
    }
  }

  lemma SilentFront(taps: seq<Tdl.Tap>, poly: seq<seq<real>>, line: seq<Sample>, x: seq<Sample>, i: nat)
    requires Tdl.Shaped(taps, poly) && SilentTaps(taps, poly) && i < |x|
    ensures Tdl.SlotOut(taps, poly, line, x)[i] == ZERO
  {
    var lo := i - Tdl.RingSize(taps);
    hide TdlResponse.ResponseSum, SilentTaps, Tdl.Conv;
    TdlResponse.ConvIsResponse(m => Tdl.Read(line, x, m), taps, poly, i, lo);
    SilentSum(m => Tdl.Read(line, x, m), taps, poly, i, lo, i + 4);
  }

  // ---- Nothing is lost -------------------------------------------------------------------------------

  lemma Cancel(a: Sample, c: Sample, d: Sample)
    requires a != ZERO && Rotate(a, c) == Rotate(a, d)
    ensures c == d
  {
    var u, w := c.i - d.i, c.q - d.q;
    Differences(a.i, a.q, c.i, d.i, c.q, d.q);
    NoRoots(a.i, a.q, u, w);
  }

  lemma Differences(a: real, b: real, c: real, d: real, c': real, d': real)
    requires a * c - b * c' == a * d - b * d' && a * c' + b * c == a * d' + b * d
    ensures a * (c - d) - b * (c' - d') == 0.0 && a * (c' - d') + b * (c - d) == 0.0
  {
  }

  lemma NoRoots(a: real, b: real, u: real, w: real)
    requires (a != 0.0 || b != 0.0) && a * u - b * w == 0.0 && a * w + b * u == 0.0
    ensures u == 0.0 && w == 0.0
  {
    hide Norm;
    NormPositive(a, b);
    NormVanishes(a, b, u, w);
    ZeroFactor(Norm(a, b), u);
    ZeroFactor(Norm(a, b), w);
  }

  function Times(a: real, b: real): real {
    a * b
  }

  function Norm(a: real, b: real): real {
    Times(a, a) + Times(b, b)
  }

  lemma NormVanishes(a: real, b: real, u: real, w: real)
    requires a * u - b * w == 0.0 && a * w + b * u == 0.0
    ensures Norm(a, b) * u == 0.0 && Norm(a, b) * w == 0.0
  {
    assert Norm(a, b) * u == a * (a * u - b * w) + b * (a * w + b * u);
    assert Norm(a, b) * w == a * (a * w + b * u) - b * (a * u - b * w);
  }

  lemma NormPositive(a: real, b: real)
    requires a != 0.0 || b != 0.0
    ensures Norm(a, b) > 0.0
  {
    hide Times;
    Square(a);
    Square(b);
  }

  lemma Square(a: real)
    ensures Times(a, a) >= 0.0 && (a != 0.0 ==> Times(a, a) > 0.0)
  {
    hide Times;
    if a == 0.0 {
      TimesZero();
    } else {
      TimesSame(a, a);
    }
  }

  lemma TimesZero()
    ensures Times(0.0, 0.0) == 0.0
  {
  }

  lemma TimesSame(a: real, b: real)
    requires (a > 0.0 && b > 0.0) || (a < 0.0 && b < 0.0)
    ensures Times(a, b) > 0.0
  {
  }

  lemma ZeroFactor(s: real, u: real)
    requires s > 0.0 && s * u == 0.0
    ensures u == 0.0
  {
  }

  lemma Commutes(a: Sample, b: Sample)
    ensures Rotate(a, b) == Rotate(b, a)
  {
  }

  /** A chain of nonzero factors loses nothing. */
  lemma CoefficientNonzero(tr: Trig, chain: seq<Step>, n: nat)
    requires Circular(tr) && Factor(chain) != 0.0
    ensures Coefficient(tr, chain, n) != ZERO
  {
    hide Circular, Spin, Factor;
    var a, r := Spin(chain, n), tr.rot(Spin(chain, n));
    Compose(tr, a, -a);
    Receiver.AtZero(tr);
    assert a + -a == 0.0;
    TdlResponse.Units(tr.rot(-a));
    assert r != ZERO;
    if r.i != 0.0 {
      NoProduct(Factor(chain), r.i);
    } else {
      NoProduct(Factor(chain), r.q);
    }
  }

  lemma SameScale(a: Sample, b: Sample, f: real)
    requires f != 0.0 && Scale(a, f) == Scale(b, f)
    ensures a == b
  {
    if a.i != b.i {
      NoProduct(f, a.i - b.i);
    }
    if a.q != b.q {
      NoProduct(f, a.q - b.q);
    }
  }
}

/**
 A node's receiver chain on the two backends.  The CPU backend prepares a receiver like a link
 and resolves it under the parameters scanned from its configuration (src/cpu_backend.cpp:82,
 118-129); the CUDA backend scans nothing for a receiver (src/cuda_backend.cu:477-479, 108-120)
 and resolves it under a state's default parameters.
 */
module Receiver {
  import opened Iq
  import opened Phase
  import opened Chain
  import opened RuntimeControl
  import opened CpuLinks
  import opened FreshParams
  import TdlResponse

  // ---- A chain of per-sample steps in closed form -----------------------------------------------

  predicate Composes(tr: Trig, a: real, b: real) {
    Rotate(tr.rot(a), tr.rot(b)) == tr.rot(a + b)
  }

  /** What cosine and sine are: rotations compose, and only whole turns change nothing. */
  ghost predicate Circular(tr: Trig) {
    && tr.Periodic() && (forall a, b :: Composes(tr, a, b)) && tr.rot(0.0) == TdlResponse.ONE
    && forall a :: tr.rot(a) == TdlResponse.ONE ==> tr.Congruent(a, 0.0)
  }

  function Factor(chain: seq<Step>): real {
    if chain == [] then 1.0
    else if chain[0].PathLoss? then chain[0].factor * Factor(chain[1..])
    else Factor(chain[1..])
  }

  /** The angle all oscillators together turn sample `n` by. */
  function Spin(chain: seq<Step>, n: nat): real {
    if chain == [] then 0.0
    else if chain[0].Turn? then chain[0].fixed + Angle(n, chain[0].increment) + Spin(chain[1..], n)
    else Spin(chain[1..], n)
  }

  /** What the chain multiplies sample `n` of a stream by. */
  function Coefficient(tr: Trig, chain: seq<Step>, n: nat): Sample {
    Scale(tr.rot(Spin(chain, n)), Factor(chain))
  }

  lemma ScaleMoves(v: Sample, r: Sample, f: real, g: real, fg: real)
    requires fg == f * g
    ensures Rotate(Scale(v, f), Scale(r, g)) == Rotate(v, Scale(r, fg))
  {
    Regroup(f, v.i, g, r.i);
    Regroup(f, v.q, g, r.q);
    Regroup(f, v.i, g, r.q);
    Regroup(f, v.q, g, r.i);
  }

  lemma Regroup(a: real, b: real, c: real, d: real)
    ensures (a * b) * (c * d) == b * (a * c * d)
  {
  }

  lemma Compose(tr: Trig, a: real, b: real)
    requires Circular(tr)
    ensures Rotate(tr.rot(a), tr.rot(b)) == tr.rot(a + b)
  {
    assert Composes(tr, a, b);
  }

  lemma AtZero(tr: Trig)
    requires Circular(tr)
    ensures tr.rot(0.0) == TdlResponse.ONE && tr.turn > 0.0
  {
  }

  lemma WholeTurn(tr: Trig, a: real)
    requires Circular(tr)
    ensures tr.rot(a) == TdlResponse.ONE <==> tr.Congruent(a, 0.0)
  {
    hide Rotate, Trig.Congruent;
  }

  /** On a whole stream a chain of path losses and oscillators is one complex factor per sample. */
  lemma {:induction false} PerSampleIs(tr: Trig, chain: seq<Step>, x: seq<Sample>, n: nat)
    requires Circular(tr) && PerSample(chain) && ShapedChain(chain) && n < |x|
    ensures WholeChain(tr, chain, x)[n] == Rotate(x[n], Coefficient(tr, chain, n))
  {
    hide Rotate, Scale, Circular, WholeStep, Factor, Spin;
    if chain == [] {
      EmptyIs(tr, n, x[n]);
    } else {
      PerSampleIs(tr, chain[1..], WholeStep(tr, chain[0], x), n);
      HeadIs(tr, chain[0], chain[1..], x, n);
      assert [chain[0]] + chain[1..] == chain;
    }
  }

  lemma EmptyIs(tr: Trig, n: nat, v: Sample)
    requires Circular(tr)
    ensures Rotate(v, Coefficient(tr, [], n)) == v
  {
    AtZero(tr);
    TdlResponse.Units(v);
  }

  lemma HeadIs(tr: Trig, step: Step, rest: seq<Step>, x: seq<Sample>, n: nat)
    requires Circular(tr) && !step.Taps? && n < |x|
    ensures Rotate(WholeStep(tr, step, x)[n], Coefficient(tr, rest, n)) == Rotate(x[n], Coefficient(tr, [step] + rest, n))
  {
    hide Rotate, Scale, Circular, Angle, Factor, Spin, WholeStep;
    HeadSample(tr, step, x, n);
    HeadFactors(step, rest, n);
    var v, r, f := x[n], tr.rot(Spin(rest, n)), Factor(rest);
    if step.PathLoss? {
      ScaleMoves(v, r, step.factor, f, Factor([step] + rest));
    } else {
      var a := step.fixed + Angle(n, step.increment);
      TdlResponse.RotateRotate(v, tr.rot(a), Scale(r, f));
      TdlResponse.RotateScale(tr.rot(a), r, f);
      Compose(tr, a, Spin(rest, n));
    }
  }

  lemma HeadSample(tr: Trig, step: Step, x: seq<Sample>, n: nat)
    requires !step.Taps? && n < |x|
    ensures WholeStep(tr, step, x)[n] ==
            if step.PathLoss? then Scale(x[n], step.factor) else Rotate(x[n], tr.rot(step.fixed + Angle(n, step.increment)))
  {
    hide Rotate, Scale, Angle;
  }

  lemma HeadFactors(step: Step, rest: seq<Step>, n: nat)
    requires !step.Taps?
    ensures var f, s := Factor(rest), Spin(rest, n);
      if step.PathLoss? then Factor([step] + rest) == step.factor * f && Spin([step] + rest, n) == s
      else Factor([step] + rest) == f && Spin([step] + rest, n) == step.fixed + Angle(n, step.increment) + s
  {
    assert ([step] + rest)[1..] == rest;
  }

  ghost predicate SameOnStreams(tr: Trig, a: seq<Step>, b: seq<Step>)
    requires ShapedChain(a) && ShapedChain(b)
  {
    forall x :: WholeChain(tr, a, x) == WholeChain(tr, b, x)
  }

  /** Two such chains agree on every stream precisely when their factors agree at every sample. */
  lemma SameOnStreamsExactly(tr: Trig, a: seq<Step>, b: seq<Step>)
    requires Circular(tr) && PerSample(a) && PerSample(b) && ShapedChain(a) && ShapedChain(b)
    ensures SameOnStreams(tr, a, b) <==> forall n: nat :: Coefficient(tr, a, n) == Coefficient(tr, b, n)
  {
    hide Coefficient, WholeChain, Circular, PerSample, ShapedChain, Rotate;
    if SameOnStreams(tr, a, b) {
      forall n: nat ensures Coefficient(tr, a, n) == Coefficient(tr, b, n) {
        var x := seq(n + 1, _ => TdlResponse.ONE);
        PerSampleIs(tr, a, x, n);
        PerSampleIs(tr, b, x, n);
        assert WholeChain(tr, a, x) == WholeChain(tr, b, x);
        TdlResponse.Units(Coefficient(tr, a, n));
        TdlResponse.Units(Coefficient(tr, b, n));
      }
    }
    if forall n: nat :: Coefficient(tr, a, n) == Coefficient(tr, b, n) {
      forall x ensures WholeChain(tr, a, x) == WholeChain(tr, b, x) {
        SameStream(tr, a, b, x);
      }
    }
  }

  lemma SameStream(tr: Trig, a: seq<Step>, b: seq<Step>, x: seq<Sample>)
    requires Circular(tr) && PerSample(a) && PerSample(b) && ShapedChain(a) && ShapedChain(b)
    requires forall n: nat :: Coefficient(tr, a, n) == Coefficient(tr, b, n)
    ensures WholeChain(tr, a, x) == WholeChain(tr, b, x)
  {
    hide Coefficient, Circular, PerSample, ShapedChain, Rotate, WholeStep;
    forall n | 0 <= n < |x| ensures WholeChain(tr, a, x)[n] == WholeChain(tr, b, x)[n] {
      PerSampleIs(tr, a, x, n);
      PerSampleIs(tr, b, x, n);
    }
  }

  // ---- A resolved receiver -----------------------------------------------------------------------

  predicate NoTdl(chain: seq<ModelStep>) {
    forall k :: 0 <= k < |chain| ==> !chain[k].TdlStep?
  }

  function Losses(chain: seq<ModelStep>): nat {
    if chain == [] then 0 else (if chain[0].PathLossStep? then 1 else 0) + Losses(chain[1..])
  }

  function Oscillators(chain: seq<ModelStep>): nat {
    if chain == [] then 0 else (if chain[0].TurnStep? then 1 else 0) + Oscillators(chain[1..])
  }

  function FixedPhase(chain: seq<ModelStep>): real {
    if chain == [] then 0.0 else (if chain[0].TurnStep? then chain[0].phaseRad else 0.0) + FixedPhase(chain[1..])
  }

  function Pow(f: real, n: nat): real {
    if n == 0 then 1.0 else f * Pow(f, n - 1)
  }

  lemma ResolvedPerSample(ph: Physics, rate: nat, chain: seq<ModelStep>, v: LinkVars)
    requires NoTdl(chain)
    ensures PerSample(ResolveAll(ph, rate, chain, v)) && ShapedChain(ResolveAll(ph, rate, chain, v))
  {
  }

  lemma ResolvedTail(ph: Physics, rate: nat, chain: seq<ModelStep>, v: LinkVars)
    requires chain != []
    ensures ResolveAll(ph, rate, chain, v)[1..] == ResolveAll(ph, rate, chain[1..], v)
  {
  }

  lemma {:induction false} ResolvedFactor(ph: Physics, rate: nat, chain: seq<ModelStep>, v: LinkVars)
    requires NoTdl(chain)
    ensures Factor(ResolveAll(ph, rate, chain, v)) == Pow(ph.linear(-v.live.pathLossDb), Losses(chain))
  {
    if chain != [] {
      ResolvedTail(ph, rate, chain, v);
      ResolvedFactor(ph, rate, chain[1..], v);
    }
  }

  lemma {:induction false} ResolvedSpin(ph: Physics, rate: nat, chain: seq<ModelStep>, v: LinkVars, n: nat)
    requires NoTdl(chain)
    ensures Spin(ResolveAll(ph, rate, chain, v), n) ==
            FixedPhase(chain) + Angle(Oscillators(chain), Angle(n, ph.Increment(v.live.cfoHz, rate)))
  {
    var inc := ph.Increment(v.live.cfoHz, rate);
    if chain == [] {
      assert Angle(0, Angle(n, inc)) == 0.0;
    } else {
      ResolvedTail(ph, rate, chain, v);
      ResolvedSpin(ph, rate, chain[1..], v, n);
      if chain[0].TurnStep? {
        AngleSum(1, Oscillators(chain[1..]), Angle(n, inc));
      }
    }
  }

  lemma {:induction false} PowIsOne(f: real, n: nat)
    requires f > 0.0
    ensures Pow(f, n) > 0.0 && (f > 1.0 && n > 0 ==> Pow(f, n) > 1.0) && (f < 1.0 && n > 0 ==> Pow(f, n) < 1.0)
    ensures f == 1.0 ==> Pow(f, n) == 1.0
  {
    if n > 0 {
      PowIsOne(f, n - 1);
      var p := Pow(f, n - 1);
      assert f * p > 0.0;
      assert f > 1.0 ==> f * p >= f * 1.0 by { if f > 1.0 { assert f * (p - 1.0) >= 0.0; } }
      assert f < 1.0 ==> f * p <= f * 1.0 by { if f < 1.0 { assert f * (1.0 - p) >= 0.0; } }
    }
  }

  // ---- When the two backends' receivers agree ---------------------------------------------------------

  /** ... and what a decibel is: zero changes nothing, and different losses are different factors. */
  ghost predicate Physical(ph: Physics) {
    && Circular(ph.tr) && ph.linear(0.0) == 1.0
    && (forall a :: ph.linear(a) > 0.0) && forall a, b :: ph.linear(a) == ph.linear(b) ==> a == b
  }

  /** The receiver asks for no loss, and its oscillators' offsets add up to a multiple of the
      sample rate. */
  ghost predicate AsksNothing(rate: nat, chain: seq<ModelStep>) {
    && (Losses(chain) > 0 ==> YamlParams(chain).pathLossDb == 0.0)
    && OnTheRate(Oscillators(chain), YamlParams(chain).cfoHz, rate)
  }

  ghost predicate OnTheRate(q: nat, cfoHz: real, rate: nat) {
    rate > 0 ==> exists k: int :: Multiple(q, cfoHz, rate, k)
  }

  predicate Multiple(q: nat, cfoHz: real, rate: nat, k: int) {
    q as real * cfoHz == k as real * rate as real
  }

  lemma Parts(ph: Physics)
    requires Physical(ph)
    ensures Circular(ph.tr) && ph.tr.turn > 0.0 && ph.linear(0.0) == 1.0
  {
  }

  lemma LossIsOne(ph: Physics, a: real)
    requires Physical(ph)
    ensures ph.linear(a) > 0.0 && (ph.linear(a) == 1.0 <==> a == 0.0)
  {
    hide Circular;
    assert ph.linear(a) == ph.linear(0.0) ==> a == 0.0;
  }

  lemma DefaultsResolve(ph: Physics, rate: nat, chain: seq<ModelStep>, n: nat)
    requires Physical(ph) && NoTdl(chain)
    ensures Factor(BareChain(ph, rate, chain)) == 1.0 && Spin(BareChain(ph, rate, chain), n) == FixedPhase(chain)
  {
    hide Physical, Factor, Spin, FixedPhase, NoTdl, Circular, Pow;
    var v := Untouched(DEFAULTS);
    Parts(ph);
    ResolvedFactor(ph, rate, chain, v);
    PowIsOne(1.0, Losses(chain));
    NoIncrement(ph, rate, n);
    ResolvedSpin(ph, rate, chain, v, n);
    NoIncrement(ph, rate, Oscillators(chain));
  }

  lemma NoIncrement(ph: Physics, rate: nat, n: nat)
    ensures ph.Increment(0.0, rate) == 0.0 && Angle(n, 0.0) == 0.0
  {
    if rate > 0 {
      assert ph.tr.turn * 0.0 / rate as real == 0.0;
    }
  }

  /** A whole turn per sample is no turn at any sample. */
  lemma WholeTurns(tr: Trig, q: nat, inc: real, n: nat)
    requires tr.Congruent(Angle(q, inc), 0.0)
    ensures tr.Congruent(Angle(q, Angle(n, inc)), 0.0)
  {
    var k :| tr.Turns(Angle(q, inc), 0.0, k);
    assert q as real * (n as real * inc) == n as real * (q as real * inc);
    assert n as real * (k as real * tr.turn) == (n * k) as real * tr.turn;
    assert tr.Turns(Angle(q, Angle(n, inc)), 0.0, n * k);
  }

  lemma TurnsAreMultiples(ph: Physics, rate: nat, q: nat, cfoHz: real)
    requires ph.tr.turn > 0.0
    ensures ph.tr.Congruent(Angle(q, ph.Increment(cfoHz, rate)), 0.0) <==>
            OnTheRate(q, cfoHz, rate)
  {
    var tr := ph.tr;
    if rate == 0 {
      assert Angle(q, 0.0) == 0.0;
      Reflexive(tr, 0.0);
    } else {
      var r, inc := rate as real, ph.Increment(cfoHz, rate);
      assert inc * r == tr.turn * cfoHz;
      if tr.Congruent(Angle(q, inc), 0.0) {
        var k :| tr.Turns(Angle(q, inc), 0.0, k);
        assert q as real * (tr.turn * cfoHz) == k as real * tr.turn * r by { assert q as real * inc * r == k as real * tr.turn * r; }
        assert tr.turn * (q as real * cfoHz - k as real * r) == 0.0;
        assert Multiple(q, cfoHz, rate, k);
      }
      if k: int :| Multiple(q, cfoHz, rate, k) {
        assert q as real * (tr.turn * cfoHz) == k as real * tr.turn * r by {
          assert tr.turn * (q as real * cfoHz) == tr.turn * (k as real * r);
        }
        assert (q as real * inc - k as real * tr.turn) * r == 0.0;
        assert tr.Turns(Angle(q, inc), 0.0, k);
      }
    }
  }

  /** Two factors of one angle agree only if their sizes do; a rotation can be undone. */
  lemma Undo(tr: Trig, phi: real, a: Sample, b: Sample)
    requires Circular(tr) && Rotate(tr.rot(phi), a) == Rotate(tr.rot(phi), b)
    ensures a == b
  {
    var r, back := tr.rot(phi), tr.rot(-phi);
    Compose(tr, -phi, phi);
    assert -phi + phi == 0.0;
    hide Circular, Rotate;
    TdlResponse.RotateRotate(back, r, a);
    TdlResponse.RotateRotate(back, r, b);
    TdlResponse.Units(a);
    TdlResponse.Units(b);
  }

  /** The loss and the turn, at sample `n`, that the configuration asks for beyond its fixed phases. */
  function Asked(ph: Physics, rate: nat, chain: seq<ModelStep>, n: nat): Sample {
    var m := YamlParams(chain);
    Scale(ph.tr.rot(Angle(Oscillators(chain), Angle(n, ph.Increment(m.cfoHz, rate)))), Pow(ph.linear(-m.pathLossDb), Losses(chain)))
  }

  lemma LinkCoefficient(ph: Physics, rate: nat, chain: seq<ModelStep>, n: nat)
    requires Physical(ph) && NoTdl(chain)
    ensures Coefficient(ph.tr, LinkChain(ph, rate, chain), n) == Rotate(ph.tr.rot(FixedPhase(chain)), Asked(ph, rate, chain, n))
  {
    hide Physical, Factor, Spin, FixedPhase, NoTdl, Circular, Pow, Rotate, Scale, Angle, Physics.Increment, YamlParams;
    var v, m := Untouched(YamlParams(chain)), YamlParams(chain);
    var turn := Angle(Oscillators(chain), Angle(n, ph.Increment(m.cfoHz, rate)));
    Parts(ph);
    ResolvedFactor(ph, rate, chain, v);
    ResolvedSpin(ph, rate, chain, v, n);
    Compose(ph.tr, FixedPhase(chain), turn);
    var f := Pow(ph.linear(-m.pathLossDb), Losses(chain));
    TdlResponse.RotateScale(ph.tr.rot(FixedPhase(chain)), ph.tr.rot(turn), f);
  }

  lemma BareCoefficient(ph: Physics, rate: nat, chain: seq<ModelStep>, n: nat)
    requires Physical(ph) && NoTdl(chain)
    ensures Coefficient(ph.tr, BareChain(ph, rate, chain), n) == Rotate(ph.tr.rot(FixedPhase(chain)), TdlResponse.ONE)
  {
    hide Physical, Factor, Spin, FixedPhase, NoTdl, Circular, Rotate, Scale;
    DefaultsResolve(ph, rate, chain, n);
    TdlResponse.Units(ph.tr.rot(FixedPhase(chain)));
  }

  lemma CoefficientsAgree(ph: Physics, rate: nat, chain: seq<ModelStep>, n: nat)
    requires Physical(ph) && NoTdl(chain)
    ensures Coefficient(ph.tr, LinkChain(ph, rate, chain), n) == Coefficient(ph.tr, BareChain(ph, rate, chain), n) <==>
            Asked(ph, rate, chain, n) == TdlResponse.ONE
  {
    hide Physical, FixedPhase, NoTdl, Circular, Rotate, Asked, Coefficient;
    Parts(ph);
    LinkCoefficient(ph, rate, chain, n);
    BareCoefficient(ph, rate, chain, n);
    if Coefficient(ph.tr, LinkChain(ph, rate, chain), n) == Coefficient(ph.tr, BareChain(ph, rate, chain), n) {
      Undo(ph.tr, FixedPhase(chain), Asked(ph, rate, chain, n), TdlResponse.ONE);
    }
  }

  /** The CUDA receiver does what the CPU receiver does, on every stream, precisely when the
      configuration asks it to do nothing beyond its fixed phases. */
  lemma ReceiversAgreeExactly(ph: Physics, rate: nat, chain: seq<ModelStep>)
    requires Physical(ph) && NoTdl(chain)
    ensures PerSample(LinkChain(ph, rate, chain)) && ShapedChain(LinkChain(ph, rate, chain))
    ensures PerSample(BareChain(ph, rate, chain)) && ShapedChain(BareChain(ph, rate, chain))
    ensures SameOnStreams(ph.tr, LinkChain(ph, rate, chain), BareChain(ph, rate, chain)) <==> AsksNothing(rate, chain)
  {
    hide Physical, Coefficient, SameOnStreams, AsksNothing, Circular, Asked, PerSample, ShapedChain, NoTdl;
    var cpu, cuda := LinkChain(ph, rate, chain), BareChain(ph, rate, chain);
    ResolvedPerSample(ph, rate, chain, Untouched(YamlParams(chain)));
    ResolvedPerSample(ph, rate, chain, Untouched(DEFAULTS));
    Parts(ph);
    SameOnStreamsExactly(ph.tr, cpu, cuda);
    if AsksNothing(rate, chain) {
      forall n: nat ensures Coefficient(ph.tr, cpu, n) == Coefficient(ph.tr, cuda, n) {
        NothingIsOne(ph, rate, chain, n);
        CoefficientsAgree(ph, rate, chain, n);
      }
    }
    if forall n: nat :: Coefficient(ph.tr, cpu, n) == Coefficient(ph.tr, cuda, n) {
      CoefficientsAgree(ph, rate, chain, 0);
      CoefficientsAgree(ph, rate, chain, 1);
      OneIsNothing(ph, rate, chain);
    }
  }

  lemma NothingIsOne(ph: Physics, rate: nat, chain: seq<ModelStep>, n: nat)
    requires Physical(ph) && AsksNothing(rate, chain)
    ensures Asked(ph, rate, chain, n) == TdlResponse.ONE
  {
    hide Physical, Circular, YamlParams, Pow, Angle, Physics.Increment, Scale, Rotate, OnTheRate, Trig.Congruent, Losses, Oscillators;
    var q, m := Oscillators(chain), YamlParams(chain);
    var inc := ph.Increment(m.cfoHz, rate);
    Parts(ph);
    TurnsAreMultiples(ph, rate, q, m.cfoHz);
    WholeTurns(ph.tr, q, inc, n);
    WholeTurn(ph.tr, Angle(q, Angle(n, inc)));
    LossIsOne(ph, -m.pathLossDb);
    PowIsOne(ph.linear(-m.pathLossDb), Losses(chain));
    NoPow(ph.linear(-m.pathLossDb));
    TdlResponse.Units(TdlResponse.ONE);
  }

  lemma NoPow(f: real)
    ensures Pow(f, 0) == 1.0
  {
  }

  lemma OneIsNothing(ph: Physics, rate: nat, chain: seq<ModelStep>)
    requires Physical(ph)
    requires Asked(ph, rate, chain, 0) == TdlResponse.ONE && Asked(ph, rate, chain, 1) == TdlResponse.ONE
    ensures AsksNothing(rate, chain)
  {
    hide Physical, Circular, YamlParams, Pow, Angle, Physics.Increment, Scale, Rotate, OnTheRate, Trig.Congruent, Losses, Oscillators;
    var q, m := Oscillators(chain), YamlParams(chain);
    var inc, f := ph.Increment(m.cfoHz, rate), Pow(ph.linear(-m.pathLossDb), Losses(chain));
    Parts(ph);
    SmallAngles(q, inc);
    AtZero(ph.tr);
    UnitFactor(f);
    LossIsOne(ph, -m.pathLossDb);
    PowIsOne(ph.linear(-m.pathLossDb), Losses(chain));
    assert Asked(ph, rate, chain, 1) == Scale(ph.tr.rot(Angle(q, inc)), f);
    TdlResponse.Units(ph.tr.rot(Angle(q, inc)));
    WholeTurn(ph.tr, Angle(q, inc));
    TurnsAreMultiples(ph, rate, q, m.cfoHz);
  }

  lemma UnitFactor(f: real)
    ensures Scale(TdlResponse.ONE, f) == TdlResponse.ONE ==> f == 1.0
  {
  }

  lemma SmallAngles(q: nat, inc: real)
    ensures Angle(q, Angle(0, inc)) == 0.0 && Angle(q, Angle(1, inc)) == Angle(q, inc)
  {
  }

  /** Under default parameters a path loss passes everything on as it is. */
  lemma LossyPasses(ph: Physics, rate: nat, x: seq<Sample>)
    requires Physical(ph)
    ensures ShapedChain(BareChain(ph, rate, [PathLossStep(20.0)]))
    ensures WholeChain(ph.tr, BareChain(ph, rate, [PathLossStep(20.0)]), x) == x
  {
    hide Physical, Circular, WholeChain, Scale;
    Parts(ph);
    var cuda := BareChain(ph, rate, [PathLossStep(20.0)]);
    assert -0.0 == 0.0;
    assert cuda == [PathLoss(1.0)];
    OneLoss(ph.tr, 1.0, x);
    forall k | 0 <= k < |x| ensures WholeChain(ph.tr, cuda, x)[k] == x[k] {
      TdlResponse.Units(x[k]);
    }
  }

  /** A receiver with a path loss of 20 dB: every stream that is not silent comes out different from
      the CPU backend. */
  lemma LossyReceiverDiffers(ph: Physics, rate: nat, x: seq<Sample>, n: nat)
    requires Physical(ph) && n < |x| && x[n] != ZERO
    ensures var chain := [PathLossStep(20.0)];
      ShapedChain(LinkChain(ph, rate, chain)) && ShapedChain(BareChain(ph, rate, chain)) &&
      WholeChain(ph.tr, LinkChain(ph, rate, chain), x) != x == WholeChain(ph.tr, BareChain(ph, rate, chain), x)
  {
    hide Physical, Circular, WholeChain, Scale, YamlParams;
    var chain := [PathLossStep(20.0)];
    LastPathLoss(chain, 0);
    LossyPasses(ph, rate, x);
    var f := ph.linear(-20.0);
    LossIsOne(ph, -20.0);
    assert LinkChain(ph, rate, chain) == [PathLoss(f)];
    OneLoss(ph.tr, f, x);
    Shrinks(x[n], f);
  }

  lemma Shrinks(v: Sample, f: real)
    requires v != ZERO && f != 1.0
    ensures Scale(v, f) != v
  {
    if v.i != 0.0 {
      NoProduct(f - 1.0, v.i);
    } else {
      NoProduct(f - 1.0, v.q);
    }
    assert (f - 1.0) * v.i == f * v.i - v.i && (f - 1.0) * v.q == f * v.q - v.q;
  }

  lemma NoProduct(a: real, b: real)
    requires a != 0.0 && b != 0.0
    ensures a * b != 0.0
  {
  }

  lemma OneLoss(tr: Trig, f: real, x: seq<Sample>)
    ensures ShapedChain([PathLoss(f)]) && |WholeChain(tr, [PathLoss(f)], x)| == |x|
    ensures forall k :: 0 <= k < |x| ==> WholeChain(tr, [PathLoss(f)], x)[k] == Scale(x[k], f)
  {
    assert [PathLoss(f)][1..] == [];
    assert WholeChain(tr, [PathLoss(f)], x) == WholeChain(tr, [], WholeStep(tr, PathLoss(f), x));
  }

  // ---- The node each backend prepares ---------------------------------------------------------------

  function LinkChains(ph: Physics, rate: nat, configs: seq<seq<ModelStep>>): (cs: seq<seq<Step>>)
    ensures |cs| == |configs| && forall k :: 0 <= k < |cs| ==> cs[k] == LinkChain(ph, rate, configs[k])
  {
    seq(|configs|, k requires 0 <= k < |configs| => LinkChain(ph, rate, configs[k]))
  }

  function CpuPrepared(ph: Physics, rate: nat, configs: seq<seq<ModelStep>>, receiver: seq<ModelStep>): Node {
    FreshNodeOf(LinkChains(ph, rate, configs), LinkChain(ph, rate, receiver))
  }

  function CudaPrepared(ph: Physics, rate: nat, configs: seq<seq<ModelStep>>, receiver: seq<ModelStep>): Node {
    FreshNodeOf(LinkChains(ph, rate, configs), BareChain(ph, rate, receiver))
  }

  lemma FreshResolvedShaped(ph: Physics, rate: nat, chain: seq<ModelStep>)
    requires ph.Valid() && SaneChain(chain)
    ensures ShapedChain(LinkChain(ph, rate, chain)) && ShapedChain(BareChain(ph, rate, chain))
  {
    YamlSane(chain);
    ResolvedShaped(ph, rate, chain, Untouched(YamlParams(chain)));
    ResolvedShaped(ph, rate, chain, Untouched(DEFAULTS));
  }
}

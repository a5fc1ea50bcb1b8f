/** Oscillator phase: a periodic rotation, and angles that agree up to whole turns. */
module Phase {
  import opened Iq

  /** `rot(a)` is (cos a, sin a); `turn` is one full turn. */
  datatype Trig = Trig(rot: real -> Sample, turn: real)
  {
    ghost predicate Turns(a: real, b: real, k: int) {
      a == b + k as real * turn
    }

    ghost predicate Congruent(a: real, b: real) {
      exists k: int :: Turns(a, b, k)
    }

    ghost predicate Periodic() {
      turn > 0.0 && forall a, b :: Congruent(a, b) ==> rot(a) == rot(b)
    }
  }

  /** The C library's remainder: it rounds the quotient towards zero. */
  function Fmod(x: real, m: real): real
    requires m > 0.0
  {
    if x >= 0.0 then x - (x / m).Floor as real * m else x + (-x / m).Floor as real * m
  }

  lemma FmodCongruent(tr: Trig, x: real)
    requires tr.turn > 0.0
    ensures tr.Congruent(Fmod(x, tr.turn), x)
  {
    if x >= 0.0 {
      assert tr.Turns(Fmod(x, tr.turn), x, -(x / tr.turn).Floor);
    } else {
      assert tr.Turns(Fmod(x, tr.turn), x, (-x / tr.turn).Floor);
    }
  }

  lemma Reflexive(tr: Trig, a: real)
    ensures tr.Congruent(a, a)
  {
    assert tr.Turns(a, a, 0);
  }

  lemma Symmetric(tr: Trig, a: real, b: real)
    requires tr.Congruent(a, b)
    ensures tr.Congruent(b, a)
  {
    var k :| tr.Turns(a, b, k);
    assert tr.Turns(b, a, -k);
  }

  lemma Transitive(tr: Trig, a: real, b: real, c: real)
    requires tr.Congruent(a, b) && tr.Congruent(b, c)
    ensures tr.Congruent(a, c)
  {
    var k :| tr.Turns(a, b, k);
    var l :| tr.Turns(b, c, l);
    assert (k + l) as real * tr.turn == k as real * tr.turn + l as real * tr.turn;
    assert tr.Turns(a, c, k + l);
  }

  lemma Shifted(tr: Trig, a: real, b: real, x: real)
    requires tr.Congruent(a, b)
    ensures tr.Congruent(a + x, b + x) && tr.Congruent(x + a, x + b)
  {
    var k :| tr.Turns(a, b, k);
    assert tr.Turns(a + x, b + x, k) && tr.Turns(x + a, x + b, k);
  }

  /** The CPU's per-sample advance (src/cpu_backend.cpp:296-302): add, and reduce once
      past a full turn. */
  function Advance(tr: Trig, phase: real, increment: real): real
    requires tr.turn > 0.0
  {
    if phase + increment > tr.turn then Fmod(phase + increment, tr.turn) else phase + increment
  }

  /** The angle `n` equal increments add up to. */
  function Angle(n: nat, increment: real): real {
    n as real * increment
  }

  function PhaseAt(tr: Trig, phase: real, increment: real, n: nat): real
    requires tr.turn > 0.0
  {
    if n == 0 then phase else Advance(tr, PhaseAt(tr, phase, increment, n - 1), increment)
  }

  lemma AngleSum(m: nat, n: nat, x: real)
    ensures Angle(m + n, x) == Angle(m, x) + Angle(n, x)
  {
    assert (m + n) as real == m as real + n as real;
  }

  /** Accumulated and closed-form phase agree up to whole turns, for either sign of the
      increment and however often the accumulator was reduced. */
  lemma {:induction false} AccumulatedIsClosedForm(tr: Trig, phase: real, increment: real, n: nat)
    requires tr.turn > 0.0
    ensures tr.Congruent(PhaseAt(tr, phase, increment, n), phase + Angle(n, increment))
  {
    if n == 0 {
      Reflexive(tr, phase);
    } else {
      AccumulatedIsClosedForm(tr, phase, increment, n - 1);
      var p := PhaseAt(tr, phase, increment, n - 1);
      var before, goal := phase + Angle(n - 1, increment), phase + Angle(n, increment);
      AngleSum(n - 1, 1, increment);
      Shifted(tr, p, before, increment);
      assert before + increment == goal;
      AdvanceKeeps(tr, p, increment, goal);
    }
  }

  lemma AdvanceKeeps(tr: Trig, p: real, increment: real, goal: real)
    requires tr.turn > 0.0 && tr.Congruent(p + increment, goal)
    ensures tr.Congruent(Advance(tr, p, increment), goal)
  {
    if p + increment > tr.turn {
      FmodCongruent(tr, p + increment);
      Transitive(tr, Advance(tr, p, increment), p + increment, goal);
    }
  }

  /** The remainder keeps its argument's sign and is smaller than the modulus. */
  lemma FmodRange(x: real, m: real)
    requires m > 0.0
    ensures x >= 0.0 ==> 0.0 <= Fmod(x, m) < m
    ensures x <= 0.0 ==> -m < Fmod(x, m) <= 0.0
  {
    var q := if x >= 0.0 then (x / m).Floor else (-x / m).Floor;
    if x >= 0.0 {
      assert q as real <= x / m < q as real + 1.0;
      Between(x, m, q as real);
    } else {
      assert q as real <= -x / m < q as real + 1.0;
      Between(-x, m, q as real);
    }
  }

  lemma Between(x: real, m: real, q: real)
    requires m > 0.0 && q <= x / m < q + 1.0
    ensures 0.0 <= x - q * m < m
  {
    var low, high := x / m - q, q + 1.0 - x / m;
    assert low * m == x - q * m;
    assert high * m == q * m + m - x;
    Positive(high, m);
    assert low * m >= 0.0;
  }

  lemma Positive(a: real, b: real)
    requires a > 0.0 && b > 0.0
    ensures a * b > 0.0
  {
  }

  /** An accumulator turning forward by less than a full turn stays between zero and one full turn; one
      turning backward is never reduced. */
  lemma {:induction false} AccumulatorStays(tr: Trig, phase: real, increment: real, n: nat)
    requires tr.turn > 0.0 && 0.0 <= phase <= tr.turn
    ensures increment >= 0.0 ==> 0.0 <= PhaseAt(tr, phase, increment, n) <= tr.turn
    ensures increment <= 0.0 ==> PhaseAt(tr, phase, increment, n) == phase + Angle(n, increment) <= tr.turn
  {
    if n == 0 {
      assert Angle(0, increment) == 0.0;
    } else {
      AccumulatorStays(tr, phase, increment, n - 1);
      FmodRange(PhaseAt(tr, phase, increment, n - 1) + increment, tr.turn);
      AngleSum(n - 1, 1, increment);
      assert Angle(n, increment) == Angle(n - 1, increment) + increment;
    }
  }
}

/** The serve throttle of src/broker.cpp:579-609: a truncating deadline, re-based about every
    second so that its product stays small. */
module Throttle {

  const NANOS: nat := 1_000_000_000

  /** `start` is the first serve's time, `total` everything served since, `rebases` how often the
      origin has moved; the code itself keeps only `anchor` and `served`. */
  datatype Clock = Clock(anchor: nat, served: nat, start: nat, total: nat, rebases: nat)

  function Nanos(samples: nat, rate: nat): nat
    requires rate > 0
  {
    (samples * NANOS) / rate
  }

  /** When the next serve may be sent. */
  function Target(c: Clock, rate: nat): nat
    requires rate > 0
  {
    c.anchor + Nanos(c.served, rate)
  }

  function Advance(c: Clock, serve: nat, rate: nat): Clock
    requires rate > 0
  {
    var served, total := c.served + serve, c.total + serve;
    if served >= rate then Clock(c.anchor + Nanos(served, rate), 0, c.start, total, c.rebases + 1)
    else c.(served := served, total := total)
  }

  function Over(start: nat, serves: seq<nat>, rate: nat): Clock
    requires rate > 0
  {
    if serves == [] then Clock(start, 0, start, 0, 0)
    else Advance(Over(start, serves[..|serves| - 1], rate), serves[|serves| - 1], rate)
  }

  class ServeThrottle {
    const rate: nat
    var anchored: bool
    var anchor: nat
    var served: nat
    ghost var clock: Clock

    ghost predicate Valid()
      reads this
    {
      rate > 0 && if anchored then clock.anchor == anchor && clock.served == served else served == 0
    }

    constructor (sampleRate: nat)
      ensures Valid() && !anchored && rate == if sampleRate == 0 then 1 else sampleRate
    {
      rate := if sampleRate == 0 then 1 else sampleRate;
      anchored, anchor, served := false, 0, 0;
      clock := Clock(0, 0, 0, 0, 0);
    }

    /** Before sending: the first serve fixes the origin, later ones wait for their deadline. */
    method Await(now: nat) returns (wakeAt: nat)
      requires Valid()
      modifies this
      ensures Valid() && anchored
      ensures old(anchored) ==> clock == old(clock) && wakeAt == Target(clock, rate)
      ensures !old(anchored) ==> clock == Clock(now, 0, now, 0, 0) && wakeAt == now
    {
      if !anchored {
        anchor, anchored := now, true;
        clock := Clock(now, 0, now, 0, 0);
        wakeAt := now;
      } else {
        wakeAt := anchor + (served * NANOS) / rate;
      }
    }

    /** After sending. */
    method Served(serve: nat)
      requires Valid() && anchored
      modifies this
      ensures Valid() && anchored && clock == Advance(old(clock), serve, rate)
    {
      served := served + serve;
      if served >= rate {
        anchor := anchor + (served * NANOS) / rate;
        served := 0;
      }
      clock := Advance(clock, serve, rate);
    }
  }

  // ---- How far the deadline drifts ----------------------------------------------------------------

  /** What the origin has lost to truncation so far, in units of 1/rate ns. */
  function Lost(c: Clock, rate: nat): int {
    c.start * rate + (c.total - c.served) * NANOS - c.anchor * rate
  }

  ghost predicate Drifts(c: Clock, rate: nat, batch: nat) {
    && rate > 0 && c.served < rate && c.served <= c.total
    && 0 <= Lost(c, rate) <= c.rebases * (rate - 1)
    && c.rebases * rate <= c.total - c.served
  }

  lemma Truncates(samples: nat, rate: nat)
    requires rate > 0
    ensures Nanos(samples, rate) * rate <= samples * NANOS <= Nanos(samples, rate) * rate + (rate - 1)
  {
    var n := samples * NANOS;
    assert n == (n / rate) * rate + n % rate;
  }

  lemma AdvanceDrifts(c: Clock, serve: nat, rate: nat, batch: nat)
    requires Drifts(c, rate, batch) && serve <= batch
    ensures Drifts(Advance(c, serve, rate), rate, batch)
  {
    var c' := Advance(c, serve, rate);
    var served := c.served + serve;
    if served >= rate {
      Truncates(served, rate);
      assert c'.anchor * rate == c.anchor * rate + Nanos(served, rate) * rate;
      assert (c'.total - 0) * NANOS == (c.total - c.served) * NANOS + served * NANOS;
      assert c'.rebases * (rate - 1) == c.rebases * (rate - 1) + (rate - 1);
      assert c'.rebases * rate == c.rebases * rate + rate;
    }
  }

  lemma {:induction false} OverDrifts(start: nat, serves: seq<nat>, rate: nat, batch: nat)
    requires rate > 0 && forall k :: 0 <= k < |serves| ==> serves[k] <= batch
    ensures Drifts(Over(start, serves, rate), rate, batch)
  {
    if serves != [] {
      OverDrifts(start, serves[..|serves| - 1], rate, batch);
      AdvanceDrifts(Over(start, serves[..|serves| - 1], rate), serves[|serves| - 1], rate, batch);
    }
  }

  /** The deadline is never late, and early by less than one nanosecond for each re-basing plus
      one: `start + total/rate` is the ideal, multiplied out by the rate. */
  lemma TargetIsClose(start: nat, serves: seq<nat>, rate: nat, batch: nat)
    requires rate > 0 && forall k :: 0 <= k < |serves| ==> serves[k] <= batch
    ensures var c := Over(start, serves, rate);
      var ideal := start * rate + c.total * NANOS;
      Target(c, rate) * rate <= ideal < (Target(c, rate) + c.rebases + 1) * rate
    ensures var c := Over(start, serves, rate); c.rebases * rate <= c.total
  {
    OverDrifts(start, serves, rate, batch);
    OverStart(start, serves, rate);
    Close(Over(start, serves, rate), rate, batch);
  }

  lemma Distribute(a: int, b: int, c: int)
    ensures (a + b) * c == a * c + b * c && (a - b) * c == a * c - b * c
  {
  }

  lemma Close(c: Clock, rate: nat, batch: nat)
    requires Drifts(c, rate, batch)
    ensures Target(c, rate) * rate <= c.start * rate + c.total * NANOS < (Target(c, rate) + c.rebases + 1) * rate
    ensures c.rebases * rate <= c.total
  {
    var n, r := Nanos(c.served, rate), c.rebases;
    Truncates(c.served, rate);
    Distribute(c.anchor, n, rate);
    Distribute(Target(c, rate), r + 1, rate);
    Distribute(r, 1, rate);
    Distribute(rate, 1, r);
    hide Nanos, Target;
    assert c.total * NANOS == (c.total - c.served) * NANOS + c.served * NANOS;
    assert r * (rate - 1) == r * rate - r;
  }

  lemma {:induction false} OverStart(start: nat, serves: seq<nat>, rate: nat)
    requires rate > 0
    ensures Over(start, serves, rate).start == start
  {
    if serves != [] {
      OverStart(start, serves[..|serves| - 1], rate);
    }
  }

  /** Both products the throttle forms stay below (rate + batch) * 10^9, for a run of any length. */
  lemma ProductsStaySmall(start: nat, serves: seq<nat>, rate: nat, batch: nat, serve: nat)
    requires rate > 0 && 0 < serve <= batch && forall k :: 0 <= k < |serves| ==> serves[k] <= batch
    ensures var c := Over(start, serves, rate);
      c.served * NANOS < (rate + batch) * NANOS && (c.served + serve) * NANOS < (rate + batch) * NANOS
  {
    OverDrifts(start, serves, rate, batch);
  }

  /** Samples served. */
  function Sum(serves: seq<nat>): nat {
    if serves == [] then 0 else Sum(serves[..|serves| - 1]) + serves[|serves| - 1]
  }

  lemma {:induction false} TotalIs(start: nat, serves: seq<nat>, rate: nat)
    requires rate > 0
    ensures Over(start, serves, rate).total == Sum(serves)
  {
    if serves != [] {
      TotalIs(start, serves[..|serves| - 1], rate);
    }
  }

  /** In nanoseconds: the next deadline is never later than the first serve's time plus what has been served at
      the sample rate, and earlier by less than one nanosecond for every full second served, plus one. */
  lemma DeadlineIsClose(start: nat, serves: seq<nat>, rate: nat, batch: nat)
    requires rate > 0 && forall k :: 0 <= k < |serves| ==> serves[k] <= batch
    ensures var at, n := Target(Over(start, serves, rate), rate), Sum(serves);
      at * rate <= start * rate + n * 1_000_000_000 < (at + n / rate + 1) * rate
  {
    var c := Over(start, serves, rate);
    TargetIsClose(start, serves, rate, batch);
    TotalIs(start, serves, rate);
    Seconds(c.rebases, c.total, rate);
    var at := Target(c, rate);
    hide Over, Target, Sum;
    Wider(at + c.rebases + 1, at + c.total / rate + 1, rate);
  }

  lemma Seconds(r: nat, total: nat, rate: nat)
    requires rate > 0 && r * rate <= total
    ensures r <= total / rate
  {
    var q := total / rate;
    assert total == q * rate + total % rate;
    Distribute(q, 1, rate);
    if r > q {
      Wider(q + 1, r, rate);
    }
  }

  lemma Wider(a: int, b: int, rate: nat)
    requires a <= b
    ensures a * rate <= b * rate
  {
  }
}

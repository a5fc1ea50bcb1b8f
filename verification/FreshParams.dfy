/**
 Which of a chain's configured numbers a freshly prepared link runs with.  One path loss and
 one offset serve the whole chain; include/ocudu_gpu_channel/mutable_params.h:53-56 says the
 first of each is kept, src/mutable_params.cpp:31-58 keeps the last.
 */
module FreshParams {
  import opened Chain
  import opened RuntimeControl
  import opened CpuLinks

  /** The step with its own configured numbers. */
  function Own(ph: Physics, rate: nat, step: ModelStep): Step {
    match step
    case PathLossStep(lossDb) => PathLoss(ph.linear(-lossDb))
    case TurnStep(phaseRad, cfoHz) => Turn(phaseRad, ph.Increment(cfoHz, rate))
    case TdlStep(taps) => ph.TdlOf(taps)
  }

  predicate SamePathLoss(chain: seq<ModelStep>) {
    forall j, k :: 0 <= j < |chain| && 0 <= k < |chain| && chain[j].PathLossStep? && chain[k].PathLossStep? ==>
      chain[j].lossDb == chain[k].lossDb
  }

  predicate SameOffset(chain: seq<ModelStep>) {
    forall j, k :: 0 <= j < |chain| && 0 <= k < |chain| && chain[j].TurnStep? && chain[k].TurnStep? ==>
      chain[j].cfoHz == chain[k].cfoHz
  }

  // ---- The last one wins -----------------------------------------------------------------------

  /** The scan ends with the last path loss of the chain. */
  lemma {:induction false} LastPathLoss(chain: seq<ModelStep>, k: nat)
    requires k < |chain| && chain[k].PathLossStep? && forall j :: k < j < |chain| ==> !chain[j].PathLossStep?
    ensures YamlParams(chain).pathLossDb == chain[k].lossDb
  {
    ScanPathLoss(chain, k);
  }

  lemma {:induction false} ScanPathLoss(chain: seq<ModelStep>, k: nat)
    requires k < |chain| && chain[k].PathLossStep? && forall j :: k < j < |chain| ==> !chain[j].PathLossStep?
    ensures Scanned(chain).pathLossDb == chain[k].lossDb
  {
    if k < |chain| - 1 {
      ScanPathLoss(chain[..|chain| - 1], k);
    }
  }

  lemma {:induction false} ScanOffset(chain: seq<ModelStep>, k: nat)
    requires k < |chain| && chain[k].TurnStep? && forall j :: k < j < |chain| ==> !chain[j].TurnStep?
    ensures Scanned(chain).cfoHz == chain[k].cfoHz
  {
    if k < |chain| - 1 {
      ScanOffset(chain[..|chain| - 1], k);
    }
  }

  /** ... and with the last offset; a phase step counts as an offset of its own. */
  lemma LastOffset(chain: seq<ModelStep>, k: nat)
    requires k < |chain| && chain[k].TurnStep? && forall j :: k < j < |chain| ==> !chain[j].TurnStep?
    ensures YamlParams(chain).cfoHz == chain[k].cfoHz
  {
    ScanOffset(chain, k);
  }

  lemma {:induction false} LastSuch(chain: seq<ModelStep>, loss: bool, k: nat) returns (l: nat)
    requires k < |chain| && (if loss then chain[k].PathLossStep? else chain[k].TurnStep?)
    ensures k <= l < |chain| && (if loss then chain[l].PathLossStep? else chain[l].TurnStep?)
    ensures forall j :: l < j < |chain| ==> if loss then !chain[j].PathLossStep? else !chain[j].TurnStep?
    decreases |chain| - k
  {
    if j :| k < j < |chain| && (if loss then chain[j].PathLossStep? else chain[j].TurnStep?) {
      l := LastSuch(chain, loss, j);
    } else {
      l := k;
    }
  }

  // ---- Exactly when every step keeps its numbers ---------------------------------------------------

  /** Each path loss and each oscillator of the chain runs with its own number. */
  ghost predicate KeepsNumbers(chain: seq<ModelStep>) {
    && (forall k :: 0 <= k < |chain| && chain[k].PathLossStep? ==> YamlParams(chain).pathLossDb == chain[k].lossDb)
    && forall k :: 0 <= k < |chain| && chain[k].TurnStep? ==> YamlParams(chain).cfoHz == chain[k].cfoHz
  }

  /** A fresh link runs every path loss and every oscillator with its own configured number
      precisely when the chain's path losses are all equal and so are its offsets. */
  lemma KeepsNumbersExactly(chain: seq<ModelStep>)
    ensures KeepsNumbers(chain) <==> SamePathLoss(chain) && SameOffset(chain)
  {
    if SamePathLoss(chain) && SameOffset(chain) {
      forall k | 0 <= k < |chain| && chain[k].PathLossStep? ensures YamlParams(chain).pathLossDb == chain[k].lossDb {
        var l := LastSuch(chain, true, k);
        LastPathLoss(chain, l);
      }
      forall k | 0 <= k < |chain| && chain[k].TurnStep? ensures YamlParams(chain).cfoHz == chain[k].cfoHz {
        var l := LastSuch(chain, false, k);
        LastOffset(chain, l);
      }
    }
  }

  /** Different decibels are different factors, and offsets are resolved at a real sample rate. */
  ghost predicate Resolving(ph: Physics, rate: nat) {
    && ph.tr.turn > 0.0 && rate > 0
    && forall a, b :: ph.linear(a) == ph.linear(b) ==> a == b
  }

  lemma IncrementTells(ph: Physics, rate: nat, a: real, b: real)
    requires ph.tr.turn > 0.0 && rate > 0 && ph.Increment(a, rate) == ph.Increment(b, rate)
    ensures a == b
  {
    var t, r := ph.tr.turn, rate as real;
    assert t * a / r * r == t * a && t * b / r * r == t * b;
    assert t * (a - b) == 0.0;
  }

  ghost predicate RunsOwn(ph: Physics, rate: nat, chain: seq<ModelStep>) {
    forall k :: 0 <= k < |chain| && !chain[k].TdlStep? ==> LinkChain(ph, rate, chain)[k] == Own(ph, rate, chain[k])
  }

  /** The same of what the link computes: every step other than a tdl is the configured one
      precisely under that condition. */
  lemma RunsOwnExactly(ph: Physics, rate: nat, chain: seq<ModelStep>)
    requires Resolving(ph, rate)
    ensures RunsOwn(ph, rate, chain) <==> SamePathLoss(chain) && SameOffset(chain)
  {
    KeepsNumbersExactly(chain);
    if RunsOwn(ph, rate, chain) {
      forall k | 0 <= k < |chain| && chain[k].PathLossStep? ensures YamlParams(chain).pathLossDb == chain[k].lossDb {
        assert LinkChain(ph, rate, chain)[k] == Own(ph, rate, chain[k]);
      }
      forall k | 0 <= k < |chain| && chain[k].TurnStep? ensures YamlParams(chain).cfoHz == chain[k].cfoHz {
        assert LinkChain(ph, rate, chain)[k] == Own(ph, rate, chain[k]);
        IncrementTells(ph, rate, YamlParams(chain).cfoHz, chain[k].cfoHz);
      }
    }
  }

  /** A chain with at most one path loss and at most one oscillator always runs as configured. */
  lemma SinglesRunOwn(ph: Physics, rate: nat, chain: seq<ModelStep>)
    requires forall j, k :: 0 <= j < k < |chain| ==> !(chain[j].PathLossStep? && chain[k].PathLossStep?)
    requires forall j, k :: 0 <= j < k < |chain| ==> !(chain[j].TurnStep? && chain[k].TurnStep?)
    ensures RunsOwn(ph, rate, chain)
  {
    assert SamePathLoss(chain) && SameOffset(chain) by {
      forall j, k | 0 <= j < |chain| && 0 <= k < |chain| && chain[j].PathLossStep? && chain[k].PathLossStep?
        ensures chain[j].lossDb == chain[k].lossDb
      {
        assert j == k;
      }
      forall j, k | 0 <= j < |chain| && 0 <= k < |chain| && chain[j].TurnStep? && chain[k].TurnStep?
        ensures chain[j].cfoHz == chain[k].cfoHz
      {
        assert j == k;
      }
    }
    KeepsNumbersExactly(chain);
  }

  // ---- Chains that lose a number -----------------------------------------------------------------------

  /** Two path losses of 20 and 3: both steps run with 3. */
  lemma SecondPathLossWins(ph: Physics, rate: nat)
    ensures var chain := [PathLossStep(20.0), PathLossStep(3.0)];
      LinkChain(ph, rate, chain) == [PathLoss(ph.linear(-3.0)), PathLoss(ph.linear(-3.0))]
  {
    LastPathLoss([PathLossStep(20.0), PathLossStep(3.0)], 1);
  }

  /** A frequency offset followed by a plain phase step: the offset is gone. */
  lemma PhaseStepErasesOffset(ph: Physics, rate: nat, phaseRad: real, cfoHz: real)
    ensures var chain := [TurnStep(0.0, cfoHz), TurnStep(phaseRad, 0.0)];
      LinkChain(ph, rate, chain)[0] == Turn(0.0, 0.0)
  {
    LastOffset([TurnStep(0.0, cfoHz), TurnStep(phaseRad, 0.0)], 1);
    if rate > 0 {
      assert ph.tr.turn * 0.0 / rate as real == 0.0;
    }
  }

  // ---- The first taps ----------------------------------------------------------------------------------

  /** The tap numbers that one set of live scalars replaces in every tdl step. */
  function TapNumbers(chain: seq<ModelStep>): (real, real, real) {
    if Leads(chain) && chain[0].taps != [] then
      (chain[0].taps[0].delay, chain[0].taps[0].gainDb, chain[0].taps[0].phaseRad)
    else (0.0, 0.0, 0.0)
  }

  /** The K-factor that goes with them. */
  function LosNumber(chain: seq<ModelStep>): real {
    if Leads(chain) && chain[0].taps != [] then chain[0].taps[0].losKDb else 0.0
  }

  ghost predicate KeepsTaps(chain: seq<ModelStep>) {
    forall k :: 0 <= k < |chain| && chain[k].TdlStep? ==> Override(chain[k].taps, YamlParams(chain)) == chain[k].taps
  }

  /** Every tdl step runs its own taps precisely when the first tap of each has the leading tdl's
      numbers - or zeros, in a chain that does not lead with one. */
  lemma KeepsTapsExactly(chain: seq<ModelStep>)
    ensures KeepsTaps(chain) <==>
            forall k :: 0 <= k < |chain| && chain[k].TdlStep? && chain[k].taps != [] ==>
              var t := chain[k].taps[0];
              (t.delay, t.gainDb, t.phaseRad) == TapNumbers(chain) && (t.isLos ==> t.losKDb == LosNumber(chain))
  {
    ScanLeavesTaps(chain);
    forall k | 0 <= k < |chain| && chain[k].TdlStep? && chain[k].taps != []
      ensures Override(chain[k].taps, YamlParams(chain)) == chain[k].taps <==>
              var t := chain[k].taps[0];
              (t.delay, t.gainDb, t.phaseRad) == TapNumbers(chain) && (t.isLos ==> t.losKDb == LosNumber(chain))
    {
      OverrideKeeps(chain[k].taps, YamlParams(chain));
    }
  }

  lemma OverrideKeeps(taps: seq<TapSpec>, live: Mutable)
    requires taps != []
    ensures Override(taps, live) == taps <==>
            var t := taps[0];
            (t.delay, t.gainDb, t.phaseRad) == (live.tap0Delay, live.tap0GainDb, live.tap0PhaseRad) &&
            (t.isLos ==> t.losKDb == live.losKDb)
  {
    assert Override(taps, live)[1..] == taps[1..];
    assert Override(taps, live) == [Override(taps, live)[0]] + Override(taps, live)[1..];
    assert taps == [taps[0]] + taps[1..];
  }

  lemma {:induction false} ScanLeavesTaps(chain: seq<ModelStep>)
    ensures var m := Scanned(chain);
      m.tap0Delay == 0.0 && m.tap0GainDb == 0.0 && m.tap0PhaseRad == 0.0 && m.losKDb == 0.0
  {
    if chain != [] {
      ScanLeavesTaps(chain[..|chain| - 1]);
    }
  }

  /** A tdl behind a path loss, with one tap five samples late: the link runs it undelayed. */
  lemma LateTdlLosesItsDelay(ph: Physics, rate: nat)
    ensures var chain := [PathLossStep(0.0), TdlStep([TapSpec(5.0, 0.0, 0.0, false, 0.0, 0.0)])];
      LinkChain(ph, rate, chain)[1] == ph.TdlOf([TapSpec(0.0, 0.0, 0.0, false, 0.0, 0.0)])
  {
    ScanLeavesTaps([PathLossStep(0.0), TdlStep([TapSpec(5.0, 0.0, 0.0, false, 0.0, 0.0)])]);
  }
}

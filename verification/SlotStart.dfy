/**
 What a slot starts from, in the control's own fields (src/cpu_backend.cpp:147-229): which writes it takes
 over, which ring it clears, and how long the warmup window stays open.
 */
module SlotStart {
  import opened Iq
  import opened Chain
  import opened RuntimeControl
  import opened CpuLinks
  import opened ProfileSwap

  /** The version is new and its gate has come. */
  predicate Due(v: LinkVars, c: View) {
    c.seqno != v.liveSeqno && c.gate <= v.nextSlot
  }

  /** ... and with it comes a profile that the link can hold, or is forced to. */
  predicate Swaps(chain: seq<ModelStep>, v: LinkVars, c: View) {
    Due(v, c) && c.pending && ((chain != [] && chain[0].TdlStep?) || c.profile.force)
  }

  predicate FirstTdlAt(chain: seq<ModelStep>, k: nat) {
    k < |chain| && chain[k].TdlStep? && forall j :: 0 <= j < k ==> !chain[j].TdlStep?
  }

  /** Everything a slot takes over and clears. */
  lemma StartsExactly(chain: seq<ModelStep>, l: LinkValue, c: View, count: nat)
    requires |l.sts| == |chain|
    ensures var b, v := Begun(chain, l, c, count), l.vars;
      && b.vars.nextSlot == v.nextSlot + 1 && |b.sts| == |chain|
      && (if Due(v, c) then b.vars.live == c.shadow && b.vars.liveSeqno == c.seqno
          else b.vars.live == v.live && b.vars.liveSeqno == v.liveSeqno)
      && (if Swaps(chain, v, c) then b.vars.profile == c.profile && b.vars.active
          else b.vars.profile == v.profile && b.vars.active == v.active)
      && forall k :: 0 <= k < |chain| ==>
           b.sts[k] == if Swaps(chain, v, c) && FirstTdlAt(chain, k)
                       then StepState(seq(|l.sts[k].line|, _ => Sample(0.0, 0.0)), l.sts[k].phase)
                       else l.sts[k]
  {
    forall k | 0 <= k < |chain| ensures FirstTdlAt(chain, k) <==> k == FirstTdl(chain) {
    }
    forall k | 0 <= k < |chain| ensures seq(|l.sts[k].line|, _ => Sample(0.0, 0.0)) == Zeros(|l.sts[k].line|) {
    }
  }

  // ---- The warmup window ----------------------------------------------------------------------------------------

  /** A link's variables slot by slot, its slots of `count` samples and its ring of `ring`. */
  function Through(v: LinkVars, cs: seq<View>, leads: bool, ring: nat, count: nat): LinkVars {
    if cs == [] then v else SlotBegin(Through(v, cs[..|cs| - 1], leads, ring, count), cs[|cs| - 1], leads, ring, count)
  }

  /** `w` slots are the fewest that hold the ring. */
  predicate Fewest(w: nat, ring: nat, count: nat) {
    ring <= w * count && (w == 0 || (w - 1) * count < ring)
  }

  lemma FewestIs(w: nat, ring: nat, count: nat)
    requires count > 0 && Fewest(w, ring, count)
    ensures WarmupSlots(ring, count) == w
  {
    var q := WarmupSlots(ring, count);
    WarmupSpan(ring, count);
    if q < w {
      Monotone(q, w - 1, count);
    } else if w < q {
      Monotone(w, q - 1, count);
    }
  }

  /** The ring of the chain's first tdl, if it has one. */
  ghost predicate RingAt(chain: seq<ModelStep>, sts: seq<StepState>, ring: nat)
    requires |sts| == |chain|
  {
    || (ring == 0 && forall k :: 0 <= k < |chain| ==> !chain[k].TdlStep?)
    || exists k :: 0 <= k < |chain| && FirstTdlAt(chain, k) && |sts[k].line| == ring
  }

  lemma RingIs(chain: seq<ModelStep>, sts: seq<StepState>, ring: nat)
    requires |sts| == |chain| && RingAt(chain, sts, ring)
    ensures RingOf(chain, sts) == ring
  {
    if k :| 0 <= k < |chain| && FirstTdlAt(chain, k) && |sts[k].line| == ring {
      assert k == FirstTdl(chain);
    }
  }

  /** A swap opens a window over that ring; any other slot closes the window once its end has come. */
  lemma WindowOpens(chain: seq<ModelStep>, l: LinkValue, c: View, count: nat, ring: nat, w: nat)
    requires |l.sts| == |chain| && RingAt(chain, l.sts, ring) && count > 0 && Fewest(w, ring, count)
    ensures var n, until := l.vars.nextSlot, Begun(chain, l, c, count).vars.warmupUntil;
      if Swaps(chain, l.vars, c) then until == if w == 0 then 0 else n + w
      else until == if l.vars.warmupUntil <= n then 0 else l.vars.warmupUntil
  {
    hide RingAt, Fewest, ClearRing, WarmupSlots;
    RingIs(chain, l.sts, ring);
    FewestIs(w, ring, count);
  }

  /** No view after the first brings a profile. */
  ghost predicate NoneAfter(v: LinkVars, cs: seq<View>, leads: bool, ring: nat, count: nat) {
    forall n :: 1 <= n < |cs| ==> !Activates(Through(v, cs[..n], leads, ring, count), cs[n], leads)
  }

  /** A profile taken over at a slot opens the window for exactly as many slots as refill the ring: each of them
      reports the slot at which it ends, and the first slot after them reports none. */
  lemma {:induction false} WindowCloses(chain: seq<ModelStep>, v: LinkVars, cs: seq<View>, leads: bool, ring: nat, count: nat, w: nat)
    requires cs != [] && count > 0 && Fewest(w, ring, count) && leads == (chain != [] && chain[0].TdlStep?)
    requires Swaps(chain, v, cs[0]) && NoneAfter(v, cs, leads, ring, count)
    ensures var v' := Through(v, cs, leads, ring, count);
      v'.nextSlot == v.nextSlot + |cs| && v'.warmupUntil == if |cs| <= w then v.nextSlot + w else 0
  {
    FewestIs(w, ring, count);
    var rest := cs[..|cs| - 1];
    if |cs| == 1 {
      assert Through(v, [], leads, ring, count) == v && cs[..0] == [];
    } else {
      hide WarmupSlots, Fewest;
      assert NoneAfter(v, rest, leads, ring, count) by {
        forall n | 1 <= n < |rest| ensures !Activates(Through(v, rest[..n], leads, ring, count), rest[n], leads) {
          assert rest[..n] == cs[..n];
        }
      }
      WindowCloses(chain, v, rest, leads, ring, count, w);
    }
  }
}

/** The slot-level snap is what the field-by-field one does when nobody writes meanwhile. */
module SnapRefines {
  import RuntimeControl
  import opened Snap

  /** The seven scalars, in the order they are copied. */
  function Scalars(x: seq<real>): RuntimeControl.Mutable
    requires |x| == FIELDS
  {
    RuntimeControl.Mutable(x[0], x[1], x[2], x[3], x[4], x[5], x[6])
  }

  /** How a profile is laid out in words; its force flag is the first. */
  type Layout = seq<real> -> RuntimeControl.Profile

  ghost predicate Faithful(c: Config, decode: Layout) {
    forall w :: |w| == c.words > 0 ==> (decode(w).force <==> w[0] != 0.0)
  }

  function ViewOf(c: Config, s: State, decode: Layout): RuntimeControl.View
    requires Shape(c, s)
  {
    RuntimeControl.View(Scalars(s.sh.shadow), decode(s.sh.profile), s.sh.pending, s.sh.gate, s.sh.seqno)
  }

  function VarsOf(c: Config, s: State, decode: Layout, warmup: nat): RuntimeControl.LinkVars
    requires Shape(c, s)
  {
    RuntimeControl.LinkVars(Scalars(s.live), s.liveSeqno, s.slot, decode(s.liveProfile), s.active, warmup)
  }

  /** From any state, torn or not: a slot that runs alone, field by field, ends with exactly the
      variables the slot-level snap computes. */
  lemma SlotIsSnapped(c: Config, s: State, decode: Layout, warmup: nat)
    requires Shape(c, s) && s.pc == Start && Faithful(c, decode)
    ensures VarsOf(c, FinishSlot(c, LinkStep(c, s)), decode, warmup) ==
            RuntimeControl.Snapped(VarsOf(c, s, decode, warmup), ViewOf(c, s, decode), c.leads)
  {
    SlotAlone(c, s);
    hide FinishSlot, LinkStep;
  }
}

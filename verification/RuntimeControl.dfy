/**
 Runtime-mutable link parameters (include/ocudu_gpu_channel/runtime_control.h): the
 shadow a control thread writes, and the snap a link's own thread takes at each slot.
 Here a snap sees the shadow between control writes; module Snap interleaves them.
 */
module RuntimeControl {

  const MAX_TAPS: nat := 32

  datatype Mutable = Mutable(pathLossDb: real, awgnSnrDb: real, losKDb: real, cfoHz: real,
                             tap0Delay: real, tap0GainDb: real, tap0PhaseRad: real)

  const DEFAULTS := Mutable(0.0, 60.0, 0.0, 0.0, 0.0, 0.0, 0.0)

  datatype TapSpec = TapSpec(delay: real, gainDb: real, phaseRad: real, isLos: bool, losKDb: real, losAngle: real)

  datatype Fading = Fading(enabled: bool, dopplerHz: real, gridUs: real)

  datatype Profile = Profile(taps: seq<TapSpec>, fading: Fading, force: bool)

  const NO_PROFILE := Profile([], Fading(false, 0.0, 100.0), false)

  /** What the control thread owns of a link. */
  datatype View = View(shadow: Mutable, profile: Profile, pending: bool, gate: nat, seqno: nat)

  /** A link's own runtime variables. */
  datatype LinkVars = LinkVars(live: Mutable, liveSeqno: nat, nextSlot: nat, profile: Profile, active: bool, warmupUntil: nat)

  /** The slot takes the shadow over: something was written and its gate has opened. */
  predicate Takes(v: LinkVars, c: View) {
    c.seqno != v.liveSeqno && c.gate <= v.nextSlot
  }

  /** The slot also takes the profile over. */
  predicate Activates(v: LinkVars, c: View, leads: bool) {
    Takes(v, c) && c.pending && (leads || c.profile.force)
  }

  /** Whole slots needed to refill a ring. */
  function WarmupSlots(ring: nat, count: nat): nat {
    if count == 0 then 1 else (ring + count - 1) / count
  }

  /** Parameters and profile as a slot's snap leaves them, the slot counter moved on. */
  function Snapped(v: LinkVars, c: View, leads: bool): LinkVars {
    var v1 := v.(nextSlot := v.nextSlot + 1);
    var v2 := if Takes(v, c) then v1.(live := c.shadow, liveSeqno := c.seqno) else v1;
    if Activates(v, c, leads) then v2.(profile := c.profile, active := true) else v2
  }

  /** The variables a slot of `count` samples runs with.  `ring` is the first tdl step's ring
      size, or 0. */
  function SlotBegin(v: LinkVars, c: View, leads: bool, ring: nat, count: nat): LinkVars {
    var s := Snapped(v, c, leads);
    var until := if Activates(v, c, leads) then v.nextSlot + WarmupSlots(ring, count) else v.warmupUntil;
    s.(warmupUntil := if until != 0 && v.nextSlot >= until then 0 else until)
  }

  class LinkControl {
    var shadow: Mutable
    var shadowProfile: Profile
    var profilePending: bool
    var takeEffectAtSlot: nat
    var currentSlot: nat
    var seqno: nat
    var forceInertWarnings: nat
    var dlSizeHint: nat
    var slotCountHint: nat

    constructor (initial: Mutable, dlSize: nat, slotCount: nat)
      ensures ControlView() == View(initial, NO_PROFILE, false, 0, 0)
      ensures currentSlot == 0 && forceInertWarnings == 0 && dlSizeHint == dlSize && slotCountHint == slotCount
    {
      shadow, shadowProfile, profilePending, takeEffectAtSlot := initial, NO_PROFILE, false, 0;
      currentSlot, seqno, forceInertWarnings, dlSizeHint, slotCountHint := 0, 0, 0, dlSize, slotCount;
    }

    function ControlView(): View
      reads this
    {
      View(shadow, shadowProfile, profilePending, takeEffectAtSlot, seqno)
    }

    /** Copies the shadow if its version is new and its gate is open; a deferred copy
        leaves the version alone, so that the next slot looks again. */
    method SnapMutableParams(live: Mutable, liveSeqno: nat, slot: nat)
        returns (live': Mutable, liveSeqno': nat, changed: bool)
      modifies this`currentSlot
      ensures currentSlot == slot
      ensures changed <==> liveSeqno != seqno && takeEffectAtSlot <= slot
      ensures if changed then live' == shadow && liveSeqno' == seqno else live' == live && liveSeqno' == liveSeqno
    {
      currentSlot := slot;
      var observed := seqno;
      if observed == liveSeqno {
        return live, liveSeqno, false;
      }
      if takeEffectAtSlot > slot {
        return live, liveSeqno, false;
      }
      return shadow, observed, true;
    }

    /** The pending mark stays set: every later snap copies the profile again. */
    method SnapProfileFromShadow(liveProfile: Profile) returns (liveProfile': Profile, copied: bool)
      ensures copied == profilePending
      ensures liveProfile' == if profilePending then shadowProfile else liveProfile
    {
      if !profilePending {
        return liveProfile, false;
      }
      return shadowProfile, true;
    }
  }
}

/**
 Run-time changes on the CUDA side: the device struct follows the CPU link through every
 control write, and a host-staged link does not.
 */
module DeviceSwap {
  import opened Iq
  import opened Chain
  import opened RuntimeControl
  import opened CpuLinks
  import opened Fused
  import Tdl
  import TdlStream
  import TdlResponse

  // ---- Refreshing a device struct ------------------------------------------------------------

  function Kept(specs: seq<TapSpec>): (k: seq<TapSpec>)
    ensures |k| <= RuntimeControl.MAX_TAPS && (|specs| <= RuntimeControl.MAX_TAPS ==> k == specs)
  {
    if |specs| > RuntimeControl.MAX_TAPS then specs[..RuntimeControl.MAX_TAPS] else specs
  }

  /** Every tap replaced by a profile's. */
  function Refreshed(ph: Physics, d: DevLink, specs: seq<TapSpec>): DevLink {
    if !d.hasTdl then d
    else
      var taps := ph.TapsOf(Kept(specs));
      d.(taps := taps, poly := Tdl.Polyphase(taps, ph.sinc))
  }

  /** The first tap replaced by the live scalars. */
  function RefreshedTap0(ph: Physics, d: DevLink, live: Mutable): DevLink {
    if !d.hasTdl || d.taps == [] || d.poly == [] then d
    else
      var t := Tdl.Tap(live.tap0Delay, ph.linear(live.tap0GainDb), ph.tr.rot(live.tap0PhaseRad));
      d.(taps := d.taps[0 := t], poly := d.poly[0 := ph.sinc(t.delay - t.Whole() as real)])
  }

  /** src/device_channel.cu:433-490: per-tap tables rebuilt, in place. */
  method RefreshAllTaps(ph: Physics, d: DevLink, specs: seq<TapSpec>) returns (d': DevLink)
    ensures d' == Refreshed(ph, d, specs)
    ensures d'.line == d.line && d'.src == d.src && (!d.hasTdl ==> d' == d)
    ensures d.hasTdl ==> Taps(d'.taps, d'.poly) == ph.TdlOf(Kept(specs))
  {
    if !d.hasTdl {
      return d;
    }
    if |specs| == 0 {
      assert Tdl.Polyphase(ph.TapsOf([]), ph.sinc) == [] && ph.TapsOf([]) == [];
      return d.(taps := [], poly := []);
    }
    var n := if |specs| > RuntimeControl.MAX_TAPS then RuntimeControl.MAX_TAPS else |specs|;
    ghost var whole := Refreshed(ph, d, specs);
    var taps, poly := [], [];
    for k := 0 to n
      invariant |taps| == |poly| == k && taps == whole.taps[..k] && poly == whole.poly[..k]
    {
      var t := ph.TapOf(specs[k]);
      taps := taps + [t];
      poly := poly + [ph.sinc(t.delay - t.delay.Floor as real)];
    }
    d' := d.(taps := taps, poly := poly);
  }

  /** src/device_channel.cu:401-431: the live scalars in place of the first tap.  A struct that
      held the link's taps under some scalars holds them under the new ones; its ring, and a
      struct without a tdl, stay as they are. */
  method RefreshTap0(ph: Physics, d: DevLink, live: Mutable) returns (d': DevLink)
    ensures d' == RefreshedTap0(ph, d, live)
    ensures d'.line == d.line && d'.src == d.src && (!d.hasTdl ==> d' == d)
    ensures forall specs, was :: d.hasTdl && Taps(d.taps, d.poly) == ph.TdlOf(Override(specs, was)) ==>
      Taps(d'.taps, d'.poly) == ph.TdlOf(Override(specs, live))
  {
    forall specs, was | d.hasTdl && Taps(d.taps, d.poly) == ph.TdlOf(Override(specs, was))
      ensures var r := RefreshedTap0(ph, d, live); Taps(r.taps, r.poly) == ph.TdlOf(Override(specs, live))
    {
      Tap0Agrees(ph, specs, was, live, d);
    }
    if !d.hasTdl || |d.taps| == 0 || |d.poly| == 0 {
      return d;
    }
    var delay := live.tap0Delay;
    var t := Tdl.Tap(delay, ph.linear(live.tap0GainDb), ph.tr.rot(live.tap0PhaseRad));
    d' := d.(taps := d.taps[0 := t], poly := d.poly[0 := ph.sinc(delay - delay.Floor as real)]);
  }

  /** What one serve does to the struct before its kernels run (src/cuda_backend.cu:713-770). */
  function DeviceBegun(ph: Physics, d: DevLink, v: LinkVars, c: View): DevLink {
    if !Takes(v, c) || !d.hasTdl then d
    else
      var s := Snapped(v, c, true);
      if s.active then
        var r := Refreshed(ph, d, s.profile.taps);
        if Activates(v, c, true) then r.(line := Zeros(|r.line|)) else r
      else RefreshedTap0(ph, d, s.live)
  }

  /** The refresh between snapping a link and launching its kernels (src/cuda_backend.cu:713-770):
      nothing unless the slot took parameters over, all taps under a live profile - with the ring
      zeroed when the profile has just arrived - and the first tap otherwise. */
  method RefreshStruct(ph: Physics, d: DevLink, v: LinkVars, c: View, ghost chain: seq<ModelStep>, ghost sts: seq<StepState>,
      ghost count: nat) returns (d': DevLink)
    requires |sts| == |chain|
    ensures d' == DeviceBegun(ph, d, v, c) && (!d.hasTdl || !Takes(v, c) ==> d' == d)
    ensures Leads(chain) && Follows(ph, chain, LinkValue(v, sts), d) && TapsFit(v, c) ==>
      Follows(ph, chain, Begun(chain, LinkValue(v, sts), c, count), d')
  {
    d' := d;
    if Takes(v, c) && d.hasTdl {
      var s := Snapped(v, c, true);
      if s.active {
        d' := RefreshAllTaps(ph, d, s.profile.taps);
        if Activates(v, c, true) {
          d' := d'.(line := Zeros(|d'.line|));
        }
      } else {
        d' := RefreshTap0(ph, d, s.live);
      }
    }
    if Leads(chain) && Follows(ph, chain, LinkValue(v, sts), d) && TapsFit(v, c) {
      DeviceFollows(ph, chain, LinkValue(v, sts), d, c, count);
    }
  }

  // ---- The device follows the CPU ---------------------------------------------------------------

  /** Profiles, taken over or still in the shadow, fit the struct. */
  predicate TapsFit(v: LinkVars, c: View) {
    |v.profile.taps| <= RuntimeControl.MAX_TAPS && |c.profile.taps| <= RuntimeControl.MAX_TAPS
  }

  /** The struct holds the taps the CPU link would run now, and its ring. */
  ghost predicate Follows(ph: Physics, chain: seq<ModelStep>, l: LinkValue, d: DevLink)
    requires Leads(chain) && |l.sts| == |chain|
  {
    d.hasTdl && d.line == l.sts[0].line &&
    Taps(d.taps, d.poly) == ph.TdlOf(Effective(chain[0].taps, l.vars))
  }

  lemma Tap0Agrees(ph: Physics, specs: seq<TapSpec>, was: Mutable, live: Mutable, d: DevLink)
    requires d.hasTdl && Taps(d.taps, d.poly) == ph.TdlOf(Override(specs, was))
    ensures var d' := RefreshedTap0(ph, d, live); Taps(d'.taps, d'.poly) == ph.TdlOf(Override(specs, live))
  {
    var d' := RefreshedTap0(ph, d, live);
    var want := ph.TdlOf(Override(specs, live));
    if specs == [] {
      assert d.taps == [];
    } else {
      forall k | 0 <= k < |specs| ensures d'.taps[k] == want.taps[k] && d'.poly[k] == want.poly[k] {
        assert k > 0 ==> Override(specs, live)[k] == specs[k] == Override(specs, was)[k];
      }
      assert d'.taps == want.taps && d'.poly == want.poly;
    }
  }

  /** Through every control write - scalar or profile, gated or not - a device struct that holds
      what the CPU link runs still holds it when the slot's kernels start. */
  lemma DeviceFollows(ph: Physics, chain: seq<ModelStep>, l: LinkValue, d: DevLink, c: View, n: nat)
    requires Leads(chain) && |l.sts| == |chain| && Follows(ph, chain, l, d) && TapsFit(l.vars, c)
    ensures Follows(ph, chain, Begun(chain, l, c, n), DeviceBegun(ph, d, l.vars, c))
  {
    var v, v' := l.vars, Begun(chain, l, c, n).vars;
    assert FirstTdl(chain) == 0;
    if Takes(v, c) {
      if Snapped(v, c, true).active {
        assert Kept(v'.profile.taps) == v'.profile.taps;
      } else {
        Tap0Agrees(ph, chain[0].taps, v.live, c.shadow, d);
      }
    } else {
      assert Effective(chain[0].taps, v) == Effective(chain[0].taps, v');
    }
  }

  /** An edge the device could not hold stays a plain wire, whatever is written. */
  lemma WireStaysWire(ph: Physics, d: DevLink, v: LinkVars, c: View)
    requires !d.hasTdl
    ensures DeviceBegun(ph, d, v, c) == d
  {
  }

  // ---- Two channels compared ----------------------------------------------------------------------

  /** Two sets of taps with the same impulse response. */
  ghost predicate SameResponse(a: Step, b: Step)
    requires a.Taps? && b.Taps? && a.Shaped() && b.Shaped()
  {
    forall m :: TdlResponse.Response(a.taps, a.poly, m) == TdlResponse.Response(b.taps, b.poly, m)
  }

  lemma {:induction false} SameSums(f: Tdl.Signal, a: Step, b: Step, n: int, lo: int, hi: int)
    requires a.Taps? && b.Taps? && a.Shaped() && b.Shaped() && SameResponse(a, b)
    ensures TdlResponse.ResponseSum(f, a.taps, a.poly, n, lo, hi) == TdlResponse.ResponseSum(f, b.taps, b.poly, n, lo, hi)
    decreases hi - lo
  {
    hide TdlResponse.Response, Add, Rotate, Tdl.Shaped;
    if lo < hi {
      SameSums(f, a, b, n, lo, hi - 1);
    }
  }

  lemma SameConv(f: Tdl.Signal, a: Step, b: Step, n: int)
    requires a.Taps? && b.Taps? && a.Shaped() && b.Shaped() && SameResponse(a, b)
    ensures Tdl.Conv(f, a.taps, a.poly, n, |a.taps|) == Tdl.Conv(f, b.taps, b.poly, n, |b.taps|)
  {
    var lo := n - Tdl.RingSize(a.taps) - Tdl.RingSize(b.taps);
    hide Tdl.Conv, TdlResponse.ResponseSum, SameResponse;
    TdlResponse.ConvIsResponse(f, a.taps, a.poly, n, lo);
    TdlResponse.ConvIsResponse(f, b.taps, b.poly, n, lo);
    SameSums(f, a, b, n, lo, n + 4);
  }

  ghost predicate SameStreams(a: Step, b: Step, r: nat)
    requires a.Taps? && b.Taps? && a.Shaped() && b.Shaped()
  {
    forall slots ::
      TdlStream.StreamOut(a.taps, a.poly, Zeros(r), slots) == TdlStream.StreamOut(b.taps, b.poly, Zeros(r), slots)
  }

  lemma {:induction false} SameOut(a: Step, b: Step, r: nat, slots: seq<seq<Sample>>)
    requires a.Taps? && b.Taps? && a.Shaped() && b.Shaped() && SameResponse(a, b)
    ensures TdlStream.StreamOut(a.taps, a.poly, Zeros(r), slots) == TdlStream.StreamOut(b.taps, b.poly, Zeros(r), slots)
  {
    hide SameResponse, Step.Shaped;
    if slots != [] {
      var rest, last := slots[..|slots| - 1], slots[|slots| - 1];
      SameOut(a, b, r, rest);
      SameSlot(a, b, TdlStream.StreamLine(Zeros(r), rest), last);
    }
  }

  lemma SameSlot(a: Step, b: Step, line: seq<Sample>, input: seq<Sample>)
    requires a.Taps? && b.Taps? && a.Shaped() && b.Shaped() && SameResponse(a, b)
    ensures Tdl.SlotOut(a.taps, a.poly, line, input) == Tdl.SlotOut(b.taps, b.poly, line, input)
  {
    hide SameResponse;
    forall n | 0 <= n < |input|
      ensures Tdl.SlotOut(a.taps, a.poly, line, input)[n] == Tdl.SlotOut(b.taps, b.poly, line, input)[n]
    {
      SameConv(m => Tdl.Read(line, input, m), a, b, n);
    }
  }

  lemma OneSlotOut(s: Step, r: nat, input: seq<Sample>)
    requires s.Taps? && s.Shaped()
    ensures TdlStream.StreamOut(s.taps, s.poly, Zeros(r), [input]) == Tdl.SlotOut(s.taps, s.poly, Zeros(r), input)
  {
    hide Tdl.SlotOut, Tdl.Roll, Zeros;
    assert [input][..0] == [];
    assert TdlStream.StreamOut(s.taps, s.poly, Zeros(r), []) == [];
  }

  /** Two tap sets serve every cut of every stream alike precisely when their impulse responses
      are the same. */
  lemma SameStreamsExactly(a: Step, b: Step, r: nat)
    requires a.Taps? && b.Taps? && a.Shaped() && b.Shaped() && Tdl.Covers(a.taps, r) && Tdl.Covers(b.taps, r)
    ensures SameStreams(a, b, r) <==> SameResponse(a, b)
  {
    if SameResponse(a, b) {
      forall slots ensures TdlStream.StreamOut(a.taps, a.poly, Zeros(r), slots) ==
                           TdlStream.StreamOut(b.taps, b.poly, Zeros(r), slots)
      {
        SameOut(a, b, r, slots);
      }
    }
    if SameStreams(a, b, r) {
      forall m ensures TdlResponse.Response(a.taps, a.poly, m) == TdlResponse.Response(b.taps, b.poly, m) {
        SameAt(a, b, r, m);
      }
    }
  }

  lemma SameAt(a: Step, b: Step, r: nat, m: int)
    requires a.Taps? && b.Taps? && a.Shaped() && b.Shaped() && Tdl.Covers(a.taps, r) && Tdl.Covers(b.taps, r)
    requires SameStreams(a, b, r)
    ensures TdlResponse.Response(a.taps, a.poly, m) == TdlResponse.Response(b.taps, b.poly, m)
  {
    var p := if m < 0 then 0 - m else 0;
    var input := TdlResponse.Impulse(p, p + (m + p) + 1);
    hide TdlResponse.Response, Tdl.SlotOut, Zeros, Tdl.Covers, Tdl.Shaped;
    TdlResponse.PulseSlot(a.taps, a.poly, r, p, m + p);
    TdlResponse.PulseSlot(b.taps, b.poly, r, p, m + p);
    OneSlotOut(a, r, input);
    OneSlotOut(b, r, input);
    assert TdlStream.StreamOut(a.taps, a.poly, Zeros(r), [input]) == TdlStream.StreamOut(b.taps, b.poly, Zeros(r), [input]);
  }

  // ---- A host-staged link ------------------------------------------------------------------------------

  /** On a node that stages on the host, a link's tdl keeps its configured taps
      (src/cuda_backend.cu:249-264): it agrees with the CPU link under parameters `v`, for every
      stream, precisely when the change those parameters make cannot be heard. */
  lemma HostStagedExactly(ph: Physics, rate: nat, chain: seq<ModelStep>, v: LinkVars, r: nat)
    requires ph.Valid() && SaneChain(chain) && SaneVars(v) && Leads(chain)
    requires Tdl.Covers(ph.TapsOf(chain[0].taps), r) && Tdl.Covers(ph.TapsOf(Effective(chain[0].taps, v)), r)
    ensures var staged, cpu := ph.TdlOf(chain[0].taps), Resolve(ph, rate, chain[0], v);
      staged.Shaped() && cpu.Shaped() && (SameStreams(staged, cpu, r) <==> SameResponse(staged, cpu))
  {
    ResolvedShaped(ph, rate, chain, v);
    assert ResolveAll(ph, rate, chain, v)[0].Shaped();
    StagedShaped(ph, chain[0].taps);
    SameStreamsExactly(ph.TdlOf(chain[0].taps), Resolve(ph, rate, chain[0], v), r);
  }

  lemma StagedShaped(ph: Physics, specs: seq<TapSpec>)
    requires ph.Valid() && DelaysFit(specs)
    ensures ph.TdlOf(specs).Shaped()
  {
  }
}

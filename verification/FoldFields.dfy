/**
 Folding in terms of the configuration's own fields (src/config.cpp:664-732): the delay a link gets is the
 offset of the first device its source names, or none, plus the link's own propagation delay.
 */
module FoldFields {
  import opened Iq
  import opened Chain
  import opened CpuLinks
  import opened Fold
  import opened FoldMeaning
  import opened FoldSignal
  import opened RuntimeControl

  /** `offset` is that of the first device called `id`, or zero if there is none. */
  ghost predicate Offset(devices: seq<Device>, id: string, offset: real) {
    || (offset == 0.0 && forall i :: 0 <= i < |devices| ==> devices[i].id != id)
    || exists i :: FirstAt(devices, id, i) && devices[i].txOffset == offset
  }

  ghost predicate FirstAt(devices: seq<Device>, id: string, i: int) {
    0 <= i < |devices| && devices[i].id == id && forall j :: 0 <= j < i ==> devices[j].id != id
  }

  lemma {:induction false} OffsetIs(devices: seq<Device>, id: string, offset: real)
    ensures Offset(devices, id, offset) <==> offset == TxOffset(devices, id)
  {
    if devices != [] {
      OffsetIs(devices[1..], id, offset);
      if devices[0].id == id {
        assert FirstAt(devices, id, 0);
      } else {
        OffsetTail(devices, id, offset);
      }
    }
  }

  lemma OffsetTail(devices: seq<Device>, id: string, offset: real)
    requires devices != [] && devices[0].id != id
    ensures Offset(devices, id, offset) <==> Offset(devices[1..], id, offset)
  {
    if i :| FirstAt(devices, id, i) && devices[i].txOffset == offset {
      assert i > 0 && devices[1..][i - 1] == devices[i];
      forall j | 0 <= j < i - 1 ensures devices[1..][j].id != id {
        assert devices[1..][j] == devices[j + 1];
      }
      assert FirstAt(devices[1..], id, i - 1);
    }
    if i :| FirstAt(devices[1..], id, i) && devices[1..][i].txOffset == offset {
      forall j | 0 <= j < i + 1 ensures devices[j].id != id {
        assert j > 0 ==> devices[j] == devices[1..][j - 1];
      }
      assert FirstAt(devices, id, i + 1);
    }
    if forall i :: 0 <= i < |devices| - 1 ==> devices[1..][i].id != id {
      forall i | 0 <= i < |devices| ensures devices[i].id != id {
        assert i > 0 ==> devices[i] == devices[1..][i - 1];
      }
    }
  }

  /** The offsets of all links' sources. */
  ghost predicate Offsets(devices: seq<Device>, links: seq<Link>, offsets: seq<real>) {
    |offsets| == |links| && forall k :: 0 <= k < |links| ==> Offset(devices, links[k].from, offsets[k])
  }

  /** Links that are delayed name configured models, and no two of them with different delays or models, nor
      a configured model, would share a clone's name. */
  ghost predicate Distinct(t: Setup, offsets: seq<real>)
    requires |offsets| == |t.links|
  {
    && (forall k :: 0 <= k < |t.links| && offsets[k] + t.links[k].propagation != 0.0 ==>
          && t.links[k].model in t.models
          && t.naming(t.links[k].model, offsets[k], t.links[k].propagation) !in t.models)
    && forall j, k :: 0 <= j < |t.links| && 0 <= k < |t.links| ==>
         || offsets[j] + t.links[j].propagation == 0.0 || offsets[k] + t.links[k].propagation == 0.0
         || t.naming(t.links[j].model, offsets[j], t.links[j].propagation) !=
            t.naming(t.links[k].model, offsets[k], t.links[k].propagation)
         || (t.links[j].model == t.links[k].model && offsets[j] + t.links[j].propagation == offsets[k] + t.links[k].propagation)
  }

  lemma DelayIs(t: Setup, offsets: seq<real>, k: nat)
    requires |offsets| == |t.links| && Offsets(t.devices, t.links, offsets) && k < |t.links|
    ensures t.Delay(k) == offsets[k] + t.links[k].propagation
    ensures t.Name(k) == t.naming(t.links[k].model, offsets[k], t.links[k].propagation)
  {
    OffsetIs(t.devices, t.links[k].from, offsets[k]);
  }

  lemma DistinctIsClean(t: Setup, offsets: seq<real>)
    requires |offsets| == |t.links| && Offsets(t.devices, t.links, offsets) && Distinct(t, offsets)
    ensures t.KnownBases() && Clean(t)
    ensures forall k :: 0 <= k < |t.links| && t.Folds(k) ==> t.Name(k) !in t.models
  {
    hide Offsets, Setup.Delay, Setup.Name;
    forall k | 0 <= k < |t.links|
      ensures t.Delay(k) == offsets[k] + t.links[k].propagation
      ensures t.Name(k) == t.naming(t.links[k].model, offsets[k], t.links[k].propagation)
    {
      DelayIs(t, offsets, k);
    }
    forall i | 0 <= i < |t.links| && t.Leader(i)
      ensures t.Name(i) !in t.models
      ensures forall j :: 0 <= j < i && t.Leader(j) && t.Name(j) == t.Name(i) ==> t.Want(j) == t.Want(i)
    {
      assert t.Folds(i);
    }
  }

  /** A link keeps its model if and only if the two delays add up to nothing; otherwise it is given the clone
      named after the first link with that delay and that model. */
  lemma NamedExactly(t: Setup, offsets: seq<real>, k: nat)
    requires |offsets| == |t.links| && Offsets(t.devices, t.links, offsets) && Distinct(t, offsets) && k < |t.links|
    ensures var name := Folded(t.devices, t.naming, t.models, t.links).names;
      && |name| == |t.links|
      && (name[k] == t.links[k].model <==> offsets[k] + t.links[k].propagation == 0.0)
      && (offsets[k] + t.links[k].propagation != 0.0 ==>
            exists j :: 0 <= j <= k && name[k] == t.naming(t.links[j].model, offsets[j], t.links[j].propagation)
                        && FirstAlike(t, offsets, j, k))
  {
    hide Distinct, Offsets, Offset, Delayed, Clean, ModelsOk;
    DistinctIsClean(t, offsets);
    FoldKeeps(t, |t.links|);
    FoldLeavesAlone(t);
    DelayIs(t, offsets, k);
    if t.Delay(k) != 0.0 {
      var j := t.LeaderOf(k);
      DelayIs(t, offsets, j);
      LeaderFirst(t, offsets, j, k);
      assert Final(t).names[k] == t.Name(j);
    }
  }

  /** Link `j` is the first with link `k`'s model and delay. */
  ghost predicate FirstAlike(t: Setup, offsets: seq<real>, j: int, k: nat)
    requires |offsets| == |t.links|
  {
    && 0 <= j <= k < |t.links| && t.links[j].model == t.links[k].model
    && offsets[j] + t.links[j].propagation == offsets[k] + t.links[k].propagation
    && forall i :: 0 <= i < j ==>
         t.links[i].model != t.links[k].model || offsets[i] + t.links[i].propagation != offsets[k] + t.links[k].propagation
  }

  lemma LeaderFirst(t: Setup, offsets: seq<real>, j: nat, k: nat)
    requires |offsets| == |t.links| && Offsets(t.devices, t.links, offsets) && j <= k < |t.links| && t.Leader(j) && t.Alike(j, k)
    ensures FirstAlike(t, offsets, j, k)
  {
    hide Offsets, Setup.Delay;
    forall i | 0 <= i <= k ensures t.Delay(i) == offsets[i] + t.links[i].propagation {
      DelayIs(t, offsets, i);
    }
    forall i | 0 <= i < j
      ensures t.links[i].model != t.links[k].model || offsets[i] + t.links[i].propagation != offsets[k] + t.links[k].propagation
    {
      assert !t.Alike(i, j);
    }
  }

  /** What a link with a whole number of samples' delay runs afterwards: its configured model on the stream
      that much later. */
  lemma FoldedFields(t: Setup, offsets: seq<real>, k: nat, ph: Physics, rate: nat, d: nat, x: seq<Sample>)
    requires |offsets| == |t.links| && Offsets(t.devices, t.links, offsets) && Distinct(t, offsets) && k < |t.links|
    requires d > 0 && offsets[k] + t.links[k].propagation == d as real && Grounded(ph)
    requires t.links[k].model in t.models ==> var base := t.models[t.links[k].model].chain; SaneChain(base) && OnlyLeads(base)
    ensures var f := Folded(t.devices, t.naming, t.models, t.links);
      && t.links[k].model in t.models && |f.names| == |t.links| && f.names[k] in f.models
      && var base, folded := t.models[t.links[k].model].chain, f.models[f.names[k]].chain;
      && ShapedChain(LinkChain(ph, rate, base)) && ShapedChain(LinkChain(ph, rate, folded))
      && WholeChain(ph.tr, LinkChain(ph, rate, folded), x) ==
         WholeChain(ph.tr, LinkChain(ph, rate, base), seq(d, _ => Sample(0.0, 0.0)) + x)[..|x|]
  {
    assert t.links[k].model in t.models;
    hide Distinct, Offsets, Offset, Delayed, Clean, Grounded, LinkChain, WholeChain;
    DistinctIsClean(t, offsets);
    DelayIs(t, offsets, k);
    assert seq(d, _ => Sample(0.0, 0.0)) == Zeros(d);
    FoldedSignal(t, k, ph, rate, d, x);
  }

  /** `late` is `chain` some delay later: every tap of a leading tdl that much later, or a lone unit tap of that
      delay in front; nothing else changes. */
  ghost predicate LaterBy(chain: seq<ModelStep>, late: seq<ModelStep>, delay: real) {
    if chain != [] && chain[0].TdlStep? then
      && |late| == |chain| && late[1..] == chain[1..] && late[0].TdlStep? && |late[0].taps| == |chain[0].taps|
      && forall j :: 0 <= j < |chain[0].taps| ==>
           var t := chain[0].taps[j];
           late[0].taps[j] == TapSpec(t.delay + delay, t.gainDb, t.phaseRad, t.isLos, t.losKDb, t.losAngle)
    else late == [TdlStep([TapSpec(delay, 0.0, 0.0, false, 0.0, 0.0)])] + chain
  }

  /** Whatever the delay, whole samples or not: the model a delayed link ends with is its own, later by the sum
      of the two delays. */
  lemma FoldedChain(t: Setup, offsets: seq<real>, k: nat)
    requires |offsets| == |t.links| && Offsets(t.devices, t.links, offsets) && Distinct(t, offsets) && k < |t.links|
    requires offsets[k] + t.links[k].propagation != 0.0
    ensures var f := Folded(t.devices, t.naming, t.models, t.links);
      && t.links[k].model in t.models && |f.names| == |t.links| && f.names[k] in f.models
      && LaterBy(t.models[t.links[k].model].chain, f.models[f.names[k]].chain, offsets[k] + t.links[k].propagation)
  {
    assert t.links[k].model in t.models;
    hide Distinct, Offsets, Offset, Clean;
    DistinctIsClean(t, offsets);
    DelayIs(t, offsets, k);
    CleanServes(t, k);
  }
}

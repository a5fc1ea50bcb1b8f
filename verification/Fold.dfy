/**
 Folding a link's leading delay into its model (src/config.cpp:664-732): each link whose
 source offset plus propagation delay is not zero is pointed at a clone of its model that
 delays by their sum.
 */
module Fold {
  import opened RuntimeControl
  import opened CpuLinks

  datatype Device = Device(id: string, txOffset: real)

  datatype Link = Link(from: string, to: string, model: string, propagation: real)

  datatype Model = Model(id: string, chain: seq<ModelStep>)

  /** How a clone is named: from its base, the source offset and the propagation delay.
      Printing a number may round it, so nothing is assumed about distinctness. */
  type Naming = (string, real, real) -> string

  function TxOffset(devices: seq<Device>, id: string): real {
    if devices == [] then 0.0
    else if devices[0].id == id then devices[0].txOffset
    else TxOffset(devices[1..], id)
  }

  function Total(devices: seq<Device>, link: Link): real {
    TxOffset(devices, link.from) + link.propagation
  }

  function ShiftTaps(taps: seq<TapSpec>, d: real): (t: seq<TapSpec>)
    ensures |t| == |taps| && forall k :: 0 <= k < |t| ==> t[k] == taps[k].(delay := taps[k].delay + d)
  {
    seq(|taps|, k requires 0 <= k < |taps| => taps[k].(delay := taps[k].delay + d))
  }

  /** A chain delayed by `d`: its leading taps moved back, or a unit tap put in front. */
  function Delayed(chain: seq<ModelStep>, d: real): seq<ModelStep> {
    if Leads(chain) then chain[0 := TdlStep(ShiftTaps(chain[0].taps, d))]
    else [TdlStep([TapSpec(d, 0.0, 0.0, false, 0.0, 0.0)])] + chain
  }

  // ---- The pass over the links ----------------------------------------------------------------

  /** After some links: the models, the clones by (total, base), and the model each of those
      links names now. */
  datatype Folding = Folding(models: map<string, Model>, clones: map<(real, string), string>, names: seq<string>)

  function FoldLink(devices: seq<Device>, naming: Naming, f: Folding, link: Link): Folding {
    var total, base := Total(devices, link), link.model;
    if total == 0.0 then f.(names := f.names + [base])
    else if (total, base) in f.clones then f.(names := f.names + [f.clones[(total, base)]])
    else if base !in f.models then f.(names := f.names + [base])
    else
      var name := naming(base, TxOffset(devices, link.from), link.propagation);
      var clone := Model(name, Delayed(f.models[base].chain, total));
      Folding(if name in f.models then f.models else f.models[name := clone],
              f.clones[(total, base) := name],
              f.names + [name])
  }

  function FoldUpTo(devices: seq<Device>, naming: Naming, models: map<string, Model>, links: seq<Link>, k: nat): (f: Folding)
    requires k <= |links|
    ensures |f.names| == k
  {
    if k == 0 then Folding(models, map[], [])
    else FoldLink(devices, naming, FoldUpTo(devices, naming, models, links, k - 1), links[k - 1])
  }

  function Folded(devices: seq<Device>, naming: Naming, models: map<string, Model>, links: seq<Link>): Folding {
    FoldUpTo(devices, naming, models, links, |links|)
  }

  class TopologyConfig {
    var devices: seq<Device>
    var links: seq<Link>
    var models: map<string, Model>

    constructor (ds: seq<Device>, ls: seq<Link>, ms: map<string, Model>)
      ensures devices == ds && links == ls && models == ms
    {
      devices, links, models := ds, ls, ms;
    }

    /** Only the links' model names and new models change. */
    method FoldLinkLeadingDelays(naming: Naming)
      modifies this`links, this`models
      ensures |links| == old(|links|)
      ensures var f := Folded(devices, naming, old(models), old(links));
        models == f.models && forall k :: 0 <= k < |links| ==> links[k] == old(links[k]).(model := f.names[k])
    {
      var synthesized: map<(real, string), string> := map[];
      for k := 0 to |links|
        invariant |links| == old(|links|)
        invariant var f := FoldUpTo(devices, naming, old(models), old(links), k);
          models == f.models && synthesized == f.clones && forall j :: 0 <= j < k ==> links[j] == old(links[j]).(model := f.names[j])
        invariant forall j :: k <= j < |links| ==> links[j] == old(links[j])
      {
        var link := links[k];
        var tx := FindTxOffset(link.from);
        var total := tx + link.propagation;
        if total == 0.0 {
          continue;
        }
        var base := link.model;
        if (total, base) in synthesized {
          links := links[k := link.(model := synthesized[(total, base)])];
          continue;
        }
        if base !in models {
          continue;
        }
        var name := naming(base, tx, link.propagation);
        var chain := DelayChain(models[base].chain, total);
        if name !in models {
          models := models[name := Model(name, chain)];
        }
        synthesized := synthesized[(total, base) := name];
        links := links[k := link.(model := name)];
      }
    }

    /** Moves every leading tap back, or puts a unit tap in front. */
    static method DelayChain(base: seq<ModelStep>, total: real) returns (chain: seq<ModelStep>)
      ensures chain == Delayed(base, total)
    {
      if |base| > 0 && base[0].TdlStep? {
        var taps := base[0].taps;
        for j := 0 to |taps|
          invariant |taps| == |base[0].taps| && taps[..j] == ShiftTaps(base[0].taps, total)[..j] && taps[j..] == base[0].taps[j..]
        {
          assert taps[j] == taps[j..][0];
          taps := taps[j := taps[j].(delay := taps[j].delay + total)];
        }
        assert taps == ShiftTaps(base[0].taps, total);
        chain := base[0 := TdlStep(taps)];
      } else {
        chain := [TdlStep([TapSpec(total, 0.0, 0.0, false, 0.0, 0.0)])] + base;
      }
    }

    method FindTxOffset(id: string) returns (offset: real)
      ensures offset == TxOffset(devices, id)
    {
      var k := 0;
      while k < |devices| && devices[k].id != id
        invariant 0 <= k <= |devices| && TxOffset(devices, id) == TxOffset(devices[k..], id)
      {
        assert devices[k..][1..] == devices[k + 1..];
        k := k + 1;
      }
      offset := if k == |devices| then 0.0 else devices[k].txOffset;
    }
  }
}

/**
 Preparing the CPU backend's nodes: link states are kept by key (src/cpu_backend.cpp:47-130;
 src/config.cpp:807-810), so links with different keys get storage of their own.
 */
module CpuPrepare {
  import opened Chain
  import opened RuntimeControl
  import opened CpuLinks
  import opened CpuBackend
  import opened CpuNodes
  import opened CpuEndToEnd

  /** As prepared from `chain`: between slots, with nothing written for it. */
  ghost predicate AsPrepared(link: CpuLink, ph: Physics, rate: nat, chain: seq<ModelStep>)
    reads link, link.Repr
  {
    && link.Owned() && link in link.Repr && link.ph == ph && link.rate == rate && link.chain == chain
    && link.Held() == FreshHolding(ph, chain)
  }

  /** One link state per key met among the first `n` links, each with storage of its own. */
  ghost predicate Stored(states: map<string, CpuLink>, ph: Physics, rate: nat, keys: seq<string>,
                         configs: seq<seq<ModelStep>>, n: nat)
    reads states.Values, set key, o | key in states && o in states[key].Repr :: o
  {
    && n <= |keys| == |configs|
    && (forall k :: 0 <= k < n ==> keys[k] in states && AsPrepared(states[keys[k]], ph, rate, configs[k]))
    && forall a, b :: a in states && b in states && a != b ==> states[a].Repr !! states[b].Repr
  }

  method PrepareLink(ph: Physics, rate: nat, chain: seq<ModelStep>, slotCount: nat) returns (link: CpuLink)
    requires ph.Valid() && SaneChain(chain)
    ensures AsPrepared(link, ph, rate, chain) && fresh(link) && fresh(link.Repr)
  {
    link := CpuLink.Prepare(ph, rate, chain, slotCount);
  }

  /** A state is made the first time its key is met, and found again after that. */
  method PrepareLinks(ph: Physics, rate: nat, keys: seq<string>, configs: seq<seq<ModelStep>>, slotCount: nat)
      returns (states: map<string, CpuLink>)
    requires ph.Valid() && |keys| == |configs| && forall k :: 0 <= k < |configs| ==> SaneChain(configs[k])
    requires forall j, k :: 0 <= j < |keys| && 0 <= k < |keys| && keys[j] == keys[k] ==> configs[j] == configs[k]
    ensures Stored(states, ph, rate, keys, configs, |keys|) && forall key :: key in states ==> key in keys && fresh(states[key].Repr)
  {
    hide AsPrepared, SaneChain;
    states := map[];
    for k := 0 to |keys|
      invariant Stored(states, ph, rate, keys, configs, k)
      invariant forall key :: key in states ==> key in keys[..k] && fresh(states[key].Repr)
    {
      if keys[k] !in states {
        var link := PrepareLink(ph, rate, configs[k], slotCount);
        states := states[keys[k] := link];
      } else {
        var j :| 0 <= j < k && keys[..k][j] == keys[k];
        assert configs[j] == configs[k];
      }
    }
  }

  predicate Distinct(keys: seq<string>) {
    forall j, k :: 0 <= j < k < |keys| ==> keys[j] != keys[k]
  }

  /** `from>to:model`, and a receiver's own key. */
  function LinkKey(from: string, to: string, model: string): string {
    from + ">" + to + ":" + model
  }

  function ReceiverKey(device: string): string {
    device + ">rx"
  }

  /** What stands before the first `mark`. */
  function Head(s: string, mark: char): string {
    if s == "" || s[0] == mark then "" else [s[0]] + Head(s[1..], mark)
  }

  lemma {:induction false} HeadOf(a: string, mark: char, rest: string)
    requires mark !in a
    ensures Head(a + [mark] + rest, mark) == a && (a + [mark] + rest)[|a| + 1..] == rest
  {
    if a != "" {
      assert (a + [mark] + rest)[1..] == a[1..] + [mark] + rest;
      HeadOf(a[1..], mark, rest);
    }
  }

  lemma KeyParts(from: string, to: string, model: string)
    ensures LinkKey(from, to, model) == from + ['>'] + (to + [':'] + model)
  {
  }

  /** Without a '>' in the names of sources and a ':' in those of destinations, a key says which
      source, destination and model it was made from ... */
  lemma KeysTell(from: string, to: string, model: string, from': string, to': string, model': string)
    requires '>' !in from && '>' !in from' && ':' !in to && ':' !in to'
    requires LinkKey(from, to, model) == LinkKey(from', to', model')
    ensures from == from' && to == to' && model == model'
  {
    KeyParts(from, to, model);
    KeyParts(from', to', model');
    HeadOf(from, '>', to + [':'] + model);
    HeadOf(from', '>', to' + [':'] + model');
    HeadOf(to, ':', model);
    HeadOf(to', ':', model');
  }

  /** ... and is no receiver's key. */
  lemma ReceiverKeyApart(device: string, from: string, to: string, model: string)
    requires '>' !in device && '>' !in from
    ensures ReceiverKey(device) != LinkKey(from, to, model)
  {
    KeyParts(from, to, model);
    HeadOf(from, '>', to + [':'] + model);
    HeadOf(device, '>', "rx");
    assert ReceiverKey(device) == device + ['>'] + "rx";
    assert (to + [':'] + model)[|to|] == ':';
    assert ':' !in "rx" && "rx" != to + [':'] + model;
  }

  /** Two splits of one string at a mark: the later one's head goes on past the earlier one's. */
  lemma TwoSplits(head: string, rest: string, head': string, rest': string, mark: char) returns (u: string)
    requires head + [mark] + rest == head' + [mark] + rest' && |head| < |head'|
    ensures head' == head + [mark] + u && rest == u + [mark] + rest'
  {
    u := head'[|head| + 1..];
    var whole := head + [mark] + rest;
    assert whole[..|head'|] == head' && whole[..|head|] == head && whole[|head|] == mark;
    assert head' == head + [mark] + u;
    assert rest == whole[|head| + 1..] == u + [mark] + rest';
  }

  /** The same string read with a later separator: the destination takes in a piece of the model's name, or
      the source a piece of what follows. */
  ghost predicate ReadsOn(from: string, to: string, model: string, from': string, to': string, model': string) {
    || (from == from' && exists u: string :: to' == to + [':'] + u && model == u + [':'] + model')
    || exists u: string :: from' == from + ['>'] + u && to + [':'] + model == u + ['>'] + to' + [':'] + model'
  }

  lemma ReadsOnIsOneKey(from: string, to: string, model: string, from': string, to': string, model': string)
    requires ReadsOn(from, to, model, from', to', model')
    ensures LinkKey(from, to, model) == LinkKey(from', to', model')
  {
    if u: string :| from' == from + ['>'] + u && to + [':'] + model == u + ['>'] + to' + [':'] + model' {
      assert LinkKey(from', to', model') == from + ['>'] + (u + ['>'] + to' + [':'] + model');
      KeyParts(from, to, model);
    } else {
      var u: string :| to' == to + [':'] + u && model == u + [':'] + model';
      assert LinkKey(from', to', model') == from + ['>'] + to + [':'] + (u + [':'] + model');
    }
  }

  lemma OneKeyReadsOn(from: string, to: string, model: string, from': string, to': string, model': string)
    requires LinkKey(from, to, model) == LinkKey(from', to', model')
    requires |from| < |from'| || (|from| == |from'| && |to| <= |to'|)
    ensures (from == from' && to == to' && model == model') || ReadsOn(from, to, model, from', to', model')
  {
    KeyParts(from, to, model);
    KeyParts(from', to', model');
    var k, k' := LinkKey(from, to, model), LinkKey(from', to', model');
    if |from| < |from'| {
      var u := TwoSplits(from, to + [':'] + model, from', to' + [':'] + model', '>');
      assert u + ['>'] + (to' + [':'] + model') == u + ['>'] + to' + [':'] + model';
    } else {
      assert from == k[..|from|] == from' && to + [':'] + model == k[|from| + 1..] == to' + [':'] + model';
      if |to| < |to'| {
        var u := TwoSplits(to, model, to', model', ':');
      } else {
        var r := to + [':'] + model;
        assert to == r[..|to|] == to' && model == r[|to| + 1..] == model';
      }
    }
  }

  /** Two links have one key precisely when they agree in source, destination and model, or one's parts are
      the other's read with a later separator. */
  lemma KeysCollideExactly(from: string, to: string, model: string, from': string, to': string, model': string)
    ensures LinkKey(from, to, model) == LinkKey(from', to', model') <==>
            || (from == from' && to == to' && model == model')
            || ReadsOn(from, to, model, from', to', model') || ReadsOn(from', to', model', from, to, model)
  {
    hide ReadsOn, LinkKey;
    if LinkKey(from, to, model) == LinkKey(from', to', model') {
      if |from| < |from'| || (|from| == |from'| && |to| <= |to'|) {
        OneKeyReadsOn(from, to, model, from', to', model');
      } else {
        OneKeyReadsOn(from', to', model', from, to, model);
      }
    } else if ReadsOn(from, to, model, from', to', model') {
      ReadsOnIsOneKey(from, to, model, from', to', model');
    } else if ReadsOn(from', to', model', from, to, model) {
      ReadsOnIsOneKey(from', to', model', from, to, model);
    }
  }

  /** So links between different devices can have one key. */
  lemma KeysCollide()
    ensures LinkKey("a", "b>c", "m") == LinkKey("a>b", "c", "m")
  {
  }

  /** The states of `keys`, in order. */
  ghost predicate Picked(links: seq<CpuLink>, ph: Physics, rate: nat, chains: seq<seq<ModelStep>>)
    reads links, set k, o | 0 <= k < |links| && o in links[k].Repr :: o
  {
    && |links| == |chains| && (forall k :: 0 <= k < |links| ==> AsPrepared(links[k], ph, rate, chains[k]))
    && forall j, k :: 0 <= j < k < |links| ==> links[j].Repr !! links[k].Repr
  }

  method PickLinks(states: map<string, CpuLink>, ghost ph: Physics, ghost rate: nat, keys: seq<string>,
                   ghost configs: seq<seq<ModelStep>>) returns (links: seq<CpuLink>)
    requires Stored(states, ph, rate, keys, configs, |keys|) && Distinct(keys)
    ensures Picked(links, ph, rate, configs) && forall k :: 0 <= k < |links| ==> links[k] == states[keys[k]]
  {
    hide AsPrepared;
    links := seq(|keys|, k requires 0 <= k < |keys| && keys[k] in states => states[keys[k]]);
  }

  /** A destination whose links and receiver all have keys of their own, ready for its first serve:
      what its links hold is what its configuration says. */
  method PrepareNode(ph: Physics, rate: nat, keys: seq<string>, configs: seq<seq<ModelStep>>, rx: seq<seq<ModelStep>>,
                     device: string, slotCount: nat) returns (node: CpuNode)
    requires ph.Valid() && |keys| == |configs| && |rx| <= 1
    requires forall k :: 0 <= k < |configs + rx| ==> SaneChain((configs + rx)[k])
    requires Distinct(keys) && (rx != [] ==> ReceiverKey(device) !in keys)
    ensures node.Valid() && FreshlyPrepared(node, ph, rate, configs, rx, node.Held())
  {
    hide AsPrepared, SaneChain, Stored, CpuNode.Valid, FreshlyPrepared;
    var all := keys + if rx == [] then [] else [ReceiverKey(device)];
    var states := PrepareLinks(ph, rate, all, configs + rx, slotCount);
    var links := PickLinks(states, ph, rate, all, configs + rx);
    Separate(links, ph, rate, configs + rx);
    assert links == links[..|configs|] + links[|configs|..];
    assert ph.tr.turn > 0.0;
    node := new CpuNode(ph.tr, links[..|configs|], links[|configs|..], slotCount);
    Shown(node, links, ph, rate, configs, rx);
  }

  lemma Separate(links: seq<CpuLink>, ph: Physics, rate: nat, chains: seq<seq<ModelStep>>)
    requires Picked(links, ph, rate, chains)
    ensures forall k :: 0 <= k < |links| ==> links[k].Owned() && links[k] in links[k].Repr && links[k].ph.tr == ph.tr
    ensures forall j, k :: 0 <= j < k < |links| ==> links[j].Repr !! links[k].Repr
  {
    hide CpuLink.Owned, CpuLink.Held;
  }

  lemma Shown(node: CpuNode, links: seq<CpuLink>, ph: Physics, rate: nat, configs: seq<seq<ModelStep>>, rx: seq<seq<ModelStep>>)
    requires node.Valid() && node.links == links && node.edges == |configs| && node.tr == ph.tr && |rx| <= 1
    requires Picked(links, ph, rate, configs + rx)
    ensures FreshlyPrepared(node, ph, rate, configs, rx, node.Held())
  {
    hide CpuLink.Owned, CpuLink.Held, FreshHolding, SaneLink;
  }
}

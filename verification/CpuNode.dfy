/** The CPU backend's reference superposition: every edge through its own chain, summed in
    order, then the receiver's chain. */
module CpuNodes {
  import opened Iq
  import opened Phase
  import opened Chain
  import opened RuntimeControl
  import opened CpuLinks
  import opened CpuBackend

  lemma BadIs(inputs: seq<seq<Sample>>, count: nat, k: nat)
    requires k <= |inputs| && (k < |inputs| ==> |inputs[k]| != count) && forall j :: 0 <= j < k ==> |inputs[j]| == count
    ensures FirstBad(inputs, count) == k
  {
  }

  class CpuNode {
    const tr: Trig
    /** The incoming edges' links; then the receiver's, if there is one. */
    const links: seq<CpuLink>
    const edges: nat
    var scratch: array<Sample>

    constructor (trig: Trig, incoming: seq<CpuLink>, receiver: seq<CpuLink>, size: nat)
      requires trig.turn > 0.0 && |receiver| <= 1
      requires forall link :: link in incoming + receiver ==> link.Owned() && link in link.Repr && link.ph.tr == trig
      requires forall j, k :: 0 <= j < k < |incoming + receiver| ==> (incoming + receiver)[j].Repr !! (incoming + receiver)[k].Repr
      ensures Valid() && tr == trig && links == incoming + receiver && edges == |incoming| && fresh(scratch) && scratch.Length == size
    {
      hide CpuLink.Owned;
      tr, links, edges := trig, incoming + receiver, |incoming|;
      scratch := new Sample[size](_ => ZERO);
    }

    ghost function Storage(): set<object>
      reads links
    {
      set k, o | 0 <= k < |links| && o in links[k].Repr :: o
    }

    ghost predicate Valid()
      reads this, links, Storage()
    {
      && tr.turn > 0.0 && (|links| == edges || |links| == edges + 1)
      && (forall k :: 0 <= k < |links| ==>
            links[k].Owned() && links[k] in links[k].Repr && links[k].ph.tr == tr && {this, scratch} !! links[k].Repr)
      && forall j, k :: 0 <= j < k < |links| ==> links[j].Repr !! links[k].Repr
    }

    /** The reply goes nowhere near the node's own storage. */
    ghost predicate Clear(output: array<Sample>)
      reads this, links
    {
      output != scratch && forall j :: 0 <= j < |links| ==> output !in links[j].Repr
    }

    /** What the links hold. */
    ghost function Held(): (hs: seq<Holding>)
      reads this, links, Storage()
      requires Valid()
      ensures |hs| == |links| && forall k :: 0 <= k < |hs| ==> hs[k] == links[k].Held()
      ensures Sane(hs)
    {
      seq(|links|, k requires 0 <= k < |links| && Valid() reads this, links, Storage() => links[k].Held())
    }

    ghost predicate Sane(hs: seq<Holding>) {
      |hs| == |links| && forall k :: 0 <= k < |hs| ==> SaneLink(links[k].ph, links[k].chain, hs[k].value, hs[k].view)
    }

    ghost function EdgeOf(hs: seq<Holding>, k: nat, count: nat): (e: Edge)
      requires Sane(hs) && k < |links|
      ensures e.Shaped()
    {
      EdgeNow(links[k].ph, links[k].rate, links[k].chain, hs[k].value, hs[k].view, count)
    }

    /** The node as a serve of `count` samples runs it when its links hold `hs`. */
    ghost function NodeOf(hs: seq<Holding>, count: nat): (node: Node)
      requires Sane(hs) && (|links| == edges || |links| == edges + 1)
      ensures node.Shaped() && |node.edges| == edges
      ensures forall k :: 0 <= k < edges ==> node.edges[k] == EdgeOf(hs, k, count)
    {
      Node(
        seq(edges, k requires 0 <= k < edges => EdgeOf(hs, k, count)),
        if |links| > edges then EdgeOf(hs, edges, count) else Edge([], []))
    }

    /** Link `k` after a slot of `x`, the others as they were. */
    ghost function HeldAfter(hs: seq<Holding>, k: nat, x: seq<Sample>): (hs': seq<Holding>)
      requires Sane(hs) && k < |links|
      ensures Sane(hs')
    {
      var link := links[k];
      if x == [] then hs
      else hs[k := hs[k].(value := LinkAfter(link.ph, link.rate, link.chain, hs[k].value, hs[k].view, x))]
    }

    static method Silence(output: array<Sample>)
      modifies output
      ensures output[..] == Zeros(output.Length)
    {
      for n := 0 to output.Length
        invariant forall m :: 0 <= m < n ==> output[m] == ZERO
      {
        output[n] := ZERO;
      }
    }

    static method Accumulate(shaped: array<Sample>, output: array<Sample>, ghost ys: seq<seq<Sample>>)
      requires shaped != output && output.Length <= shaped.Length
      requires (forall k :: 0 <= k < |ys| ==> |ys[k]| == output.Length) && output[..] == Mix(ys, output.Length)
      modifies output
      ensures output[..] == Mix(ys + [shaped[..output.Length]], output.Length)
    {
      ghost var y := shaped[..output.Length];
      ghost var was := output[..];
      for n := 0 to output.Length
        invariant forall m :: 0 <= m < n ==> output[m] == Add(was[m], y[m])
        invariant forall m :: n <= m < output.Length ==> output[m] == was[m]
      {
        output[n] := Add(output[n], shaped[n]);
      }
      assert (ys + [y])[..|ys|] == ys;
    }

    /** One link's slot; the others are untouched. */
    method ServeLink(k: nat, x: seq<Sample>, out: array<Sample>, count: nat) returns (ok: bool)
      requires Valid() && k < |links| && count <= out.Length && forall j :: 0 <= j < |links| ==> out !in links[j].Repr
      modifies links[k].Repr, out
      ensures Valid() && (ok <==> |x| == count) && forall j :: 0 <= j < |links| ==> out !in links[j].Repr
      ensures scratch == old(scratch) && forall j :: 0 <= j < |links| ==> fresh(links[j].Repr - old(links[j].Repr))
      ensures Held() == if ok then HeldAfter(old(Held()), k, x) else old(Held())
      ensures ok && count > 0 ==>
                out[..count] == ChainOut(tr, EdgeOf(old(Held()), k, count).chain, EdgeOf(old(Held()), k, count).sts, x)
    {
      var link := links[k];
      ghost var hs := Held();
      hide CpuLink.Owned, CpuLink.Held, SaneLink, EdgeNow, LinkAfter;
      ok := link.Serve(x, out, count);
      forall j | 0 <= j < |links| && j != k ensures links[j].Held() == hs[j] {
      }
    }

    /** What the links hold after the first `k` edges have run. */
    ghost function HeldUpTo(hs: seq<Holding>, xs: seq<seq<Sample>>, k: nat): (hs': seq<Holding>)
      requires Sane(hs) && k <= |xs| <= |links|
      ensures Sane(hs') && forall j :: k <= j < |links| ==> hs'[j] == hs[j]
    {
      if k == 0 then hs else HeldAfter(HeldUpTo(hs, xs, k - 1), k - 1, xs[k - 1])
    }

    /** One edge, shaped and added to the sum. */
    method AddEdge(k: nat, x: seq<Sample>, output: array<Sample>, ghost ys: seq<seq<Sample>>)
        returns (ok: bool, ghost y: seq<Sample>)
      requires Valid() && Clear(output) && k < edges && output.Length <= scratch.Length
      requires (forall j :: 0 <= j < |ys| ==> |ys[j]| == output.Length) && output[..] == Mix(ys, output.Length)
      modifies links[k].Repr, scratch, output
      ensures scratch == old(scratch) && forall j :: 0 <= j < |links| ==> fresh(links[j].Repr - old(links[j].Repr))
      ensures Valid() && Clear(output) && (ok <==> |x| == output.Length) && |y| == output.Length
      ensures Held() == if ok then HeldAfter(old(Held()), k, x) else old(Held())
      ensures ok ==> output[..] == Mix(ys + [y], output.Length)
      ensures ok && output.Length > 0 ==>
                y == ChainOut(tr, EdgeOf(old(Held()), k, output.Length).chain, EdgeOf(old(Held()), k, output.Length).sts, x)
    {
      hide CpuLink.Owned, CpuLink.Held, SaneLink, EdgeNow, LinkAfter, HeldAfter, ChainOut, Mix;
      ok := ServeLink(k, x, scratch, output.Length);
      y := scratch[..output.Length];
      if ok {
        AddScratch(output, ys);
      }
    }

    method AddScratch(output: array<Sample>, ghost ys: seq<seq<Sample>>)
      requires Valid() && Clear(output) && output.Length <= scratch.Length
      requires (forall j :: 0 <= j < |ys| ==> |ys[j]| == output.Length) && output[..] == Mix(ys, output.Length)
      modifies output
      ensures Valid() && Held() == old(Held())
      ensures output[..] == Mix(ys + [scratch[..output.Length]], output.Length)
    {
      hide CpuLink.Owned, CpuLink.Held, SaneLink;
      ghost var hs := Held();
      Accumulate(scratch, output, ys);
      forall j | 0 <= j < |links| ensures links[j].Held() == hs[j] {
      }
    }

    /** `k` edges are summed into `output`, shaped as `ys`. */
    ghost predicate Summing(hs: seq<Holding>, xs: seq<seq<Sample>>, output: array<Sample>, ys: seq<seq<Sample>>, k: nat)
      reads this, links, Storage(), output
    {
      && Valid() && Clear(output) && output.Length <= scratch.Length && k <= |xs| == edges
      && SummedUpTo(hs, xs, output.Length, ys, k) && Held() == HeldUpTo(hs, xs, k)
      && (forall j :: 0 <= j < |ys| ==> |ys[j]| == output.Length) && output[..] == Mix(ys, output.Length)
    }

    method NextEdge(ghost hs: seq<Holding>, xs: seq<seq<Sample>>, output: array<Sample>, ghost ys: seq<seq<Sample>>, k: nat)
        returns (ok: bool, ghost ys': seq<seq<Sample>>)
      requires Valid() && Clear(output) && Summing(hs, xs, output, ys, k) && k < edges
      modifies links[k].Repr, scratch, output
      ensures scratch == old(scratch) && forall j :: 0 <= j < |links| ==> fresh(links[j].Repr - old(links[j].Repr))
      ensures Valid() && Clear(output) && (ok <==> |xs[k]| == output.Length)
      ensures ok ==> Summing(hs, xs, output, ys', k + 1)
      ensures !ok ==> Reached(hs, xs, k)
    {
      hide CpuLink.Owned, CpuLink.Held, SaneLink, EdgeNow, LinkAfter, HeldAfter, ChainOut, HeldUpTo, SummedUpTo, Mix;
      ghost var y;
      SumReached(hs, xs, output, ys, k);
      ok, y := AddEdge(k, xs[k], output, ys);
      ys' := ys + [y];
      if ok {
        SummedOne(hs, xs, output.Length, ys, y, k);
      }
    }

    lemma EdgesFit()
      requires Valid()
      ensures edges <= |links|
    {
    }

    /** The sum of the edges, in order; stops at the first input whose size is not the output's. */
    method SumEdges(inputs: seq<seq<Sample>>, output: array<Sample>, ghost hs: seq<Holding>)
        returns (ok: bool, ghost ys: seq<seq<Sample>>)
      requires Valid() && Clear(output) && |inputs| == edges && Summing(hs, inputs, output, [], 0)
      modifies set k, o | 0 <= k < |links| && o in links[k].Repr :: o
      modifies scratch, output
      ensures scratch == old(scratch) && forall j :: 0 <= j < |links| ==> fresh(links[j].Repr - old(links[j].Repr))
      ensures Valid() && Clear(output)
      ensures ok <==> FirstBad(inputs, output.Length) == |inputs|
      ensures ok ==> Summing(hs, inputs, output, ys, edges)
      ensures Reached(hs, inputs, FirstBad(inputs, output.Length))
    {
      hide *;
      EdgesFit();
      ys := [];
      for k := 0 to |inputs|
        invariant Valid() && Clear(output) && Summing(hs, inputs, output, ys, k)
        invariant scratch == old(scratch) && forall j :: 0 <= j < |links| ==> fresh(links[j].Repr - old(links[j].Repr))
        invariant forall j :: 0 <= j < k ==> |inputs[j]| == output.Length
      {
        ok, ys := NextEdge(hs, inputs, output, ys, k);
        if !ok {
          BadIs(inputs, output.Length, k);
          return;
        }
      }
      ok := true;
      BadIs(inputs, output.Length, |inputs|);
      SumReached(hs, inputs, output, ys, |inputs|);
    }

    /** From `hs`, exactly the first `k` edges have run. */
    ghost predicate Reached(hs: seq<Holding>, xs: seq<seq<Sample>>, k: nat)
      reads this, links, Storage()
    {
      Valid() && Sane(hs) && k <= |xs| <= |links| && Held() == HeldUpTo(hs, xs, k)
    }

    lemma SumReached(hs: seq<Holding>, xs: seq<seq<Sample>>, output: array<Sample>, ys: seq<seq<Sample>>, k: nat)
      requires Summing(hs, xs, output, ys, k)
      ensures Reached(hs, xs, k)
    {
    }

    lemma EndSum(hs: seq<Holding>, xs: seq<seq<Sample>>, output: array<Sample>, ys: seq<seq<Sample>>)
      requires Summing(hs, xs, output, ys, edges)
      ensures SummedUpTo(hs, xs, output.Length, ys, edges) && Held() == HeldUpTo(hs, xs, edges) && |xs| == edges
      ensures (forall j :: 0 <= j < |ys| ==> |ys[j]| == output.Length) && output[..] == Mix(ys, output.Length)
    {
    }

    lemma StartSum(hs: seq<Holding>, xs: seq<seq<Sample>>, output: array<Sample>)
      requires Valid() && Clear(output) && output.Length <= scratch.Length && |xs| == edges
      requires hs == Held() && output[..] == Mix([], output.Length)
      ensures Summing(hs, xs, output, [], 0)
    {
      SummedNone(hs, xs, output.Length);
    }

    method SilenceOutput(output: array<Sample>)
      requires Valid() && Clear(output)
      modifies output
      ensures Valid() && Held() == old(Held()) && output[..] == Mix([], output.Length)
      ensures forall j :: 0 <= j < |links| ==> links[j].Repr == old(links[j].Repr)
    {
      hide CpuLink.Owned, CpuLink.Held, SaneLink;
      ghost var hs := Held();
      Silence(output);
      forall j | 0 <= j < |links| ensures links[j].Held() == hs[j] {
      }
    }

    /** The first `k` shaped edges. */
    ghost predicate SummedUpTo(hs: seq<Holding>, xs: seq<seq<Sample>>, count: nat, ys: seq<seq<Sample>>, k: nat) {
      && Sane(hs) && |ys| == k <= |xs| && k <= |links| && tr.turn > 0.0
      && (forall j :: 0 <= j < k ==> |xs[j]| == |ys[j]| == count)
      && (count > 0 ==> forall j :: 0 <= j < k ==>
            ys[j] == ChainOut(tr, EdgeOf(hs, j, count).chain, EdgeOf(hs, j, count).sts, xs[j]))
    }

    lemma SummedNone(hs: seq<Holding>, xs: seq<seq<Sample>>, count: nat)
      requires Sane(hs) && tr.turn > 0.0 && |xs| <= |links|
      ensures SummedUpTo(hs, xs, count, [], 0) && HeldUpTo(hs, xs, 0) == hs
    {
    }

    lemma SummedOne(hs: seq<Holding>, xs: seq<seq<Sample>>, count: nat, ys: seq<seq<Sample>>, y: seq<Sample>, k: nat)
      requires SummedUpTo(hs, xs, count, ys, k) && k < |xs| <= |links| && |xs[k]| == |y| == count
      requires count > 0 ==>
                 y == ChainOut(tr, EdgeOf(HeldUpTo(hs, xs, k), k, count).chain, EdgeOf(HeldUpTo(hs, xs, k), k, count).sts, xs[k])
      ensures SummedUpTo(hs, xs, count, ys + [y], k + 1)
      ensures HeldUpTo(hs, xs, k + 1) == HeldAfter(HeldUpTo(hs, xs, k), k, xs[k])
      ensures forall j :: 0 <= j < |ys| ==> |ys[j]| == count
    {
      hide EdgeNow, ChainOut, SaneLink, HeldAfter;
      assert EdgeOf(HeldUpTo(hs, xs, k), k, count) == EdgeOf(hs, k, count);
    }

    /** A reply: every edge through its own chain, the sum, the receiver's chain. */
    method ProcessSuperposition(inputs: seq<seq<Sample>>, output: array<Sample>) returns (ok: bool)
      requires Valid() && Clear(output) && |inputs| == edges
      modifies set k, o | 0 <= k < |links| && o in links[k].Repr :: o
      modifies this`scratch, scratch, output
      ensures (scratch == old(scratch) || fresh(scratch)) && forall j :: 0 <= j < |links| ==> fresh(links[j].Repr - old(links[j].Repr))
      ensures Valid() && Clear(output)
      ensures ok <==> forall k :: 0 <= k < |inputs| ==> |inputs[k]| == output.Length
      ensures ok && output.Length > 0 ==> Replied(old(Held()), inputs, Held(), output[..])
      ensures !ok ==> Reached(old(Held()), inputs, FirstBad(inputs, output.Length))
    {
      hide *;
      ghost var hs := Held();
      GrowScratch(output);
      SilenceOutput(output);
      StartSum(hs, inputs, output);
      ghost var ys;
      ok, ys := SumEdges(inputs, output, hs);
      if !ok {
        return;
      }
      EndSum(hs, inputs, output, ys);
      ghost var summed, mid := output[..], Held();
      ApplyReceiver(output);
      if output.Length > 0 {
        Reply(hs, mid, inputs, ys, Held(), summed, output[..]);
      }
    }

    /** The receiver's chain, in place on the sum, if the node has one. */
    method ApplyReceiver(output: array<Sample>)
      requires Valid() && Clear(output)
      modifies set k, o | 0 <= k < |links| && o in links[k].Repr :: o
      modifies output
      ensures scratch == old(scratch) && forall j :: 0 <= j < |links| ==> fresh(links[j].Repr - old(links[j].Repr))
      ensures Valid() && Clear(output)
      ensures Received(old(Held()), old(output[..]), Held(), output[..])
    {
      hide CpuLink.Owned, CpuLink.Held, SaneLink, EdgeNow, LinkAfter, HeldAfter, ChainOut;
      if |links| > edges {
        var ok := ServeLink(edges, output[..], output, output.Length);
        assert ok && output[..output.Length] == output[..];
      }
    }

    ghost predicate Received(hs: seq<Holding>, x: seq<Sample>, hs': seq<Holding>, y: seq<Sample>) {
      && Sane(hs) && tr.turn > 0.0
      && if |links| <= edges then hs' == hs && y == x
         else hs' == HeldAfter(hs, edges, x) &&
              (x != [] ==> var e := EdgeOf(hs, edges, |x|); y == ChainOut(tr, e.chain, e.sts, x))
    }

    method GrowScratch(output: array<Sample>)
      requires Valid() && Clear(output)
      modifies this`scratch
      ensures scratch == old(scratch) || fresh(scratch)
      ensures forall j :: 0 <= j < |links| ==> links[j].Repr == old(links[j].Repr)
      ensures Valid() && Clear(output) && Held() == old(Held()) && output.Length <= scratch.Length
      ensures tr.turn > 0.0 && (|links| == edges || |links| == edges + 1)
    {
      hide CpuLink.Owned, CpuLink.Held, SaneLink;
      if scratch.Length < output.Length {
        scratch := new Sample[output.Length](_ => ZERO);
      }
    }

    /** A serve's reply is the node's superposition, and every link has moved on by its slot. */
    ghost predicate Replied(hs: seq<Holding>, xs: seq<seq<Sample>>, hs': seq<Holding>, y: seq<Sample>) {
      && Sane(hs) && |xs| == edges && (|links| == edges || |links| == edges + 1) && tr.turn > 0.0
      && Aligned(NodeOf(hs, |y|), xs, |y|)
      && y == NodeOut(tr, NodeOf(hs, |y|), xs, |y|)
      && hs' == (if |links| == edges then HeldUpTo(hs, xs, edges)
                 else HeldAfter(HeldUpTo(hs, xs, edges), edges, Summed(hs, xs, |y|)))
    }

    /** What enters the receiver's chain. */
    ghost function Summed(hs: seq<Holding>, xs: seq<seq<Sample>>, count: nat): (y: seq<Sample>)
      requires Sane(hs) && (|links| == edges || |links| == edges + 1) && tr.turn > 0.0
      requires Aligned(NodeOf(hs, count), xs, count)
      ensures |y| == count
    {
      Mix(EdgeOuts(tr, NodeOf(hs, count), xs, count), count)
    }

    lemma Reply(hs: seq<Holding>, mid: seq<Holding>, xs: seq<seq<Sample>>, ys: seq<seq<Sample>>, hs': seq<Holding>,
                x: seq<Sample>, y: seq<Sample>)
      requires tr.turn > 0.0 && |x| > 0 && |xs| == edges && (|links| == edges || |links| == edges + 1)
      requires SummedUpTo(hs, xs, |x|, ys, edges) && mid == HeldUpTo(hs, xs, edges)
      requires (forall j :: 0 <= j < |ys| ==> |ys[j]| == |x|) && x == Mix(ys, |x|)
      requires Received(mid, x, hs', y)
      ensures Replied(hs, xs, hs', y)
    {
      hide EdgeNow, Mix, HeldUpTo, HeldAfter;
      var node := NodeOf(hs, |x|);
      assert Aligned(node, xs, |x|);
      assert ys == EdgeOuts(tr, node, xs, |x|);
    }
  }
}

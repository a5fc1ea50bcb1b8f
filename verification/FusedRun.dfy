/**
 The fused backend's own loops over its flat buffers, proved to compute the fused form:
 the source table, packing, the channel and ring kernels, the flattened step table and
 the summing kernel.  Host and device copies of a buffer are one buffer here, and a
 kernel's grid is a loop over its samples.
 */
module FusedRun {
  import opened Iq
  import opened Phase
  import opened Chain
  import opened Fused
  import opened RuntimeControl
  import opened CpuLinks
  import Tdl

  // ---- Sources --------------------------------------------------------------------------

  /** `src[k]` names the first edge that reads the same source as edge `k`, and each source
      has one slot. */
  ghost predicate FirstOccurrences<Id>(from: seq<Id>, src: seq<nat>, firstEdge: seq<nat>) {
    && |src| == |from|
    && (forall n :: 0 <= n < |firstEdge| ==> firstEdge[n] < |src| && src[firstEdge[n]] == n)
    && (forall k :: 0 <= k < |src| ==>
          src[k] < |firstEdge| && firstEdge[src[k]] <= k && from[firstEdge[src[k]]] == from[k])
    && forall m, n :: 0 <= m < n < |firstEdge| ==> from[firstEdge[m]] != from[firstEdge[n]]
  }

  /** The lookup map behind it: exactly the sources seen so far, each with its slot. */
  ghost predicate Indexed<Id>(from: seq<Id>, index: map<Id, nat>, firstEdge: seq<nat>) {
    && (forall n :: 0 <= n < |firstEdge| ==> firstEdge[n] < |from| && from[firstEdge[n]] in index)
    && forall id :: id in index ==> index[id] < |firstEdge| && from[firstEdge[index[id]]] == id
  }

  lemma KnownSource<Id>(from: seq<Id>, src: seq<nat>, firstEdge: seq<nat>, index: map<Id, nat>, id: Id)
    requires FirstOccurrences(from, src, firstEdge) && Indexed(from, index, firstEdge) && id in index
    ensures FirstOccurrences(from + [id], src + [index[id]], firstEdge)
  {
  }

  lemma KnownIndex<Id>(from: seq<Id>, firstEdge: seq<nat>, index: map<Id, nat>, id: Id)
    requires Indexed(from, index, firstEdge)
    ensures Indexed(from + [id], index, firstEdge)
  {
  }

  lemma NewSource<Id>(from: seq<Id>, src: seq<nat>, firstEdge: seq<nat>, index: map<Id, nat>, id: Id)
    requires FirstOccurrences(from, src, firstEdge) && Indexed(from, index, firstEdge) && id !in index
    ensures FirstOccurrences(from + [id], src + [|firstEdge|], firstEdge + [|src|])
  {
  }

  lemma NewIndex<Id>(from: seq<Id>, firstEdge: seq<nat>, index: map<Id, nat>, id: Id)
    requires Indexed(from, index, firstEdge) && id !in index
    ensures Indexed(from + [id], index[id := |firstEdge|], firstEdge + [|from|])
  {
    var from', index', first' := from + [id], index[id := |firstEdge|], firstEdge + [|from|];
    forall x | x in index' ensures index'[x] < |first'| && from'[first'[index'[x]]] == x {
      assert x != id ==> x in index;
    }
  }

  method BuildSourceMap<Id(==)>(from: seq<Id>) returns (src: seq<nat>, firstEdge: seq<nat>)
    ensures FirstOccurrences(from, src, firstEdge)
  {
    var index: map<Id, nat> := map[];
    src, firstEdge := [], [];
    assert FirstOccurrences(from[..0], src, firstEdge) && Indexed(from[..0], index, firstEdge);
    assert from[..|from|] == from;
    hide *;
    for k := 0 to |from|
      invariant FirstOccurrences(from[..k], src, firstEdge) && Indexed(from[..k], index, firstEdge) && |src| == k
    {
      var id := from[k];
      assert from[..k + 1] == from[..k] + [id];
      if id in index {
        KnownSource(from[..k], src, firstEdge, index, id);
        KnownIndex(from[..k], firstEdge, index, id);
        src := src + [index[id]];
      } else {
        NewSource(from[..k], src, firstEdge, index, id);
        NewIndex(from[..k], firstEdge, index, id);
        index := index[id := |firstEdge|];
        src, firstEdge := src + [|firstEdge|], firstEdge + [k];
      }
    }
  }

  // ---- Flat buffers -------------------------------------------------------------------------

  predicate HasRow(size: nat, k: nat, count: nat) {
    (k + 1) * count <= size
  }

  /** Row `k` of a buffer of `count`-sample rows. */
  function Row(buf: seq<Sample>, k: nat, count: nat): (r: seq<Sample>)
    requires HasRow(|buf|, k, count)
    ensures |r| == count
  {
    RowFits(k, count);
    buf[k * count..(k + 1) * count]
  }

  lemma RowFits(k: nat, count: nat)
    ensures 0 <= k * count && k * count + count == (k + 1) * count
  {
  }

  lemma RowOrder(j: nat, k: nat, count: nat)
    requires j < k
    ensures (j + 1) * count <= k * count
  {
    var gap := k - (j + 1);
    assert k * count == (j + 1) * count + gap * count;
    assert gap * count >= 0;
  }

  lemma RowWithin(k: nat, n: nat, count: nat)
    requires k < n
    ensures (k + 1) * count <= n * count
  {
    if k + 1 < n { RowOrder(k, n, count); }
  }

  lemma RowSample(buf: seq<Sample>, k: nat, count: nat, idx: nat)
    requires HasRow(|buf|, k, count) && idx < count
    ensures k * count + idx < |buf| && Row(buf, k, count)[idx] == buf[k * count + idx]
  {
    RowFits(k, count);
  }

  /** Writing inside row `k` leaves the other rows alone. */
  lemma OtherRow(a: seq<Sample>, b: seq<Sample>, j: nat, k: nat, count: nat)
    requires |a| == |b| && j != k && HasRow(|a|, j, count)
    requires forall p :: 0 <= p < |a| && !(k * count <= p < k * count + count) ==> a[p] == b[p]
    ensures Row(a, j, count) == Row(b, j, count)
  {
    RowFits(j, count);
    RowFits(k, count);
    if j < k { RowOrder(j, k, count); } else { RowOrder(k, j, count); }
  }

  /** Copies `x` into row `k`. */
  method WriteRow(buf: array<Sample>, k: nat, count: nat, x: seq<Sample>)
    requires |x| == count && HasRow(buf.Length, k, count)
    modifies buf
    ensures Row(buf[..], k, count) == x
    ensures forall j :: 0 <= j != k && HasRow(buf.Length, j, count) ==>
              Row(buf[..], j, count) == Row(old(buf[..]), j, count)
  {
    RowFits(k, count);
    ghost var was := buf[..];
    for i := 0 to count
      invariant buf[k * count..k * count + i] == x[..i]
      invariant forall p :: 0 <= p < buf.Length && !(k * count <= p < k * count + count) ==> buf[p] == was[p]
    {
      buf[k * count + i] := x[i];
    }
    forall j | 0 <= j != k && HasRow(buf.Length, j, count)
      ensures Row(buf[..], j, count) == Row(was, j, count)
    {
      OtherRow(buf[..], was, j, k, count);
    }
  }

  predicate Packable(firstEdge: seq<nat>, inputs: seq<seq<Sample>>, count: nat) {
    forall n :: 0 <= n < |firstEdge| ==> firstEdge[n] < |inputs| && |inputs[firstEdge[n]]| == count
  }

  /** Each unique source's samples, once; fails at the first window that is missing or of
      the wrong size. */
  method PackSources(firstEdge: seq<nat>, inputs: seq<seq<Sample>>, count: nat, source: array<Sample>) returns (ok: bool)
    requires |firstEdge| * count <= source.Length
    modifies source
    ensures ok <==> Packable(firstEdge, inputs, count)
    ensures ok ==> forall n :: 0 <= n < |firstEdge| ==>
              HasRow(source.Length, n, count) && Row(source[..], n, count) == inputs[firstEdge[n]]
  {
    forall n | 0 <= n < |firstEdge| ensures HasRow(source.Length, n, count) { RowWithin(n, |firstEdge|, count); }
    for n := 0 to |firstEdge|
      invariant forall m :: 0 <= m < n ==> firstEdge[m] < |inputs| && |inputs[firstEdge[m]]| == count
      invariant forall m :: 0 <= m < n ==> Row(source[..], m, count) == inputs[firstEdge[m]]
    {
      if firstEdge[n] >= |inputs| || |inputs[firstEdge[n]]| != count {
        return false;
      }
      WriteRow(source, n, count, inputs[firstEdge[n]]);
    }
    ok := true;
  }

  // ---- Kernels ----------------------------------------------------------------------------------

  /** One thread of the channel kernel: output sample `idx` of one edge. */
  method ChannelSample(d: DevLink, source: array<Sample>, count: nat, idx: nat) returns (y: Sample)
    requires d.Shaped() && HasRow(source.Length, d.src, count) && idx < count
    ensures y == Staged(d, Row(source[..], d.src, count))[idx]
  {
    var base := d.src * count;
    ghost var slot := Row(source[..], d.src, count);
    RowFits(d.src, count);
    if !d.hasTdl {
      return source[base + idx];
    }
    ghost var f := m => Tdl.Read(d.line, slot, m);
    y := ZERO;
    for k := 0 to |d.taps|
      invariant y == Tdl.Conv(f, d.taps, d.poly, idx, k)
    {
      var tauInt := d.taps[k].delay.Floor;
      var h := d.poly[k];
      var x := ZERO;
      for i := 0 to Tdl.FILTER
        invariant x == Tdl.Filter(f, h, idx - tauInt, i)
      {
        var at := idx - tauInt + 3 - i;
        var s := ZERO;
        if at >= count {
        } else if at >= 0 {
          s := source[base + at];
          assert s == slot[at];
        } else {
          var ring := |d.line| + at;
          if 0 <= ring < |d.line| {
            s := d.line[ring];
          }
        }
        assert s == f(at);
        x := Add(x, Scale(s, h[i]));
      }
      y := Add(y, Scale(Rotate(x, d.taps[k].rotation), d.taps[k].gain));
    }
  }

  /** All edges, all samples: `staged` row `k` becomes edge `k`'s channel output. */
  method ChannelKernel(devs: seq<DevLink>, source: array<Sample>, staged: array<Sample>, count: nat)
    requires source != staged && |devs| * count <= staged.Length
    requires forall k :: 0 <= k < |devs| ==> devs[k].Shaped() && HasRow(source.Length, devs[k].src, count)
    modifies staged
    ensures forall k :: 0 <= k < |devs| ==> HasRow(staged.Length, k, count)
    ensures forall k :: 0 <= k < |devs| ==>
              Row(staged[..], k, count) == Staged(devs[k], Row(source[..], devs[k].src, count))
  {
    forall k | 0 <= k < |devs| ensures HasRow(staged.Length, k, count) { RowWithin(k, |devs|, count); }
    for k := 0 to |devs|
      invariant source[..] == old(source[..])
      invariant forall j :: 0 <= j < k ==>
                  Row(staged[..], j, count) == Staged(devs[j], Row(source[..], devs[j].src, count))
    {
      ChannelRow(devs[k], k, source, staged, count);
    }
  }

  method ChannelRow(d: DevLink, k: nat, source: array<Sample>, staged: array<Sample>, count: nat)
    requires source != staged && HasRow(staged.Length, k, count)
    requires d.Shaped() && HasRow(source.Length, d.src, count)
    modifies staged
    ensures Row(staged[..], k, count) == Staged(d, Row(source[..], d.src, count))
    ensures forall j :: 0 <= j != k && HasRow(staged.Length, j, count) ==>
              Row(staged[..], j, count) == Row(old(staged[..]), j, count)
  {
    RowFits(k, count);
    ghost var was, y := staged[..], Staged(d, Row(source[..], d.src, count));
    for idx := 0 to count
      invariant source[..] == old(source[..])
      invariant staged[k * count..k * count + idx] == y[..idx]
      invariant forall p :: 0 <= p < staged.Length && !(k * count <= p < k * count + count) ==> staged[p] == was[p]
    {
      var v := ChannelSample(d, source, count, idx);
      staged[k * count + idx] := v;
    }
    forall j | 0 <= j != k && HasRow(staged.Length, j, count)
      ensures Row(staged[..], j, count) == Row(was, j, count)
    {
      OtherRow(staged[..], was, j, k, count);
    }
  }

  /** The ring kernel for one edge: its struct's line rolls over the edge's source row. */
  method UpdateDelayLine(d: DevLink, source: array<Sample>, count: nat) returns (d': DevLink)
    requires HasRow(source.Length, d.src, count)
    ensures d' == NextDevLink(d, Row(source[..], d.src, count))
  {
    var line := d.line;
    var size := |line|;
    ghost var slot := Row(source[..], d.src, count);
    if !d.hasTdl || size == 0 {
      return d;
    }
    RowFits(d.src, count);
    var base := d.src * count;
    if count >= size {
      for i := 0 to size
        invariant |line| == size && forall m :: 0 <= m < i ==> line[m] == slot[count - size + m]
      {
        line := line[i := source[base + (count - size) + i]];
      }
    } else {
      var keep := size - count;
      for i := 0 to keep
        invariant |line| == size && forall m :: 0 <= m < i ==> line[m] == d.line[m + count]
        invariant forall m :: i <= m < size ==> line[m] == d.line[m]
      {
        line := line[i := line[i + count]];
      }
      for i := 0 to count
        invariant |line| == size && forall m :: 0 <= m < keep ==> line[m] == d.line[m + count]
        invariant forall m :: 0 <= m < i ==> line[keep + m] == slot[m]
      {
        line := line[keep + i := source[base + i]];
      }
    }
    assert line == Tdl.Roll(d.line, slot);
    d' := d.(line := line);
  }

  // ---- Step tables ---------------------------------------------------------------------------------

  /** Builds a chain's device steps and advances its oscillators by the slot. */
  method BuildSteps(ph: Physics, rate: nat, chain: seq<ModelStep>, live: Mutable, phases: seq<real>, count: nat)
      returns (steps: seq<GpuStep>, phases': seq<real>)
    requires |chain| == |phases| && ph.tr.turn > 0.0
    ensures steps == BuildTable(ResolveAll(ph, rate, chain, Untouched(live)), phases)
    ensures phases' == NextPhases(ph.tr, ResolveAll(ph, rate, chain, Untouched(live)), phases, count)
  {
    steps, phases' := [], phases;
    ghost var resolved := ResolveAll(ph, rate, chain, Untouched(live));
    for k := 0 to |chain|
      invariant steps == BuildTable(resolved, phases)[..k]
      invariant |phases'| == |phases| && phases'[..k] == NextPhases(ph.tr, resolved, phases, count)[..k]
      invariant forall j :: k <= j < |phases| ==> phases'[j] == phases[j]
    {
      match chain[k]
      case PathLossStep(_) =>
        steps := steps + [GpuScale(ph.linear(-live.pathLossDb))];
      case TurnStep(phaseRad, _) =>
        var increment := ph.Increment(live.cfoHz, rate);
        steps := steps + [GpuRotate(phaseRad + phases'[k], increment)];
        phases' := phases'[k := Fmod(phases'[k] + Angle(count, increment), ph.tr.turn)];
      case TdlStep(_) =>
        steps := steps + [GpuScale(1.0)];
    }
  }

  /** A table's steps, in order, on one sample. */
  method ApplyChain(tr: Trig, steps: array<GpuStep>, offset: nat, n: nat, idx: nat, v: Sample) returns (y: Sample)
    requires offset + n <= steps.Length
    ensures y == ApplySteps(tr, steps[offset..offset + n], idx, v)
  {
    ghost var table := steps[offset..offset + n];
    y := v;
    for j := 0 to n
      invariant ApplySteps(tr, table[j..], idx, y) == ApplySteps(tr, table, idx, v)
    {
      assert table[j..][0] == steps[offset + j] && table[j..][1..] == table[j + 1..];
      match steps[offset + j]
      case GpuScale(a) => y := Scale(y, a);
      case GpuRotate(a, b) => y := Rotate(y, tr.rot(a + Angle(idx, b)));
    }
  }

  /** The sum one thread accumulates over the first `k` edges. */
  function TableSum(tr: Trig, staged: seq<seq<Sample>>, tables: seq<seq<GpuStep>>, idx: nat, k: nat): Sample
    requires |tables| == |staged| && k <= |staged| && forall j :: 0 <= j < |staged| ==> idx < |staged[j]|
  {
    if k == 0 then ZERO
    else Add(TableSum(tr, staged, tables, idx, k - 1), ApplySteps(tr, tables[k - 1], idx, staged[k - 1][idx]))
  }

  /** Offsets, then counts: edge `k`'s table within the flattened steps. */
  ghost predicate Flattened(steps: seq<GpuStep>, meta: seq<nat>, tables: seq<seq<GpuStep>>) {
    && 2 * |tables| <= |meta|
    && forall k :: 0 <= k < |tables| ==>
         meta[k] + meta[|tables| + k] <= |steps| && steps[meta[k]..meta[k] + meta[|tables| + k]] == tables[k]
  }

  ghost predicate HoldsRows(staged: seq<Sample>, rows: seq<seq<Sample>>, count: nat) {
    forall k :: 0 <= k < |rows| ==> |rows[k]| == count && HasRow(|staged|, k, count) && Row(staged, k, count) == rows[k]
  }

  /** One thread of the summing kernel. */
  method SuperposeSample(tr: Trig, count: nat, links: nat, staged: array<Sample>, steps: array<GpuStep>, meta: array<nat>,
                         idx: nat, ghost rows: seq<seq<Sample>>, ghost tables: seq<seq<GpuStep>>)
      returns (acc: Sample)
    requires |rows| == |tables| == links && idx < count
    requires Flattened(steps[..], meta[..], tables) && HoldsRows(staged[..], rows, count)
    ensures acc == TableSum(tr, rows, tables, idx, links)
  {
    acc := ZERO;
    for k := 0 to links
      invariant acc == TableSum(tr, rows, tables, idx, k)
    {
      RowSample(staged[..], k, count, idx);
      var offset, n := meta[k], meta[links + k];
      assert offset == meta[..][k] && n == meta[..][|tables| + k];
      assert steps[..][offset..offset + n] == tables[k];
      var v := ApplyChain(tr, steps, offset, n, idx, staged[k * count + idx]);
      acc := Add(acc, v);
    }
  }

  method SuperposeKernel(tr: Trig, dst: array<Sample>, count: nat, links: nat, staged: array<Sample>,
                         steps: array<GpuStep>, meta: array<nat>,
                         ghost rows: seq<seq<Sample>>, ghost tables: seq<seq<GpuStep>>)
    requires dst != staged && count <= dst.Length && |rows| == |tables| == links
    requires Flattened(steps[..], meta[..], tables) && HoldsRows(staged[..], rows, count)
    modifies dst
    ensures forall idx :: 0 <= idx < count ==> dst[idx] == TableSum(tr, rows, tables, idx, links)
    ensures dst[count..] == old(dst[count..])
  {
    for idx := 0 to count
      invariant staged[..] == old(staged[..])
      invariant forall n :: 0 <= n < idx ==> dst[n] == TableSum(tr, rows, tables, n, links)
      invariant dst[count..] == old(dst[count..])
    {
      dst[idx] := SuperposeSample(tr, count, links, staged, steps, meta, idx, rows, tables);
    }
  }

  /** The receiver's steps, in place on the sum. */
  method ApplyStepsKernel(tr: Trig, output: array<Sample>, count: nat, steps: array<GpuStep>, n: nat)
    requires count <= output.Length && n <= steps.Length
    modifies output
    ensures forall idx :: 0 <= idx < count ==> output[idx] == ApplySteps(tr, steps[..n], idx, old(output[idx]))
    ensures output[count..] == old(output[count..])
  {
    for idx := 0 to count
      invariant forall m :: 0 <= m < idx ==> output[m] == ApplySteps(tr, steps[..n], m, old(output[m]))
      invariant forall m :: idx <= m < output.Length ==> output[m] == old(output[m])
    {
      output[idx] := ApplyChain(tr, steps, 0, n, idx, output[idx]);
    }
  }
}

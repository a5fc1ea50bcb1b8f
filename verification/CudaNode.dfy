/** A destination node of the CUDA backend: its buffers, and one serve through them. */
module CudaBackend {
  import opened Iq
  import opened Phase
  import opened Chain
  import opened Fused
  import opened FusedRun
  import opened RuntimeControl
  import opened CpuLinks
  import opened Receiver
  import CpuBackend
  import Tdl

  class CudaNode {
    const ph: Physics
    const rate: nat
    const tr: Trig
    const capacity: nat
    const maxSteps: nat
    const firstEdge: seq<nat>
    const useDevice: bool

    /** Each edge's configured chain, its live parameters and what they resolve it to: between
        control writes they stay as prepared. */
    const configs: seq<seq<ModelStep>>
    const lives: seq<Mutable>
    const chains: seq<seq<Step>>

    const receiver: seq<ModelStep>
    const rxLive: Mutable
    ghost const rx: seq<Step>

    var devs: seq<DevLink>
    var phases: seq<seq<real>>
    var rxPhases: seq<real>

    const lines: seq<array<Sample>>
    const source: array<Sample>
    const staged: array<Sample>
    const hostSteps: array<GpuStep>
    const meta: array<nat>
    const rxSteps: array<GpuStep>

    ghost predicate Valid()
      reads this, lines
    {
      && tr.turn > 0.0 && chains != [] && Resolved()
      && Consistent(chains, devs, phases, lines, firstEdge) && ShapedChain(rx) && |rxPhases| == |rx|
      && (useDevice ==> forall k :: 0 <= k < |chains| ==> LeadsWithTaps(chains[k]))
      && Roomy()
      && source !in lines && staged !in lines && source != staged && hostSteps != rxSteps
      && forall j, k :: 0 <= j < k < |lines| ==> lines[j] != lines[k]
    }

    /** The chains are the configured ones under the live parameters. */
    ghost predicate Resolved() {
      && ph.tr == tr && |configs| == |lives| == |chains| && rx == ResolveAll(ph, rate, receiver, Untouched(rxLive))
      && forall k :: 0 <= k < |chains| ==> chains[k] == ResolveAll(ph, rate, configs[k], Untouched(lives[k]))
    }

    /** The buffers allocated up front hold any serve of at most `capacity` samples. */
    ghost predicate Roomy() {
      && |firstEdge| * capacity <= source.Length && |chains| * capacity <= staged.Length
      && |chains| * maxSteps <= hostSteps.Length && 2 * |chains| <= meta.Length && |rx| <= rxSteps.Length
      && forall k :: 0 <= k < |chains| ==> |chains[k]| <= maxSteps
    }

    ghost function Model(): (g: GpuNode)
      reads this, lines
      requires Valid()
      ensures g.Shaped()
    {
      NodeOf(chains, phases, devs, LineContents(), firstEdge, useDevice, rx, rxPhases)
    }

    /** Prepares a destination whose incoming links run `configured` and come from `from`.  Each
        link's parameters are scanned from its chain; the receiver's are left as they are created. */
    constructor <Id(==)>(physics: Physics, sampleRate: nat, samples: nat, configured: seq<seq<ModelStep>>,
                         rxConfig: seq<ModelStep>, from: seq<Id>)
      requires physics.Valid() && configured != [] && |from| == |configured| && SaneChain(rxConfig)
      requires forall k :: 0 <= k < |configured| ==> SaneChain(configured[k])
      ensures Valid() && fresh(lines) && fresh(source) && fresh(staged) && fresh(hostSteps) && fresh(meta) && fresh(rxSteps)
      ensures ph == physics && tr == physics.tr && rate == sampleRate && capacity == samples
      ensures configs == configured && receiver == rxConfig && chains == LinkChains(physics, sampleRate, configured)
      ensures CudaPrepared(physics, sampleRate, configured, rxConfig).Shaped()
      ensures exists src :: FirstOccurrences(from, src, firstEdge) && |src| == |configured| &&
                Model() == Prepared(CudaPrepared(physics, sampleRate, configured, rxConfig), src, firstEdge)
    {
      ShapedOnPrepare(physics, sampleRate, configured, rxConfig);
      var src, first := BuildSourceMap(from);
      var scanned := ScanAll(configured);
      var chains0 := LinkChains(physics, sampleRate, configured);
      var steps, leads, devs0, phases0 := BuildLinks(chains0, src);
      var ls := AllocLines(chains0);
      LinksShown(chains0, from, src, first, devs0, phases0);
      LivesResolve(physics, sampleRate, configured, scanned, rxConfig);
      hide PreparedEdge, FreshOf, FreshNodeOf, Prepared, ShapedChain, FirstOccurrences, LeadLine, LeadsWithTaps, YamlParams, SaneChain,
           ResolveAll, BareChain, LinkChain, LinkChains, CudaPrepared, DevLink.Shaped, Step.Shaped;
      ph, rate, tr, capacity, maxSteps, firstEdge, useDevice := physics, sampleRate, physics.tr, samples, steps, first, leads;
      configs, lives, chains := configured, scanned, chains0;
      receiver, rxLive, rx := rxConfig, DEFAULTS, BareChain(physics, sampleRate, rxConfig);
      devs, phases, rxPhases, lines := devs0, phases0, AtRest(|rxConfig|), ls;
      source := new Sample[|first| * samples](_ => ZERO);
      staged := new Sample[|chains0| * samples](_ => ZERO);
      hostSteps := new GpuStep[|chains0| * steps](_ => GpuScale(1.0));
      meta := new nat[2 * |chains0|](_ => 0);
      rxSteps := new GpuStep[|rxConfig|](_ => GpuScale(1.0));
      new;
      assert Valid();
      PreparedShown(chains0, rx, src, firstEdge, Model());
      PreparedHere(physics, sampleRate, configured, rxConfig);
    }

    static method ScanAll(configured: seq<seq<ModelStep>>) returns (lives: seq<Mutable>)
      ensures |lives| == |configured| && forall k :: 0 <= k < |lives| ==> lives[k] == YamlParams(configured[k])
    {
      lives := [];
      for k := 0 to |configured|
        invariant |lives| == k && forall j :: 0 <= j < k ==> lives[j] == YamlParams(configured[j])
      {
        var live := CpuBackend.CpuLink.PopulateParams(configured[k]);
        lives := lives + [live];
      }
    }

    /** Per-edge host state: oscillators at zero, and the device struct or its absence. */
    static method BuildLinks(chains: seq<seq<Step>>, src: seq<nat>)
        returns (steps: nat, leads: bool, devs: seq<DevLink>, phases: seq<seq<real>>)
      requires |src| == |chains| && forall k :: 0 <= k < |chains| ==> ShapedChain(chains[k])
      ensures forall j :: 0 <= j < |chains| ==> |chains[j]| <= steps
      ensures leads <==> forall j :: 0 <= j < |chains| ==> LeadsWithTaps(chains[j])
      ensures |devs| == |phases| == |chains|
      ensures forall j :: 0 <= j < |chains| ==>
                devs[j] == PreparedEdge(FreshOf(chains[j]), src[j]).dev && phases[j] == PreparedEdge(FreshOf(chains[j]), src[j]).phases
    {
      hide PreparedEdge, FreshOf, ShapedChain, LeadsWithTaps;
      steps, leads, devs, phases := 1, true, [], [];
      for k := 0 to |chains|
        invariant steps >= 1 && forall j :: 0 <= j < k ==> |chains[j]| <= steps
        invariant leads <==> forall j :: 0 <= j < k ==> LeadsWithTaps(chains[j])
        invariant |devs| == |phases| == k
        invariant forall j :: 0 <= j < k ==>
                    devs[j] == PreparedEdge(FreshOf(chains[j]), src[j]).dev && phases[j] == PreparedEdge(FreshOf(chains[j]), src[j]).phases
      {
        steps := if |chains[k]| > steps then |chains[k]| else steps;
        leads := leads && LeadsWithTaps(chains[k]);
        var dev, phase := BuildLink(chains[k], src[k]);
        devs, phases := devs + [dev], phases + [phase];
      }
    }

    static method BuildLink(chain: seq<Step>, src: nat) returns (dev: DevLink, phases: seq<real>)
      requires ShapedChain(chain)
      ensures dev == PreparedEdge(FreshOf(chain), src).dev && phases == PreparedEdge(FreshOf(chain), src).phases
    {
      phases := AtRest(|chain|);
      dev := DevLink(false, [], [], [], src);
      if LeadsWithTaps(chain) {
        dev := BuildDevLink(chain[0], Zeros(Tdl.RingSize(chain[0].taps)), src);
      }
    }

    static method AllocLines(chains: seq<seq<Step>>) returns (lines: seq<array<Sample>>)
      ensures |lines| == |chains| && fresh(lines)
      ensures forall k :: 0 <= k < |lines| ==> lines[k][..] == LeadLine(chains[k])
      ensures forall j, k :: 0 <= j < k < |lines| ==> lines[j] != lines[k]
    {
      lines := [];
      for k := 0 to |chains|
        invariant |lines| == k && fresh(lines)
        invariant forall j :: 0 <= j < k ==> lines[j][..] == LeadLine(chains[j])
        invariant forall i, j :: 0 <= i < j < k ==> lines[i] != lines[j]
      {
        var size := if chains[k] != [] && chains[k][0].Taps? then Tdl.RingSize(chains[k][0].taps) else 0;
        var line := new Sample[size](_ => ZERO);
        lines := lines + [line];
      }
    }

    // ---- Staging one edge ---------------------------------------------------------------------

    /** Host staging of edge `k`: its leading tdl, or a copy, into row `k`. */
    method StageLink(k: nat, input: seq<Sample>)
      requires Valid() && k < |chains| && HasRow(staged.Length, k, |input|)
      modifies staged, lines[k]
      ensures Valid()
      ensures Row(staged[..], k, |input|) == HostStaged(chains[k], old(lines[k][..]), input)
      ensures lines[k][..] == HostLine(chains[k], old(lines[k][..]), input)
      ensures forall j :: 0 <= j != k && HasRow(staged.Length, j, |input|) ==>
                Row(staged[..], j, |input|) == Row(old(staged[..]), j, |input|)
    {
      if |chains[k]| > 0 && chains[k][0].Taps? {
        var count := |input|;
        ghost var was := staged[..];
        RowFits(k, count);
        Tdl.ApplyTdlStep(input, staged, k * count, chains[k][0].taps, chains[k][0].poly, lines[k]);
        assert Row(staged[..], k, count) == staged[k * count..k * count + count];
        forall j | 0 <= j != k && HasRow(staged.Length, j, count) ensures Row(staged[..], j, count) == Row(was, j, count) {
          OtherRow(staged[..], was, j, k, count);
        }
      } else {
        WriteRow(staged, k, |input|, input);
      }
    }

    /** Edge `k`'s steps appended to the flattened table at `total`, its offset and count
        noted, and its oscillators advanced. */
    method TableEdge(k: nat, count: nat, total: nat) returns (total': nat)
      requires Valid() && k < |chains| && total + |chains[k]| <= hostSteps.Length
      modifies this`phases, hostSteps, meta
      ensures Valid()
      ensures phases == old(phases)[k := NextPhases(tr, chains[k], old(phases[k]), count)]
      ensures total' == total + |chains[k]|
      ensures hostSteps[..total'] == old(hostSteps[..total]) + BuildTable(chains[k], old(phases[k]))
      ensures meta[..] == old(meta[..])[k := total][|chains| + k := |chains[k]|]
    {
      var steps, phases' := BuildSteps(ph, rate, configs[k], lives[k], phases[k], count);
      phases := phases[k := phases'];
      meta[k] := total;
      meta[|chains| + k] := |steps|;
      total' := total + |steps|;
      CopySteps(hostSteps, steps, total);
    }

    static method CopySteps(to: array<GpuStep>, steps: seq<GpuStep>, at: nat)
      requires at + |steps| <= to.Length
      modifies to
      ensures to[..at + |steps|] == old(to[..at]) + steps
    {
      for j := 0 to |steps|
        invariant to[..at] == old(to[..at]) && to[at..at + j] == steps[..j]
      {
        to[at + j] := steps[j];
      }
      assert to[..at + |steps|] == to[..at] + to[at..at + |steps|];
    }

    // ---- One serve --------------------------------------------------------------------------------

    ghost function LineContents(): (ls: seq<seq<Sample>>)
      reads lines
      ensures |ls| == |lines| && forall k :: 0 <= k < |ls| ==> ls[k] == lines[k][..]
    {
      seq(|lines|, k requires 0 <= k < |lines| reads lines => lines[k][..])
    }

    /** Stages every edge on a host-staged node and flattens all tables.  Stops at the
        first input of the wrong size. */
    method Assemble(inputs: seq<seq<Sample>>, count: nat) returns (ok: bool)
      requires Valid() && |inputs| == |chains| && count <= capacity
      modifies this`phases, hostSteps, meta, staged, lines
      ensures Valid()
      ensures ok <==> forall k :: 0 <= k < |inputs| ==> |inputs[k]| == count
      ensures AdvancedUpTo(tr, chains, old(phases), phases, old(LineContents()), LineContents(), inputs, count, useDevice,
                           FirstBad(inputs, count))
      ensures ok ==> TabledUpTo(tr, chains, old(phases), phases, count, hostSteps[..], meta[..], |chains|)
      ensures useDevice ==> LineContents() == old(LineContents())
      ensures ok && !useDevice ==>
                StagedUpTo(staged[..], chains, old(LineContents()), LineContents(), inputs, count, |chains|)
    {
      hide *;
      NothingStaged(inputs, count);
      ghost var phases0, lines0 := phases, LineContents();
      var total: nat := 0;
      assert hostSteps[..0] == [];
      for k := 0 to |inputs|
        invariant Valid() && total <= k * maxSteps && total <= hostSteps.Length
        invariant forall j :: 0 <= j < k ==> |inputs[j]| == count
        invariant TabledUpTo(tr, chains, phases0, phases, count, hostSteps[..total], meta[..], k)
        invariant if useDevice then LineContents() == lines0
                  else StagedUpTo(staged[..], chains, lines0, LineContents(), inputs, count, k)
      {
        if |inputs[k]| != count {
          Stopped(tr, chains, phases0, phases, lines0, LineContents(), inputs, count, useDevice, hostSteps[..total], meta[..],
                  staged[..], k);
          return false;
        }
        if !useDevice {
          StageEdge(k, inputs, count, lines0);
        }
        total := TabulateEdge(k, count, total, phases0);
      }
      ok := true;
      Stopped(tr, chains, phases0, phases, lines0, LineContents(), inputs, count, useDevice, hostSteps[..total], meta[..],
              staged[..], |inputs|);
      TableRest(tr, chains, phases0, phases, count, hostSteps[..total], hostSteps[total..], meta[..], |inputs|);
      assert hostSteps[..total] + hostSteps[total..] == hostSteps[..];
    }

    lemma NothingStaged(inputs: seq<seq<Sample>>, count: nat)
      requires Valid() && |inputs| == |chains|
      ensures tr.turn > 0.0 && |chains| == |phases| == |lines|
      ensures TabledUpTo(tr, chains, phases, phases, count, [], meta[..], 0)
      ensures StagedUpTo(staged[..], chains, LineContents(), LineContents(), inputs, count, 0)
    {
    }

    method StageEdge(k: nat, inputs: seq<seq<Sample>>, count: nat, ghost lines0: seq<seq<Sample>>)
      requires Valid() && k < |inputs| == |chains| && |inputs[k]| == count <= capacity
      requires StagedUpTo(staged[..], chains, lines0, LineContents(), inputs, count, k)
      modifies staged, lines[k]
      ensures Valid() && StagedUpTo(staged[..], chains, lines0, LineContents(), inputs, count, k + 1)
    {
      StageRoom(k, |chains|, count);
      ghost var staged', ls := staged[..], LineContents();
      StageLink(k, inputs[k]);
      assert forall j :: 0 <= j < |lines| && j != k ==> LineContents()[j] == ls[j];
      StageOne(staged', staged[..], chains, lines0, ls, LineContents(), inputs, count, k);
    }

    lemma RoomForTable(k: nat, total: nat)
      requires Valid() && k < |chains| && total <= k * maxSteps
      ensures total + |chains[k]| <= (k + 1) * maxSteps <= hostSteps.Length && |chains[k]| <= maxSteps && tr.turn > 0.0
    {
      RowWithin(k, |chains|, maxSteps);
      RowFits(k, maxSteps);
    }

    method TabulateEdge(k: nat, count: nat, total: nat, ghost phases0: seq<seq<real>>) returns (total': nat)
      requires Valid() && k < |chains| && total <= k * maxSteps && total <= hostSteps.Length
      requires TabledUpTo(tr, chains, phases0, phases, count, hostSteps[..total], meta[..], k)
      modifies this`phases, hostSteps, meta
      ensures Valid() && total' <= (k + 1) * maxSteps && total' <= hostSteps.Length
      ensures TabledUpTo(tr, chains, phases0, phases, count, hostSteps[..total'], meta[..], k + 1)
    {
      RoomForTable(k, total);
      hide *;
      ghost var steps, meta0, ps := hostSteps[..total], meta[..], phases;
      total' := TableEdge(k, count, total);
      TableOne(tr, chains, phases0, ps, count, steps, meta0, k);
    }

    lemma StageRoom(k: nat, links: nat, count: nat)
      requires Roomy() && k < links == |chains| && count <= capacity
      ensures HasRow(staged.Length, k, count)
    {
      RowWithin(k, links, count);
    }

    /** The device path: every edge's channel kernel on its packed source, then the rings. */
    method RunChannels(count: nat, ghost g: GpuNode, ghost inputs: seq<seq<Sample>>)
      requires Valid() && useDevice && count <= capacity
      requires ReadsPacked(g, inputs, count, devs, source[..])
      modifies staged, this`devs
      ensures Valid() && HoldsRows(staged[..], FusedRows(g, inputs, count), count)
      ensures devs == NextDevs(g, inputs) && LineContents() == old(LineContents())
    {
      RowWithinAll(|chains|, count, capacity);
      ChannelKernel(devs, source, staged, count);
      RowsShown(g, inputs, count, devs, source[..], staged[..]);
      RollRings(count);
      RingsShown(g, inputs, count, old(devs), source[..], devs);
    }

    /** Sums the staged rows through their tables, then applies the receiver's table. */
    method Superpose(output: array<Sample>, ghost g: GpuNode, ghost inputs: seq<seq<Sample>>, ghost tables: seq<seq<GpuStep>>)
      requires Valid() && output != staged
      requires |rx| == |g.rxPhases| && rxSteps[..|rx|] == BuildTable(rx, g.rxPhases)
      requires g.Shaped() && g.rx == rx && Fitting(g, inputs, output.Length) && |inputs| == |chains|
      requires TablesOf(g, tables) && Flattened(hostSteps[..], meta[..], tables)
      requires HoldsRows(staged[..], FusedRows(g, inputs, output.Length), output.Length)
      modifies output
      ensures output[..] == FusedOut(tr, g, inputs, output.Length)
    {
      var count := output.Length;
      ghost var rows := FusedRows(g, inputs, count);
      SuperposeKernel(tr, output, count, |chains|, staged, hostSteps, meta, rows, tables);
      ghost var sum := output[..];
      ApplyStepsKernel(tr, output, count, rxSteps, |receiver|);
      forall idx | 0 <= idx < count ensures output[idx] == FusedOut(tr, g, inputs, count)[idx] {
        TableSumIsFused(tr, g, inputs, count, tables, idx, |inputs|);
        assert output[idx] == ApplySteps(tr, rxSteps[..|rx|], idx, sum[idx]);
      }
    }

    /** One serve.  A serve that does not fit the buffers or whose inputs are not all as
        long as the output is refused. */
    method ProcessSuperposition(inputs: seq<seq<Sample>>, output: array<Sample>) returns (ok: bool)
      requires Valid() && |inputs| == |chains|
      requires output != source && output != staged && output !in lines
      modifies this`devs, this`phases, this`rxPhases, source, staged, hostSteps, meta, rxSteps, lines, output
      ensures Valid()
      ensures ok == (output.Length == 0 || (output.Length <= capacity && SameLength(inputs, output.Length)))
      ensures output.Length == 0 ==> Model() == old(Model())
      ensures ok && output.Length > 0 ==> Serves(tr, old(Model()), Model(), inputs, output[..])
      ensures !ok ==> Model() == Refused(tr, old(Model()), inputs, output.Length, capacity)
    {
      var count := output.Length;
      if count == 0 {
        return true;
      }
      if count > capacity {
        return false;
      }
      if useDevice {
        ok := ProcessOnDevice(inputs, output);
      } else {
        ok := ProcessOnHost(inputs, output);
      }
    }

    lemma ModelShown()
      requires Valid()
      ensures var g := Model();
        && tr.turn > 0.0 && g.Shaped() && |g.edges| == |chains| == |phases| == |devs| == |lines| && |rx| == |rxPhases|
        && g == NodeOf(chains, phases, devs, LineContents(), firstEdge, useDevice, rx, rxPhases)
        && g.useDevice == useDevice && g.rx == rx && g.rxPhases == rxPhases && g.firstEdge == firstEdge
        && forall k :: 0 <= k < |chains| ==> g.edges[k] == GpuEdge(chains[k], phases[k], devs[k], LineContents()[k])
    {
    }

    method ProcessOnHost(inputs: seq<seq<Sample>>, output: array<Sample>) returns (ok: bool)
      requires Valid() && |inputs| == |chains| && !useDevice && output.Length <= capacity
      requires output != source && output != staged && output !in lines
      modifies this`phases, this`rxPhases, staged, hostSteps, meta, rxSteps, lines, output
      ensures Valid() && ok == SameLength(inputs, output.Length)
      ensures ok ==> Serves(tr, old(Model()), Model(), inputs, output[..])
      ensures !ok ==> Model() == Refused(tr, old(Model()), inputs, output.Length, capacity)
    {
      hide *;
      ModelShown();
      var count := output.Length;
      ghost var g, lines0 := Model(), LineContents();
      FitsSame(g, inputs, count);
      ok := Assemble(inputs, count);
      ModelShown();
      if !ok {
        RefusedShown(tr, g, Model(), chains, phases, LineContents(), inputs, count, capacity, old(phases), lines0);
        return;
      }
      PrepareReceiver(count);
      ghost var tables := TabledShown(tr, g, chains, old(phases), phases, count, hostSteps[..], meta[..]);
      StagedShown(g, chains, inputs, count, staged[..], lines0, LineContents());
      Superpose(output, g, inputs, tables);
      ModelShown();
      HostNext(tr, g, inputs, count, Model());
      ServesShown(tr, g, Model(), inputs, output[..]);
    }

    /** Packs the sources and tables the edges; the device does the staging. */
    method AssembleOnDevice(inputs: seq<seq<Sample>>, count: nat, ghost g: GpuNode) returns (ok: bool)
      requires Valid() && |inputs| == |chains| && useDevice && count <= capacity && g == Model()
      modifies this`phases, source, hostSteps, meta, staged, lines
      ensures Valid() && devs == old(devs) && rxPhases == old(rxPhases) && LineContents() == old(LineContents())
      ensures ok == SameLength(inputs, count)
      ensures ok ==> TabledUpTo(tr, chains, old(phases), phases, count, hostSteps[..], meta[..], |chains|)
      ensures ok ==> ReadsPacked(g, inputs, count, devs, source[..])
      ensures !ok ==> Model() == Refused(tr, g, inputs, count, capacity)
    {
      hide *;
      ModelShown();
      ghost var lines0 := LineContents();
      FitsSame(g, inputs, count);
      ok := PackAll(inputs, count);
      ModelShown();
      if SameLength(inputs, count) {
        SamePacks(g, inputs, count);
      }
      if !ok {
        UnpackedShown(tr, g, inputs, count, capacity);
        return;
      }
      ok := Assemble(inputs, count);
      ModelShown();
      if !ok {
        RefusedShown(tr, g, Model(), chains, phases, LineContents(), inputs, count, capacity, old(phases), lines0);
        return;
      }
      PackedShown(g, inputs, count, devs, source[..]);
    }

    method PackAll(inputs: seq<seq<Sample>>, count: nat) returns (ok: bool)
      requires Valid() && count <= capacity
      modifies source
      ensures Valid() && Model() == old(Model()) && LineContents() == old(LineContents())
      ensures ok <==> Packable(firstEdge, inputs, count)
      ensures ok ==> forall n :: 0 <= n < |firstEdge| ==>
                HasRow(source.Length, n, count) && Row(source[..], n, count) == inputs[firstEdge[n]]
    {
      RowWithinAll(|firstEdge|, count, capacity);
      ok := PackSources(firstEdge, inputs, count, source);
    }

    method ProcessOnDevice(inputs: seq<seq<Sample>>, output: array<Sample>) returns (ok: bool)
      requires Valid() && |inputs| == |chains| && useDevice && output.Length <= capacity
      requires output != source && output != staged && output !in lines
      modifies this`devs, this`phases, this`rxPhases, source, staged, hostSteps, meta, rxSteps, lines, output
      ensures Valid() && ok == SameLength(inputs, output.Length)
      ensures ok ==> Serves(tr, old(Model()), Model(), inputs, output[..])
      ensures !ok ==> Model() == Refused(tr, old(Model()), inputs, output.Length, capacity)
    {
      hide *;
      ModelShown();
      var count := output.Length;
      ghost var g := Model();
      FitsSame(g, inputs, count);
      ok := AssembleOnDevice(inputs, count, g);
      if !ok {
        return;
      }
      PrepareReceiver(count);
      ghost var tables := TabledShown(tr, g, chains, old(phases), phases, count, hostSteps[..], meta[..]);
      RunChannels(count, g, inputs);
      Superpose(output, g, inputs, tables);
      ModelShown();
      DeviceNext(tr, g, inputs, count, Model());
      ServesShown(tr, g, Model(), inputs, output[..]);
    }

    method PrepareReceiver(count: nat)
      requires Valid()
      modifies this`rxPhases, rxSteps
      ensures Valid() && rxPhases == NextPhases(tr, rx, old(rxPhases), count)
      ensures rxSteps[..|rx|] == BuildTable(rx, old(rxPhases))
    {
      var steps, phases' := BuildSteps(ph, rate, receiver, rxLive, rxPhases, count);
      rxPhases := phases';
      CopySteps(rxSteps, steps, 0);
      assert rxSteps[..0] == [];
    }

    method RollRings(count: nat)
      requires Valid() && forall k :: 0 <= k < |devs| ==> HasRow(source.Length, devs[k].src, count)
      modifies this`devs
      ensures Valid() && |devs| == old(|devs|)
      ensures forall k :: 0 <= k < |devs| ==> devs[k] == NextDevLink(old(devs[k]), Row(source[..], old(devs[k]).src, count))
    {
      ghost var devs0 := devs;
      for k := 0 to |devs|
        invariant Valid() && |devs| == |devs0|
        invariant forall j :: 0 <= j < k ==> devs[j] == NextDevLink(devs0[j], Row(source[..], devs0[j].src, count))
        invariant forall j :: k <= j < |devs| ==> devs[j] == devs0[j]
      {
        var d := UpdateDelayLine(devs[k], source, count);
        SetDev(k, d);
      }
    }

    method SetDev(k: nat, d: DevLink)
      requires Valid() && k < |devs| && d.Shaped() && d.src == devs[k].src
      modifies this`devs
      ensures Valid() && devs == old(devs)[k := d]
    {
      devs := devs[k := d];
    }
  }

  lemma RowsShown(g: GpuNode, inputs: seq<seq<Sample>>, count: nat, devs: seq<DevLink>, source: seq<Sample>, staged: seq<Sample>)
    requires ReadsPacked(g, inputs, count, devs, source)
    requires forall k :: 0 <= k < |devs| ==> HasRow(|staged|, k, count)
    requires forall k :: 0 <= k < |devs| ==> Row(staged, k, count) == Staged(devs[k], Row(source, devs[k].src, count))
    ensures HoldsRows(staged, FusedRows(g, inputs, count), count)
  {
    hide Row, HasRow, Staged;
  }

  lemma RingsShown(g: GpuNode, inputs: seq<seq<Sample>>, count: nat, devs: seq<DevLink>, source: seq<Sample>, devs': seq<DevLink>)
    requires ReadsPacked(g, inputs, count, devs, source) && |devs'| == |devs|
    requires forall k :: 0 <= k < |devs| ==> devs'[k] == NextDevLink(devs[k], Row(source, devs[k].src, count))
    ensures devs' == NextDevs(g, inputs)
  {
    hide Row, HasRow, NextDevLink;
  }

  lemma RowWithinAll(n: nat, count: nat, capacity: nat)
    requires count <= capacity
    ensures n * count <= n * capacity
  {
  }

  function NodeOf(chains: seq<seq<Step>>, phases: seq<seq<real>>, devs: seq<DevLink>, lines: seq<seq<Sample>>,
                  firstEdge: seq<nat>, useDevice: bool, rx: seq<Step>, rxPhases: seq<real>): (g: GpuNode)
    requires |chains| == |phases| == |devs| == |lines|
    ensures |g.edges| == |chains|
    ensures forall k :: 0 <= k < |chains| ==> g.edges[k] == GpuEdge(chains[k], phases[k], devs[k], lines[k])
  {
    GpuNode(
      seq(|chains|, k requires 0 <= k < |chains| => GpuEdge(chains[k], phases[k], devs[k], lines[k])),
      firstEdge, useDevice, rx, rxPhases)
  }

  function FusedRows(g: GpuNode, inputs: seq<seq<Sample>>, count: nat): (rows: seq<seq<Sample>>)
    requires g.Shaped() && Fitting(g, inputs, count)
    ensures |rows| == |inputs| && forall k :: 0 <= k < |rows| ==> |rows[k]| == count
    ensures forall k :: 0 <= k < |rows| ==> rows[k] == EdgeStaged(g, inputs, count, k)
  {
    seq(|inputs|, k requires 0 <= k < |inputs| => EdgeStaged(g, inputs, count, k))
  }

  function NextDevs(g: GpuNode, inputs: seq<seq<Sample>>): (ds: seq<DevLink>)
    requires g.Shaped() && |inputs| == |g.edges|
  {
    seq(|inputs|, k requires 0 <= k < |inputs| => NextDevLink(g.edges[k].dev, SourceOf(g, inputs, k)))
  }

  /** Node `g`'s device links, and each one's packed row holding its source's window. */
  ghost predicate ReadsPacked(g: GpuNode, inputs: seq<seq<Sample>>, count: nat, devs: seq<DevLink>, source: seq<Sample>) {
    && g.Shaped() && g.useDevice && Fitting(g, inputs, count) && |devs| == |g.edges|
    && forall k :: 0 <= k < |devs| ==>
         devs[k] == g.edges[k].dev && HasRow(|source|, devs[k].src, count) && Row(source, devs[k].src, count) == SourceOf(g, inputs, k)
  }

  /** The ring a freshly prepared link starts with. */
  function LeadLine(chain: seq<Step>): seq<Sample> {
    if LeadsWithTaps(chain) then Zeros(Tdl.RingSize(chain[0].taps)) else []
  }

  // ---- What the host stages ---------------------------------------------------------------------

  function HostStaged(chain: seq<Step>, line: seq<Sample>, input: seq<Sample>): (y: seq<Sample>)
    requires ShapedChain(chain)
    ensures |y| == |input|
  {
    if LeadsWithTaps(chain) then Tdl.SlotOut(chain[0].taps, chain[0].poly, line, input) else input
  }

  function HostLine(chain: seq<Step>, line: seq<Sample>, input: seq<Sample>): (l: seq<Sample>)
    ensures |l| == |line|
  {
    if LeadsWithTaps(chain) then Tdl.Roll(line, input) else line
  }

  ghost predicate Consistent(chains: seq<seq<Step>>, devs: seq<DevLink>, phases: seq<seq<real>>, lines: seq<array<Sample>>,
                             firstEdge: seq<nat>)
  {
    && |chains| == |devs| == |phases| == |lines|
    && (forall k :: 0 <= k < |chains| ==>
          ShapedChain(chains[k]) && |phases[k]| == |chains[k]| && devs[k].Shaped() && devs[k].src < |firstEdge|)
    && forall n :: 0 <= n < |firstEdge| ==> firstEdge[n] < |chains|
  }

  /** The first `k` tables are flattened and their oscillators advanced. */
  ghost predicate TabledUpTo(tr: Trig, chains: seq<seq<Step>>, phases0: seq<seq<real>>, phases: seq<seq<real>>, count: nat,
                             steps: seq<GpuStep>, meta: seq<nat>, k: nat)
    requires tr.turn > 0.0
  {
    && k <= |chains| == |phases0| == |phases| && 2 * |chains| <= |meta|
    && (forall j :: 0 <= j < |chains| ==> |phases0[j]| == |chains[j]|)
    && (forall j :: 0 <= j < k ==> phases[j] == NextPhases(tr, chains[j], phases0[j], count))
    && (forall j :: k <= j < |chains| ==> phases[j] == phases0[j])
    && forall j :: 0 <= j < k ==>
         meta[j] + meta[|chains| + j] <= |steps| &&
         steps[meta[j]..meta[j] + meta[|chains| + j]] == BuildTable(chains[j], phases0[j])
  }

  /** The first `n` edges have advanced by a slot: their oscillators and, staged on the host, their
      rings. */
  ghost predicate AdvancedUpTo(tr: Trig, chains: seq<seq<Step>>, phases0: seq<seq<real>>, phases: seq<seq<real>>,
                               lines0: seq<seq<Sample>>, lines: seq<seq<Sample>>, inputs: seq<seq<Sample>>, count: nat,
                               useDevice: bool, n: nat)
    requires tr.turn > 0.0
  {
    && n <= |chains| == |phases0| == |phases| == |lines0| == |lines| == |inputs|
    && (forall j :: 0 <= j < n ==>
          |phases0[j]| == |chains[j]| && phases[j] == NextPhases(tr, chains[j], phases0[j], count) &&
          lines[j] == if useDevice then lines0[j] else HostLine(chains[j], lines0[j], inputs[j]))
    && forall j :: n <= j < |chains| ==> phases[j] == phases0[j] && lines[j] == lines0[j]
  }

  lemma Stopped(tr: Trig, chains: seq<seq<Step>>, phases0: seq<seq<real>>, phases: seq<seq<real>>, lines0: seq<seq<Sample>>,
                lines: seq<seq<Sample>>, inputs: seq<seq<Sample>>, count: nat, useDevice: bool, steps: seq<GpuStep>,
                meta: seq<nat>, staged: seq<Sample>, k: nat)
    requires tr.turn > 0.0 && TabledUpTo(tr, chains, phases0, phases, count, steps, meta, k) && |lines0| == |inputs| == |chains|
    requires if useDevice then lines == lines0 else StagedUpTo(staged, chains, lines0, lines, inputs, count, k)
    requires k <= |inputs| && (k < |inputs| ==> |inputs[k]| != count) && forall j :: 0 <= j < k ==> |inputs[j]| == count
    ensures FirstBad(inputs, count) == k
    ensures AdvancedUpTo(tr, chains, phases0, phases, lines0, lines, inputs, count, useDevice, FirstBad(inputs, count))
  {
    hide NextPhases, BuildTable, HostLine, HostStaged, Row, HasRow, ShapedChain;
  }

  /** What a refused serve leaves behind: nothing if it did not fit or a source could not be packed,
      and otherwise the edges ahead of the first bad input advanced. */
  ghost function Refused(tr: Trig, g: GpuNode, inputs: seq<seq<Sample>>, count: nat, capacity: nat): (g': GpuNode)
    requires tr.turn > 0.0 && g.Shaped() && |inputs| == |g.edges|
  {
    if count > capacity || (g.useDevice && !Packable(g.firstEdge, inputs, count)) then g
    else
      g.(edges := seq(|inputs|, k requires 0 <= k < |inputs| =>
        if k < FirstBad(inputs, count) then Halfway(tr, g.edges[k], g.useDevice, inputs[k], count) else g.edges[k]))
  }

  /** An edge staged and tabled, its kernels not run. */
  function Halfway(tr: Trig, e: GpuEdge, useDevice: bool, x: seq<Sample>, count: nat): GpuEdge
    requires tr.turn > 0.0 && e.Shaped()
  {
    e.(phases := NextPhases(tr, e.chain, e.phases, count), line := if useDevice then e.line else HostLine(e.chain, e.line, x))
  }

  lemma RefusedShown(tr: Trig, g: GpuNode, g': GpuNode, chains: seq<seq<Step>>, phases: seq<seq<real>>, lines: seq<seq<Sample>>,
                     inputs: seq<seq<Sample>>, count: nat, capacity: nat, phases0: seq<seq<real>>, lines0: seq<seq<Sample>>)
    requires tr.turn > 0.0 && g.Shaped() && |inputs| == |g.edges| == |g'.edges| == |phases0| == |lines0| && count <= capacity
    requires !g.useDevice || Packable(g.firstEdge, inputs, count)
    requires |chains| == |phases| == |lines| == |g.edges| && g' == g.(edges := g'.edges)
    requires forall k :: 0 <= k < |chains| ==>
               g.edges[k].chain == chains[k] && g.edges[k].phases == phases0[k] && g.edges[k].line == lines0[k]
    requires forall k :: 0 <= k < |chains| ==> g'.edges[k] == g.edges[k].(phases := phases[k], line := lines[k])
    requires AdvancedUpTo(tr, chains, phases0, phases, lines0, lines, inputs, count, g.useDevice, FirstBad(inputs, count))
    ensures g' == Refused(tr, g, inputs, count, capacity)
  {
    hide NextPhases, HostLine, Packable, Step.Shaped;
    forall k | 0 <= k < |inputs| ensures g'.edges[k] == Refused(tr, g, inputs, count, capacity).edges[k] {
    }
  }

  lemma TableOne(tr: Trig, chains: seq<seq<Step>>, phases0: seq<seq<real>>, phases: seq<seq<real>>, count: nat,
                 steps: seq<GpuStep>, meta: seq<nat>, k: nat)
    requires tr.turn > 0.0 && TabledUpTo(tr, chains, phases0, phases, count, steps, meta, k) && k < |chains|
    ensures TabledUpTo(tr, chains, phases0, phases[k := NextPhases(tr, chains[k], phases[k], count)], count,
                       steps + BuildTable(chains[k], phases[k]),
                       meta[k := |steps|][|chains| + k := |chains[k]|], k + 1)
  {
    var steps' := steps + BuildTable(chains[k], phases[k]);
    var meta' := meta[k := |steps|][|chains| + k := |chains[k]|];
    hide NextPhases;
    forall j | 0 <= j < k + 1
      ensures meta'[j] + meta'[|chains| + j] <= |steps'|
      ensures steps'[meta'[j]..meta'[j] + meta'[|chains| + j]] == BuildTable(chains[j], phases0[j])
    {
      if j < k {
        assert steps'[meta[j]..meta[j] + meta[|chains| + j]] == steps[meta[j]..meta[j] + meta[|chains| + j]];
      }
    }
  }

  /** The first `k` edges are staged and their rings rolled. */
  ghost predicate StagedUpTo(staged: seq<Sample>, chains: seq<seq<Step>>, lines0: seq<seq<Sample>>, lines: seq<seq<Sample>>,
                             inputs: seq<seq<Sample>>, count: nat, k: nat)
  {
    && |chains| == |lines0| == |lines| == |inputs| && k <= |chains|
    && (forall j :: 0 <= j < k ==>
          ShapedChain(chains[j]) && HasRow(|staged|, j, count) && Row(staged, j, count) == HostStaged(chains[j], lines0[j], inputs[j]))
    && (forall j :: 0 <= j < k ==> lines[j] == HostLine(chains[j], lines0[j], inputs[j]))
    && forall j :: k <= j < |lines| ==> lines[j] == lines0[j]
  }

  lemma StageOne(staged: seq<Sample>, staged': seq<Sample>, chains: seq<seq<Step>>, lines0: seq<seq<Sample>>,
                 lines: seq<seq<Sample>>, lines': seq<seq<Sample>>, inputs: seq<seq<Sample>>, count: nat, k: nat)
    requires StagedUpTo(staged, chains, lines0, lines, inputs, count, k) && k < |chains| && |staged'| == |staged|
    requires ShapedChain(chains[k]) && HasRow(|staged|, k, count)
    requires Row(staged', k, count) == HostStaged(chains[k], lines[k], inputs[k])
    requires forall j :: 0 <= j != k && HasRow(|staged|, j, count) ==> Row(staged', j, count) == Row(staged, j, count)
    requires |lines'| == |lines| && lines'[k] == HostLine(chains[k], lines[k], inputs[k])
    requires forall j :: 0 <= j < |lines| && j != k ==> lines'[j] == lines[j]
    ensures StagedUpTo(staged', chains, lines0, lines', inputs, count, k + 1)
  {
    hide HostStaged, HostLine, Row, HasRow, ShapedChain;
  }

  lemma TableRest(tr: Trig, chains: seq<seq<Step>>, phases0: seq<seq<real>>, phases: seq<seq<real>>, count: nat,
                  steps: seq<GpuStep>, rest: seq<GpuStep>, meta: seq<nat>, k: nat)
    requires tr.turn > 0.0 && TabledUpTo(tr, chains, phases0, phases, count, steps, meta, k)
    ensures TabledUpTo(tr, chains, phases0, phases, count, steps + rest, meta, k)
  {
    hide NextPhases, BuildTable;
    forall j | 0 <= j < k
      ensures (steps + rest)[meta[j]..meta[j] + meta[|chains| + j]] == steps[meta[j]..meta[j] + meta[|chains| + j]]
    {
    }
  }

  ghost predicate TablesOf(g: GpuNode, tables: seq<seq<GpuStep>>)
    requires g.Shaped()
  {
    |tables| == |g.edges| &&
    forall k :: 0 <= k < |tables| ==> tables[k] == BuildTable(g.edges[k].chain, g.edges[k].phases)
  }

  lemma {:induction false} TableSumIsFused(tr: Trig, g: GpuNode, inputs: seq<seq<Sample>>, count: nat,
                                           tables: seq<seq<GpuStep>>, idx: nat, k: nat)
    requires g.Shaped() && Fitting(g, inputs, count) && TablesOf(g, tables) && idx < count && k <= |inputs|
    ensures TableSum(tr, FusedRows(g, inputs, count), tables, idx, k) == FusedSum(tr, g, inputs, count, idx, k)
  {
    hide EdgeStaged, BuildTable, ApplySteps, Add;
    if k > 0 {
      TableSumIsFused(tr, g, inputs, count, tables, idx, k - 1);
    }
  }

  predicate SameLength(inputs: seq<seq<Sample>>, count: nat) {
    forall k :: 0 <= k < |inputs| ==> |inputs[k]| == count
  }

  /** The reply and the next state are the fused form's. */
  ghost predicate Serves(tr: Trig, g: GpuNode, g': GpuNode, inputs: seq<seq<Sample>>, output: seq<Sample>) {
    && tr.turn > 0.0 && g.Shaped() && Fitting(g, inputs, |output|)
    && output == FusedOut(tr, g, inputs, |output|) && g' == FusedNext(tr, g, inputs, |output|)
  }

  lemma ServesShown(tr: Trig, g: GpuNode, g': GpuNode, inputs: seq<seq<Sample>>, output: seq<Sample>)
    requires tr.turn > 0.0 && g.Shaped() && Fitting(g, inputs, |output|)
    requires output == FusedOut(tr, g, inputs, |output|) && g' == FusedNext(tr, g, inputs, |output|)
    ensures Serves(tr, g, g', inputs, output)
  {
  }

  lemma FitsSame(g: GpuNode, inputs: seq<seq<Sample>>, count: nat)
    requires |inputs| == |g.edges|
    ensures SameLength(inputs, count) <==> forall k :: 0 <= k < |inputs| ==> |inputs[k]| == count
    ensures SameLength(inputs, count) <==> Fitting(g, inputs, count)
  {
  }

  lemma SamePacks(g: GpuNode, inputs: seq<seq<Sample>>, count: nat)
    requires g.Shaped() && |inputs| == |g.edges| && SameLength(inputs, count)
    ensures Packable(g.firstEdge, inputs, count)
  {
  }

  lemma UnpackedShown(tr: Trig, g: GpuNode, inputs: seq<seq<Sample>>, count: nat, capacity: nat)
    requires tr.turn > 0.0 && g.Shaped() && |inputs| == |g.edges| && g.useDevice && !Packable(g.firstEdge, inputs, count)
    ensures Refused(tr, g, inputs, count, capacity) == g
  {
  }

  lemma PackedShown(g: GpuNode, inputs: seq<seq<Sample>>, count: nat, devs: seq<DevLink>, source: seq<Sample>)
    requires g.Shaped() && g.useDevice && Fitting(g, inputs, count) && |devs| == |g.edges|
    requires forall k :: 0 <= k < |devs| ==> devs[k] == g.edges[k].dev
    requires forall n :: 0 <= n < |g.firstEdge| ==>
               HasRow(|source|, n, count) && Row(source, n, count) == inputs[g.firstEdge[n]]
    ensures ReadsPacked(g, inputs, count, devs, source)
  {
    hide Row, HasRow;
  }

  lemma TabledShown(tr: Trig, g: GpuNode, chains: seq<seq<Step>>, phases0: seq<seq<real>>, phases: seq<seq<real>>, count: nat,
                    steps: seq<GpuStep>, meta: seq<nat>)
      returns (tables: seq<seq<GpuStep>>)
    requires tr.turn > 0.0 && g.Shaped() && |g.edges| == |chains|
    requires |phases0| == |chains| && forall k :: 0 <= k < |chains| ==> g.edges[k].chain == chains[k] && g.edges[k].phases == phases0[k]
    requires TabledUpTo(tr, chains, phases0, phases, count, steps, meta, |chains|)
    ensures TablesOf(g, tables) && Flattened(steps, meta, tables)
    ensures forall k :: 0 <= k < |chains| ==> phases[k] == NextPhases(tr, chains[k], g.edges[k].phases, count)
  {
    tables := seq(|chains|, k requires 0 <= k < |chains| => BuildTable(chains[k], g.edges[k].phases));
    hide NextPhases, BuildTable;
  }

  lemma StagedShown(g: GpuNode, chains: seq<seq<Step>>, inputs: seq<seq<Sample>>, count: nat, staged: seq<Sample>,
                    lines0: seq<seq<Sample>>, lines: seq<seq<Sample>>)
    requires g.Shaped() && !g.useDevice && Fitting(g, inputs, count)
    requires StagedUpTo(staged, chains, lines0, lines, inputs, count, |inputs|)
    requires forall k :: 0 <= k < |inputs| ==> g.edges[k].chain == chains[k] && g.edges[k].line == lines0[k]
    ensures HoldsRows(staged, FusedRows(g, inputs, count), count)
    ensures forall k :: 0 <= k < |inputs| ==> lines[k] == HostLine(chains[k], lines0[k], inputs[k])
  {
  }

  lemma HostNext(tr: Trig, g: GpuNode, inputs: seq<seq<Sample>>, count: nat, g': GpuNode)
    requires tr.turn > 0.0 && g.Shaped() && !g.useDevice && Fitting(g, inputs, count)
    requires |g'.edges| == |g.edges| && g' == g.(edges := g'.edges, rxPhases := NextPhases(tr, g.rx, g.rxPhases, count))
    requires forall k :: 0 <= k < |inputs| ==>
               g'.edges[k] == g.edges[k].(phases := NextPhases(tr, g.edges[k].chain, g.edges[k].phases, count),
                                          line := HostLine(g.edges[k].chain, g.edges[k].line, inputs[k]))
    ensures g' == FusedNext(tr, g, inputs, count)
  {
  }

  lemma DeviceNext(tr: Trig, g: GpuNode, inputs: seq<seq<Sample>>, count: nat, g': GpuNode)
    requires tr.turn > 0.0 && g.Shaped() && g.useDevice && Fitting(g, inputs, count)
    requires |g'.edges| == |g.edges| && g' == g.(edges := g'.edges, rxPhases := NextPhases(tr, g.rx, g.rxPhases, count))
    requires forall k :: 0 <= k < |inputs| ==>
               g'.edges[k] == g.edges[k].(phases := NextPhases(tr, g.edges[k].chain, g.edges[k].phases, count),
                                          dev := NextDevs(g, inputs)[k])
    ensures g' == FusedNext(tr, g, inputs, count)
  {
  }

  lemma LivesResolve(ph: Physics, rate: nat, configs: seq<seq<ModelStep>>, lives: seq<Mutable>, receiver: seq<ModelStep>)
    requires |lives| == |configs| && forall k :: 0 <= k < |lives| ==> lives[k] == YamlParams(configs[k])
    ensures BareChain(ph, rate, receiver) == ResolveAll(ph, rate, receiver, Untouched(DEFAULTS))
    ensures |LinkChains(ph, rate, configs)| == |configs|
    ensures forall k :: 0 <= k < |configs| ==>
              LinkChains(ph, rate, configs)[k] == ResolveAll(ph, rate, configs[k], Untouched(lives[k]))
  {
  }

  lemma PreparedHere(ph: Physics, rate: nat, configs: seq<seq<ModelStep>>, receiver: seq<ModelStep>)
    ensures CudaPrepared(ph, rate, configs, receiver) == FreshNodeOf(LinkChains(ph, rate, configs), BareChain(ph, rate, receiver))
  {
  }

  lemma ShapedOnPrepare(ph: Physics, rate: nat, configs: seq<seq<ModelStep>>, receiver: seq<ModelStep>)
    requires ph.Valid() && SaneChain(receiver) && forall k :: 0 <= k < |configs| ==> SaneChain(configs[k])
    ensures ShapedChain(BareChain(ph, rate, receiver))
    ensures forall k :: 0 <= k < |configs| ==> ShapedChain(LinkChains(ph, rate, configs)[k])
    ensures CudaPrepared(ph, rate, configs, receiver).Shaped() && ph.tr.turn > 0.0
    ensures |LinkChains(ph, rate, configs)| == |configs| && |BareChain(ph, rate, receiver)| == |receiver|
  {
    hide ShapedChain, SaneChain, LinkChain, BareChain;
    FreshResolvedShaped(ph, rate, receiver);
    forall k | 0 <= k < |configs| ensures ShapedChain(LinkChain(ph, rate, configs[k])) {
      FreshResolvedShaped(ph, rate, configs[k]);
    }
  }

  lemma PreparedShown(chains: seq<seq<Step>>, rx: seq<Step>, src: seq<nat>, firstEdge: seq<nat>, g: GpuNode)
    requires ShapedChain(rx) && |src| == |chains| == |g.edges| && forall k :: 0 <= k < |chains| ==> ShapedChain(chains[k])
    requires forall k :: 0 <= k < |chains| ==> g.edges[k] == PreparedEdge(FreshOf(chains[k]), src[k])
    requires g.firstEdge == firstEdge && g.rx == rx && g.rxPhases == AtRest(|rx|)
    requires g.useDevice <==> chains != [] && forall k :: 0 <= k < |chains| ==> LeadsWithTaps(chains[k])
    ensures g == Prepared(FreshNodeOf(chains, rx), src, firstEdge)
  {
    hide PreparedEdge;
  }

  lemma LinksShown<Id>(chains: seq<seq<Step>>, from: seq<Id>, src: seq<nat>, firstEdge: seq<nat>, devs: seq<DevLink>,
                       phases: seq<seq<real>>)
    requires |from| == |chains| == |devs| == |phases| && FirstOccurrences(from, src, firstEdge)
    requires forall k :: 0 <= k < |chains| ==> ShapedChain(chains[k])
    requires forall k :: 0 <= k < |chains| ==>
               devs[k] == PreparedEdge(FreshOf(chains[k]), src[k]).dev && phases[k] == PreparedEdge(FreshOf(chains[k]), src[k]).phases
    ensures |src| == |chains| && forall n :: 0 <= n < |firstEdge| ==> firstEdge[n] < |chains|
    ensures forall k :: 0 <= k < |chains| ==>
              |phases[k]| == |chains[k]| && devs[k].Shaped() && devs[k].src < |firstEdge| &&
              GpuEdge(chains[k], phases[k], devs[k], LeadLine(chains[k])) == PreparedEdge(FreshOf(chains[k]), src[k])
  {
  }
}

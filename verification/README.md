# A model of the ocudu GPU channel

The emulator relays complex samples between radios.  Each device has a puller thread that
fills a bounded ring and a server thread that answers the radio with the sum of its incoming
links, every link shaped by a channel chain.  A CPU backend runs the chains plainly, a CUDA
backend runs a fused form, and a control server retunes links while samples flow.  This project
models those parts in Dafny and proves properties that span them.

## How it is laid out

**Samples and rings.** `Iq`, `Ring`, `Wrappers`.

**The relay.** `Relay` is a transition system over any directed graph of devices: one step is one
mutex section or one atomic access, except that a puller's cursor scan is one step per link, because
servers advance their cursors outside the ring's mutex.  Ghost state keeps everything pushed
and every window served.  `RelaySafety` proves the invariant and its consequences,
`RelayProgress` that the relay can always be carried on, with the lock-step radio of
`tests/test_broker.cpp` as the environment, and `RelayFairness` that every fair schedule does.
`RelayServes` says how much a node is served, `RelayPuller` what a puller releases, asks for and lands.

**The channel.** `Tdl` is the tapped delay line as loops over arrays; `TdlStream`, `TdlResponse`
and `TdlRing` relate it to one convolution over the whole stream, with exact conditions for
cutting the stream, for doing nothing and for the depth of the ring.  `Phase` treats oscillator
phase up to whole turns.  `Chain` composes steps, links and nodes, and `EndToEnd` puts a node
behind the relay.  `ChannelFormula` writes the channel out in numbers, with none of the model's own steps
or states, and proves it of both backends' nodes; `RunFormula` does so under control writes.

**The CPU backend.** `CpuLinks` says what a configured chain means at a slot, `FreshParams` which of its
numbers a fresh link runs with, `CpuBackend` and `CpuNodes` hold the objects that run it in place,
`CpuPrepare` sets them up by key, `CpuEndToEnd` ties them to the relay.  `Keyed` and `SharedKeys` treat links
that share a key; `LeadChains` and `Forgetful` hold what they need of chains with a tdl at most in front.

**The CUDA backend.** `Fused` defines the fused form, `FusedProof` relates it to the plain loop,
`FusedRun` and `CudaBackend` hold the loops over flat buffers, `FusedEndToEnd` and `BackendsAgree`
put both behind the relay.  `Receiver` compares a receiver chain on the two backends, `Configured` the nodes
they prepare from one configuration and `NodesAgree` one such node on both.  `DeviceSwap` follows run-time
changes into the device struct, `DeviceLimits` says what it holds, `ControlledRun` and `ControlledNode` through whole runs, `DeviceKeys` treats
links that share a key on the device, `FadingGrid` compares the two interpolation grids.

**Folding delays.** `Fold`, `FoldMeaning`, `FoldSignal`, and `FoldFields` in the configuration's own fields.

**The control plane.** `RuntimeControl` holds a link's control block, `Snap` and `Seqlock` its two
lock-free protocols one field access at a time (`SnapRefines` ties the first to the slot level,
`GateQueue` treats updates queued behind a gate, `SnapWhole` a profile half written), `SlotStart` what a slot starts from, `ProfileSwap` what a
swapped profile sounds like, `Json`, `JsonDocs`, `JsonNumbers` and `JsonReplies` the reader, its printer and the
replies, `Control`, `ControlServers`, `ControlLaws`, `ControlWrites` and `ControlBatch` the message handler, and
`ControlExact` which messages it accepts, field by field.  `Throttle` is the
server's pacing arithmetic.

Samples, gains and phases are reals.  The rotation by an angle is any function periodic in a full
turn; where rotations must compose, `Receiver.Circular` asks it, and where they must keep lengths, `Forgetful.OnCircle`.  10^(x/20) and the eight filter
coefficients of a fractional delay are given functions, and converting a number token is a given
partial function.  A read-only span is a sequence, a buffer that is written an array, a struct copied
to the device a value.

## What the proofs turned up

- The device struct holds 32 taps and a ring of 128, which is 120 samples of delay (`DeviceLimits.HeldExactly`).  When a link needs more, its builder reports
  failure, the caller ignores the report (`src/cuda_backend.cu:557`), and the link becomes a
  plain wire: `FusedProof.DeviceExactly`, `FusedProof.TooFarForDevice`, and for whole nodes `NodesAgree.DeviceTells`,
  `NodesAgree.FarLinkDiffers`.  No later write brings it back: `DeviceSwap.WireStaysWire`, `ControlledNode.ControlledExactly`.
- On a node with an edge that does not lead with a tdl, staging happens on the host with the
  configured taps, so run-time tap changes are not heard there: `DeviceSwap.HostStagedExactly`.
- `include/ocudu_gpu_channel/runtime_control.h:79-82` says a snap clears the pending mark.  The code never does, so each
  later write zeroes the ring again: `ProfileSwap.EveryLaterWriteClears`.
- A run-time delay beyond the prepared ring is cut off: `TdlRing.RingExactly`, `ProfileSwap.SwapExactly`.
- One gate serves all writes of a link, so an update stays hidden exactly as long as no update queued behind it is gated
  earlier: `GateQueue.GateProtectsExactly`; `Snap.LaterWriteOpensGate` is a pair that shows early.
- Clone names print rounded delays and the first entry wins: `FoldMeaning.RoundedNamesCollide`.
- `include/ocudu_gpu_channel/mutable_params.h:53-56` promises the first path loss and offset of a chain; the code takes the
  last of each, for all steps of the chain: `FreshParams.KeepsNumbersExactly`, `FreshParams.SecondPathLossWins`.  A plain
  phase step counts as an offset of 0: `FreshParams.PhaseStepErasesOffset`.
- On the CPU backend the live first tap replaces the first tap of every tdl step, leading or not:
  `FreshParams.KeepsTapsExactly`, `FreshParams.LateTdlLosesItsDelay`.
- The CUDA backend never scans a receiver's parameters (`src/cuda_backend.cu:477-479`), so path losses and offsets of a
  receiver model, which the validator accepts, do nothing there: `Receiver.ReceiversAgreeExactly`,
  `BackendsAgree.LossyRepliesDiffer`; for links the device runs nothing else tells the backends apart:
  `BackendsAgree.PreparedAlikeExactly`, `NodesAgree.ReceiverTells`.
- The validator accepts two links with one `from>to:model` key, and the CPU backend then runs both on one state,
  the CUDA device on one set of oscillators: `SharedKeys.SharedExactly`, `SharedKeys.TwinsDrift`, `DeviceKeys.DeviceSharedExactly`.
  Names that hold the separators can give different links one key too: `CpuPrepare.KeysCollideExactly`, `CpuPrepare.KeysCollide`.
- A telemetry read that runs out of attempts hands back its last copy unchecked: `Seqlock.FallbackExactly`,
  `Seqlock.FallbackMayBeTorn`.
- A batch's name goes into the begin reply unescaped: `JsonReplies.BeginReplyExactly`.
- The device cuts the fading grid at 32 points: `FadingGrid.GridsAgreeExactly`.

## Model

| member | source | states |
|---|---|---|
| Ring.IqRing.constructor | src/ring.cpp:5-16 | an empty ring of the given capacity with nothing in its history |
| Ring.IqRing.Reset | src/ring.cpp:10-16 | forgets the history and restarts at sequence 0 |
| Ring.IqRing.Push | src/ring.cpp:18-34 | all or nothing: appends the samples to the history exactly when they fit, through any wrap-around |
| Ring.IqRing.Read | src/ring.cpp:36-50 | a non-empty read succeeds exactly when its range lies in the held window, and returns that slice of the history |
| Ring.IqRing.DiscardBefore | src/ring.cpp:52-68 | moves the window up to the asked sequence, clamped to what is held; the history stays |
| RelaySafety.StepKeepsInv | src/broker.cpp:335-613 | every atomic step of any puller, server or radio keeps the relay invariant, with cursors moving while a puller scans |
| RelaySafety.DiscardKeepsNeeded | src/broker.cpp:341-360 | a discard decided on stale cursors never drops a sample that some link still needs |
| RelaySafety.NeverBehind | src/broker.cpp:519-523 | a size scan never finds a cursor behind its ring |
| RelaySafety.NeverVanishes | src/broker.cpp:545-560 | a window sized by the scan can still be read after any steps of the pullers |
| RelaySafety.CursorPosition | src/broker.cpp:483-560 | between serves a cursor equals its node's served count and lies within its ring |
| RelaySafety.AlignedAndLossless | src/broker.cpp:483-560 | in every reachable state no sequence gap was counted, no window vanished, every cursor is held by its ring, and idle nodes' cursors agree |
| RelaySafety.CoInitAtZero | src/broker.cpp:475-492 | the first serve always initialises a cursor to sequence 0 |
| RelaySafety.WindowsAreThePrefix | src/broker.cpp:545-560 | the windows handed to an edge, end to end, are the first samples its source transmitted |
| RelaySafety.SharedSourceSharedWindow | src/cuda_backend.cu:636-641 | edges of a node with one source are handed identical windows in every serve |
| RelaySafety.NothingDropped | src/broker.cpp:363-388 | every sample a radio sent is in its history, held as pending, or in flight, in order |
| RelaySafety.BoundedSkew | tests/test_broker.cpp:181-218 | a destination is never served more than its source's radio consumed plus its head start |
| RelaySafety.NeverOverflows | src/broker.cpp:378-384 | payloads of at most a batch always fit when they land, so the overflow counter stays 0 |
| RelayServes.ServeSize | src/broker.cpp:499-540 | every serve of every run is at least one sample and at most a batch, held by every ring; a whole batch on a node without edges; and less than a batch only if some edge's ring held exactly that much past the cursor when it was sized for this serve |
| RelayServes.LargestCommonWindow | src/broker.cpp:499-540 | when nothing is pushed meanwhile, a serve is the smallest of a batch and what each of its rings held past the cursor when the request was accepted |
| RelayPuller.RoundReleases | src/broker.cpp:341-361 | whatever other threads do meanwhile, one round releases everything if no link reads the ring, nothing while one of them is not ready, and otherwise at least what all had consumed when it began and nothing that one still needs when it ends; the room it notes is the room it leaves |
| RelayPuller.AsksExactly | src/broker.cpp:390-409 | with nothing to land a puller asks for more exactly when the ring can take a batch |
| RelayPuller.PayloadLands | src/broker.cpp:362-388 | a payload is pushed whole exactly when it fits and kept otherwise; its first refusal is counted and no later one is |
| RelayPuller.StopsExactly | src/broker.cpp:327-331 | a reply longer than the ring stops its puller for good, any other is held to be landed |
| RelayProgress.EveryNodeFed | src/broker.cpp:497-540 | from every reachable state, on every graph, some continuation of the relay serves each node any number of samples asked for |
| RelayFairness.EveryFairRunFeeds | src/broker.cpp:335-613 | in every infinite run in which each kind of step that is possible again and again is taken again and again - pull time-outs excepted, which may happen or not - every node is in the end served as much as one likes |
| RelayFairness.FairRunExists | src/broker.cpp:335-613 | taking the kind of step that has waited longest is such a run, on every such graph |
| RelayFairness.Served | src/broker.cpp:512-613 | in a fair run a node whose edges all hold a sample is served, whatever the other threads do meanwhile |
| RelayFairness.NeverStuck | src/broker.cpp:335-430 | in a fair run a drained ring behind the hungriest node does not stay empty, time-outs or not |
| RelayFairness.Unlocks | src/broker.cpp:341-360 | in a fair run every scan releases its ring |
| RelayProgress.DriveServer | src/broker.cpp:512-540 | a node whose edges all hold a sample can be driven to its next serve |
| RelayProgress.DrivePuller | src/broker.cpp:335-412 | a drained ring behind the hungriest node can be refilled |
| RelayProgress.FixedBatchStarves | src/broker.cpp:499-505 | the fixed-batch variant fed by radios with a head start below a batch serves nothing in any run |
| RelayProgress.RelayTestOutcome | tests/test_broker.cpp:262-345 | both outcomes on the three-device lock-step topology |
| Tdl.PrepareTdlState | include/ocudu_gpu_channel/delay.h:78-96 | filters per tap, and a ring that reaches every sample a tap asks for; a long enough ring is kept |
| Tdl.ApplyTdlStep | include/ocudu_gpu_channel/delay.h:109-175 | the nested loops write the slot's convolution outputs and roll the ring in place |
| Tdl.RollLine | include/ocudu_gpu_channel/delay.h:162-174 | the ring keeps the last samples of history plus slot, shorter slots included |
| TdlStream.RingHoldsTail | include/ocudu_gpu_channel/delay.h:162-174 | after any slots the ring is the tail of the stream with silence before it |
| TdlStream.SlotIsConvolution | include/ocudu_gpu_channel/delay.h:116-161 | a slot computes the whole-stream convolution of everything up to its end |
| TdlStream.EverySlotIsConvolution | include/ocudu_gpu_channel/delay.h:116-174 | ... for every slot of every cut, looking ahead or not |
| TdlResponse.ConvIsResponse | include/ocudu_gpu_channel/delay.h:98-101 | the step is the convolution with its impulse response |
| TdlResponse.CausalLooksNowhere | include/ocudu_gpu_channel/delay.h:118-127 | zero coefficients ahead of each tap silence the look-ahead |
| TdlResponse.CutIndependence | include/ocudu_gpu_channel/delay.h:109-175 | every cut of a stream gives one whole-stream convolution |
| TdlResponse.CutFreeExactly | include/ocudu_gpu_channel/delay.h:118-127 | slot-by-slot equals whole-stream for every cut if and only if the response is silent at the three positions ahead |
| TdlResponse.TransparentSlot | src/device_channel.cu:66-74 | a channel whose response is the unit impulse passes a slot unchanged whatever its ring holds |
| TdlResponse.OpaqueChanges | src/device_channel.cu:66-74 | any other channel changes some stream in its first slot |
| TdlRing.DeepRingsAgree | include/ocudu_gpu_channel/delay.h:90-95 | rings deep enough for the response serve every cut alike, whatever their size |
| TdlRing.RingExactly | include/ocudu_gpu_channel/delay.h:131-134 | a ring serves like one sized for the taps if and only if the response has died out within it |
| Phase.AccumulatedIsClosedForm | src/cpu_backend.cpp:296-302 | the phase accumulated and reduced sample by sample is start plus n increments up to whole turns |
| Phase.AccumulatorStays | src/cpu_backend.cpp:296-302 | turning forward the accumulator stays between zero and a full turn; turning backward it is never reduced |
| Chain.StepContinues | src/cpu_backend.cpp:249-369 | one step on one slot continues the step on the whole stream |
| Chain.ChainContinues | src/cpu_backend.cpp:249-371 | a chain on one slot continues the chain on the whole stream |
| Chain.MixConcat | src/cpu_backend.cpp:383-399 | summing slot by slot is summing the streams |
| Chain.NodeContinues | src/cpu_backend.cpp:374-405 | a serve continues the node's whole-stream computation whatever the window sizes |
| EndToEnd.RepliesAreWhole | src/cpu_backend.cpp:374-405 | a node's replies over any log of serves are its whole-stream response |
| EndToEnd.RelayedSignal | src/broker.cpp:483-571 | over every interleaving the replies to a node are the prefix of the sum of its edges' channels on whole streams |
| ChannelFormula.SlotEchoes | include/ocudu_gpu_channel/delay.h:109-161 | in numbers: a slot over the ring of everything heard before is, per tap, the stream a whole number of samples earlier, filtered by eight coefficients for the rest of the delay, turned and weighed |
| ChannelFormula.CpuReply | src/cpu_backend.cpp:249-405 | in numbers: every sample a freshly prepared CPU node replies, over every log, is the sum of its links' configured channels on all they have heard by the end of the serve, through the receiver's own |
| ChannelFormula.CudaReply | src/cuda_backend.cu:636-1033 | the same of the CUDA node, whose receiver runs without loss and offset |
| ChannelFormula.OneOscillator | src/cpu_backend.cpp:288-303 | on both backends sample n of a link that is one oscillator is turned forward by its phase and n times a turn times the offset over the rate, however the stream is cut |
| FusedRun.BuildSourceMap | src/cuda_backend.cu:494-515 | each edge maps to the first edge with its source, each source has one slot |
| FusedRun.PackSources | src/cuda_backend.cu:642-655 | each unique source's window packed once; fails exactly on a missing or wrongly sized one |
| FusedRun.ChannelSample | src/device_channel.cu:168-259 | one thread computes one sample of the edge's convolution from the packed source and the ring |
| FusedRun.ChannelKernel | src/device_channel.cu:60-260 | every row of the staged buffer becomes its edge's channel output |
| FusedRun.UpdateDelayLine | src/device_channel.cu:262-305 | the struct's ring rolls over the shared source row |
| FusedRun.BuildSteps | src/cuda_backend.cu:958-1033 | the device steps of a configured chain under given live parameters, and its oscillators after the slot |
| FusedRun.ApplyChain | src/cuda_backend.cu:122-151 | a table's steps on one sample in order |
| FusedRun.SuperposeKernel | src/cuda_backend.cu:171-201 | every output sample is the sum over edges through their flattened tables |
| FusedRun.ApplyStepsKernel | src/cuda_backend.cu:153-169 | the receiver's table in place on the sum |
| CudaBackend.CudaNode.constructor | src/cuda_backend.cu:386-577 | from configured chains: each link under the parameters scanned from its own chain, the receiver under default ones, with the source map of the edges |
| CudaBackend.CudaNode.StageLink | src/cuda_backend.cu:245-268 | host staging of one edge into its row, ring rolled, other rows untouched |
| CudaBackend.CudaNode.TableEdge | src/cuda_backend.cu:805-810 | one edge's steps appended to the flattened table with offset and count |
| CudaBackend.CudaNode.Assemble | src/cuda_backend.cu:656-811 | all edges staged and tabled; stops exactly at the first wrongly sized input, with exactly the edges before it advanced |
| CudaBackend.CudaNode.RunChannels | src/cuda_backend.cu:857-878 | channel kernels on packed sources, then all rings |
| CudaBackend.CudaNode.Superpose | src/cuda_backend.cu:880-902 | summing and receiver kernels give the fused reply |
| CudaBackend.CudaNode.ProcessSuperposition | src/cuda_backend.cu:589-902 | one serve through the flat buffers is the fused form's reply and next state; refused exactly when too long or malformed, and then what it leaves behind |
| FusedProof.TurnAgrees | src/cuda_backend.cu:990-1001 | closed-form and accumulated angles rotate alike |
| FusedProof.PhaseStays | src/cuda_backend.cu:1000-1000 | one reduction per slot and one per sample stay congruent |
| FusedProof.EdgeOutAgrees | src/cuda_backend.cu:122-151 | a chain run sample by sample from the table equals the chain run step by step |
| FusedProof.FusedIsPlain | src/cpu_backend.cpp:383-404 | one serve of the fused form equals the plain loop's reply, the loop running the receiver steps the fused form was given |
| FusedProof.MatchStays | src/cuda_backend.cu:589-902 | ... and leaves the two in matching states |
| FusedProof.PreparedMatches | src/cuda_backend.cu:386-577 | a freshly prepared fused form matches the plain node of the same steps when every edge fits on the device or does nothing |
| FusedProof.DeviceExactly | src/device_channel.cu:309-394 | the device runs a tdl right for every stream if and only if its struct is large enough or the tdl does nothing |
| FusedProof.TooFarForDevice | src/cuda_backend.cu:557-562 | a unit tap 121 samples late needs a ring of 129 and is passed through undelayed |
| DeviceLimits.RingReach | include/ocudu_gpu_channel/delay.h:78-96 | a prepared ring is eight samples more than the largest delay rounded up |
| DeviceLimits.HeldExactly | src/device_channel.cu:327-336 | a prepared edge's struct holds its tdl if and only if it has 1 to 32 taps, none more than 120 samples late |
| DeviceLimits.LateTells | src/device_channel.cu:327-336 | for a single link with a unit tap d samples late the two backends' nodes send the same over every log if and only if d is at most 120 |
| DeviceLimits.LateReplies | src/device_channel.cu:168-259 | what the CUDA node then replies is the stream d samples late, however it was cut |
| DeviceLimits.LateAnswers | src/cuda_backend.cu:636-811 | and it answers every such log |
| FusedEndToEnd.PackingIsSound | src/cuda_backend.cu:636-641 | in every reachable state, edges sharing a packed source were handed the same windows |
| FusedEndToEnd.FusedRepliesAreReplies | src/cuda_backend.cu:589-902 | over any log the fused form and the plain loop send the same |
| FusedEndToEnd.FusedRelayedSignal | src/cuda_backend.cu:589-902 | the fused form behind the relay sends the prefix of the whole-stream signal |
| BackendsAgree.CudaRunIsFused | src/cuda_backend.cu:589-902 | any run of serves by the node object is the fused form's log |
| BackendsAgree.CudaRelayedSignal | src/cuda_backend.cu:386-577 | what a radio receives from a freshly prepared CUDA node over every interleaving: the configured links' channels through the receiver under default parameters |
| BackendsAgree.CudaRelaysConfigured | src/cuda_backend.cu:477-483 | ... which is the configured channel, receiver and all, when the receiver asks for no loss and its offsets add up to a multiple of the sample rate |
| BackendsAgree.CudaRelayedRunExists | src/broker.cpp:545-576 | the CUDA node accepts every serve of every reachable state of the relay |
| BackendsAgree.RepliesSideBySide | src/cpu_backend.cpp:374-405 | fed the same log, the nodes the two backends prepare from one configuration send one stream of sums through either receiver, causal taps or not |
| BackendsAgree.SameReplies | src/cpu_backend.cpp:400-404 | ... and so the same samples under that condition on the receiver |
| BackendsAgree.LossyRepliesDiffer | src/cuda_backend.cu:477-483 | with a receiver path loss of 20 dB their replies differ whenever the CUDA node sends anything but silence |
| Receiver.PerSampleIs | src/cuda_backend.cu:122-151 | a chain of path losses and oscillators is one complex factor per sample of the stream |
| Receiver.ReceiversAgreeExactly | src/cuda_backend.cu:108-120 | the CUDA receiver does what the CPU receiver does on every stream if and only if the last path loss is 0 dB and the oscillators times the last offset is a multiple of the sample rate |
| Receiver.LossyReceiverDiffers | src/cuda_backend.cu:477-483 | a receiver path loss of 20 dB: the CUDA backend passes every stream on unchanged, the CPU backend none but silence |
| Configured.RepliesThroughReceiver | src/cpu_backend.cpp:400-404 | whatever its edges do, a node's replies are its receiver's chain on the whole stream of sums |
| BackendsAgree.PreparedAlikeExactly | src/cuda_backend.cu:477-483 | the fused node the CUDA backend prepares and the CPU node reply alike - for every set of links the device runs or the host stages, every source map and every log that hands edges of one packed source one window - if and only if the receiver meets that condition |
| NodesAgree.DistinctAreApart | src/cuda_backend.cu:494-515 | links from different devices each read the packed row of their own window |
| NodesAgree.DeviceTells | src/cuda_backend.cu:557-562 | one configured node, its links from different devices and its receiver asking nothing: the backends reply alike to every log if and only if the device runs every link, its tdl held by the struct or doing nothing |
| NodesAgree.ReceiverTells | src/cuda_backend.cu:477-483 | one such node whose links the device runs: alike to every log if and only if the receiver meets the condition or no link is ever heard |
| NodesAgree.FarLinkDiffers | src/device_channel.cu:309-394 | a single link with a unit tap 121 samples late makes the two nodes differ |
| Configured.FreshLinkIs | src/cpu_backend.cpp:62-104 | a freshly prepared link runs its chain with its own taps over empty rings of their size |
| RuntimeControl.LinkControl.constructor | include/ocudu_gpu_channel/runtime_control.h:238-247 | nothing pending, version 0, the shadow as configured |
| RuntimeControl.LinkControl.SnapMutableParams | include/ocudu_gpu_channel/runtime_control.h:150-172 | takes the shadow exactly when its version is new and its gate open |
| RuntimeControl.LinkControl.SnapProfileFromShadow | include/ocudu_gpu_channel/runtime_control.h:186-192 | copies a pending profile; the mark stays |
| CpuBackend.CpuLink.constructor | src/cpu_backend.cpp:47-104 | a fresh link: phases zero, rings empty, live parameters and shadow from the configuration |
| CpuBackend.CpuLink.PopulateParams | src/mutable_params.cpp:22-73 | the scan step by step: each path loss or offset met replaces the one before, then the leading tdl's first tap |
| CpuBackend.CpuLink.SnapLink | src/cpu_backend.cpp:147-186 | parameters and profile taken over at a slot, inert forced profiles counted |
| CpuBackend.CpuLink.ClearFirstRing | src/cpu_backend.cpp:194-207 | exactly the first tdl step's ring is zeroed |
| CpuBackend.CpuLink.BeginSlot | src/cpu_backend.cpp:147-229 | snap, ring clearing and warmup window together |
| CpuBackend.CpuLink.EffectiveTdl | src/cpu_backend.cpp:318-353 | the live profile's taps, or the configured ones with the first as the live scalars have it, and their filters |
| CpuBackend.CpuLink.RotateSlot | src/cpu_backend.cpp:289-303 | the oscillator loop equals the step's rotation and leaves the accumulated phase |
| CpuBackend.CpuLink.RunTdl | src/cpu_backend.cpp:305-366 | the tdl step in place, only its own ring changed |
| CpuBackend.CpuLink.RunChain | src/cpu_backend.cpp:245-371 | ping-pong over the scratch buffers is the chain on the slot |
| CpuBackend.CpuLink.ApplyChainToLink | src/cpu_backend.cpp:132-372 | one slot of a link: output, parameters and states; refused exactly on a size mismatch |
| CpuNodes.CpuNode.SumEdges | src/cpu_backend.cpp:383-399 | every edge through its own link, summed in order; stops exactly at the first wrongly sized input, with exactly the edges before it advanced |
| CpuNodes.CpuNode.ApplyReceiver | src/cpu_backend.cpp:400-404 | the receiver's chain in place, if there is one |
| CpuNodes.CpuNode.ProcessSuperposition | src/cpu_backend.cpp:374-405 | a reply is the node's superposition, every link moved on by its slot; a refused serve has moved on exactly the edges before the first bad input |
| CpuLinks.FreshUsesOwnTaps | src/cpu_backend.cpp:336-352 | overriding a fresh link's first tap from its own parameters changes nothing |
| FreshParams.LastPathLoss | src/mutable_params.cpp:31-37 | the path loss a fresh link runs with is the last one of its chain |
| ChannelFormula.FreshNumbers | src/mutable_params.cpp:22-73 | all the parameters a link starts with: its last loss and offset, the leading tdl's first tap, and the written-out defaults |
| FreshParams.LastOffset | src/mutable_params.cpp:38-41 | the offset a fresh link runs with is that of its last offset or phase step |
| FreshParams.KeepsNumbersExactly | src/mutable_params.cpp:31-58 | every path loss and oscillator keeps its configured number if and only if the chain's losses are all equal and its offsets are all equal |
| FreshParams.RunsOwnExactly | src/mutable_params.cpp:31-58 | the same of the factors and increments the link computes with |
| FreshParams.SinglesRunOwn | src/mutable_params.cpp:31-58 | a chain with at most one path loss and one oscillator always runs as configured |
| FreshParams.SecondPathLossWins | src/mutable_params.cpp:34-37 | two path losses of 20 and 3 dB: both steps run with 3 |
| FreshParams.PhaseStepErasesOffset | src/mutable_params.cpp:38-41 | an offset followed by a plain phase step does not turn at all |
| FreshParams.KeepsTapsExactly | src/cpu_backend.cpp:336-353 | every tdl keeps its taps if and only if the first tap of each has the leading tdl's numbers, or zeros where none leads |
| FreshParams.LateTdlLosesItsDelay | src/cpu_backend.cpp:336-353 | a tdl behind a path loss, one tap five samples late, runs undelayed |
| CpuLinks.QuietSlot | src/cpu_backend.cpp:147-158 | with no writes outstanding a slot only advances the states of an unchanging chain |
| SlotStart.StartsExactly | src/cpu_backend.cpp:147-215 | which parameters and profile a slot takes over and which one ring it clears, in terms of version, gate, pending mark and force flag |
| SlotStart.WindowOpens | src/cpu_backend.cpp:183-229 | the window a swap opens spans the ring of the chain's first tdl, or nothing; any other slot closes it once its end has come |
| SlotStart.WindowCloses | src/cpu_backend.cpp:205-229 | a profile taken over opens the warmup window for exactly the fewest slots that refill the ring |
| RunFormula.FrontNow | src/cpu_backend.cpp:305-369 | in numbers: a leading tdl runs the profile's taps once one is active, until then its own with the first one's delay, gain and phase as last written |
| RunFormula.CpuRunSample | src/cpu_backend.cpp:147-371 | in numbers, over every run with control writes: each sample is weighed by the losses in force and turned by the angle that the offsets in force so far have swept |
| RunFormula.CudaRunSample | src/cuda_backend.cu:656-1033 | the same of the CUDA backend's tables |
| RunFormula.OffsetRewritten | src/cuda_backend.cu:990-1004 | an oscillator whose offset is rewritten turns, on both backends, by the old offset up to the slot that takes the write over and by the new one from there, without a jump |
| RunFormula.PhasesReduced | src/cuda_backend.cu:1003 | between slots the CUDA backend keeps its oscillators within a turn |
| CpuEndToEnd.QuietServe | src/cpu_backend.cpp:374-405 | a quiet serve of the node object is one step of the plain model |
| CpuEndToEnd.QuietRun | src/cpu_backend.cpp:374-405 | a quiet run of serves replies the plain model's log |
| CpuPrepare.PrepareLinks | src/cpu_backend.cpp:47-104 | one state per key, made when the key is first met, each with storage of its own |
| CpuPrepare.PrepareNode | src/cpu_backend.cpp:107-130 | a destination whose links and receiver have keys of their own holds exactly its freshly prepared links |
| CpuPrepare.KeysTell | src/config.cpp:807-810 | where no source's name holds a > and no destination's a :, a key tells source, destination and model |
| CpuPrepare.KeysCollideExactly | src/config.cpp:807-810 | two links have one key if and only if they agree in all three parts or one's parts are the other's read with a later separator |
| CpuPrepare.ReceiverKeyApart | src/cpu_backend.cpp:119-128 | ... and is no receiver's key |
| CpuEndToEnd.FreshNodeRuns | src/cpu_backend.cpp:107-130 | a freshly prepared node runs exactly the configured chains, from rest |
| CpuEndToEnd.CpuRelayedSignal | src/broker.cpp:483-571 | what a radio receives from a freshly prepared CPU node over every interleaving: the configured channels on whole streams |
| CpuEndToEnd.RelayedRunExists | src/broker.cpp:545-576 | the CPU node accepts every serve of every reachable state of the relay |
| Keyed.DistinctKeysAreOwn | src/cpu_backend.cpp:47-60 | over any log, edges looked up by keys of their own send what edges with their own state send |
| SharedKeys.SharedExactly | src/config.cpp:507-527 | a node whose links share keys in any pattern sends what links with states of their own send, over every log, if and only if every chain whose key is repeated has a tdl that hears only the present and, unless it is silent, increments that add up to whole turns |
| SharedKeys.TwinsDrift | src/config.cpp:807-810 | two links with one key and an offset of a quarter of the sample rate do not |
| DeviceKeys.DeviceSharedExactly | src/cuda_backend.cu:656-811 | on the CUDA device, where only oscillators are shared by key, the same if and only if every shared chain that can be heard turns by whole turns per sample |
| ProfileSwap.SwapIsFreshLink | src/cpu_backend.cpp:166-219 | from the slot that takes a profile over, the link sends for all later inputs what a link newly prepared with it sends |
| ProfileSwap.SwapExactly | src/cpu_backend.cpp:321-335 | on a tdl-only link the swap is a fresh link if and only if the new response dies out within the old ring |
| ProfileSwap.EveryLaterWriteClears | include/ocudu_gpu_channel/runtime_control.h:182-185 | once a profile is pending, every later accepted write clears the ring again |
| ProfileSwap.WarmupSpan | src/cpu_backend.cpp:208-215 | the warmup window is the least whole number of slots that covers the ring |
| ProfileSwap.WarmupIsEnough | src/cpu_backend.cpp:188-219 | after the warmup window clearing the ring has left no trace |
| DeviceSwap.RefreshAllTaps | src/device_channel.cu:433-483 | a struct that held any tdl holds the profile's, up to 32 taps, over the ring it had; a struct without one is untouched |
| DeviceSwap.RefreshTap0 | src/device_channel.cu:401-431 | a struct that held a link's taps under some live scalars holds them under the new ones; its ring, and a struct without a tdl, stay |
| DeviceSwap.RefreshStruct | src/cuda_backend.cu:713-770 | one slot's refresh: a struct that held what its CPU link runs holds what the link runs in this slot, and nothing changes when nothing was taken over |
| DeviceSwap.DeviceFollows | src/cuda_backend.cu:705-770 | through every control write the device struct holds what the CPU link runs |
| ControlledRun.SlotTwofold | src/cuda_backend.cu:705-811 | one slot of a link, whatever was written before it: the struct and the flattened table send the samples the CPU link sends, and stay side by side with it |
| ControlledRun.ControlledSums | src/cuda_backend.cu:656-811 | over every run of serves and control writes to any of its links, both backends hand a node's receiver the same sums |
| ControlledNode.TableIsRx | src/cuda_backend.cu:813-900 | the receiver's table, slot by slot, sends what its chain sends |
| ControlledNode.ControlledExactly | src/cuda_backend.cu:705-811 | freshly prepared nodes send the same over every run with control writes, receivers asking nothing, if and only if the struct has room for every link's tdl - one left out because it does nothing is missed once a profile is swapped in |
| DeviceSwap.SameStreamsExactly | include/ocudu_gpu_channel/delay.h:109-175 | two tap sets serve every cut of every stream alike if and only if their impulse responses agree |
| DeviceSwap.HostStagedExactly | src/cuda_backend.cu:249-268 | a host-staged link agrees with the CPU under changed parameters if and only if the change cannot be heard |
| FadingGrid.HostGains | include/ocudu_gpu_channel/delay.h:305-397 | the coarse grid covers the slot: every index is inside, every gain the interpolation |
| FadingGrid.GridsAgreeExactly | src/device_channel.cu:84-92 | the device's 32-point grid gives the host's gains for every process if and only if the slot ends by its last point |
| FadingGrid.StrideNearest | include/ocudu_gpu_channel/delay.h:301-306 | the stride is the spacing in samples rounded to the nearest, at least one |
| FadingGrid.PointsFewest | include/ocudu_gpu_channel/delay.h:307 | the grid has one point past the end of the slot and no more |
| FadingGrid.GainLine | include/ocudu_gpu_channel/delay.h:385-397 | between two grid points the gain is the straight line |
| Fold.TopologyConfig.FoldLinkLeadingDelays | src/config.cpp:664-732 | the in-place pass: models only grow, links change only the model they name |
| Fold.TopologyConfig.DelayChain | src/config.cpp:707-727 | all leading taps moved back, or a unit tap put in front |
| Fold.TopologyConfig.FindTxOffset | src/config.cpp:673-676 | the first device with the name, or 0 |
| FoldMeaning.FoldExactly | src/config.cpp:683-730 | every delayed link ends up with its own delayed chain if and only if the clones' names do not collide |
| FoldMeaning.FoldLeavesAlone | src/config.cpp:679-691 | configured models and undelayed links untouched, links alike share a clone |
| FoldMeaning.RoundedNamesCollide | src/config.cpp:696-728 | two delays that print alike: the second link gets the first one's delay |
| FoldSignal.MergedMeaning | src/config.cpp:709-716 | moving all taps back is running the chain on the delayed stream |
| FoldSignal.PrependedMeaning | src/config.cpp:717-727 | so is putting a unit tap in front |
| FoldSignal.FoldedSignal | src/config.cpp:664-732 | each folded link computes its base chain on the stream delayed by offset plus propagation |
| FoldFields.NamedExactly | src/config.cpp:664-700 | a link keeps its model if and only if the offset of the first device its source names, or zero, and its own propagation delay add up to zero; otherwise it is given the clone named after the first link with that sum and that model |
| FoldFields.FoldedChain | src/config.cpp:702-732 | whatever that sum is, the model the link ends with is its own that much later: each leading tap, or a unit tap in front |
| FoldFields.FoldedFields | src/config.cpp:664-732 | for a whole sum it computes the link's own model on the stream that many samples later |
| Snap.StepKeepsInv | include/ocudu_gpu_channel/runtime_control.h:150-192 | every field access of either thread keeps the invariant behind healing |
| Snap.TornCopiesHeal | include/ocudu_gpu_channel/runtime_control.h:150-192 | control idle, no snap in flight, versions equal: the link runs exactly the shadow, profile included |
| Snap.QuietSlotReaches | include/ocudu_gpu_channel/runtime_control.h:150-192 | after control goes quiet the first slot whose gate is open reaches the shadow |
| Snap.WritersAreGated | src/control_server.cpp:580-586 | all three ways of writing set one gate before they publish |
| Snap.GateIsExact | include/ocudu_gpu_channel/runtime_control.h:164-171 | an update is invisible until published and its slot has begun, and a slot starting then ends with it applied |
| Snap.SlotAlone | include/ocudu_gpu_channel/runtime_control.h:150-192 | a slot nobody interrupts takes parameters and profile over exactly when it should, from any state, and changes nothing else |
| SnapWhole.FirstProfileWhole | src/control_server.cpp:744-751 | over every interleaving of one profile's swaps, sent at once or batched, with any scalar updates, a link whose profile is active has all of it, even when a snap takes an earlier write over half-way through |
| SnapRefines.SlotIsSnapped | src/cpu_backend.cpp:147-171 | ... which is what the slot-level snap of the link objects computes |
| GateQueue.GateProtectsExactly | include/ocudu_gpu_channel/runtime_control.h:150-172 | an update gated at a coming slot, with any updates queued behind it: over every interleaving nothing shows before that slot if and only if no follower is gated earlier |
| GateQueue.EarlyGateShows | src/control_server.cpp:580-586 | for every follower gated earlier, an interleaving in which the link runs the whole queue so far before the first update's slot |
| Snap.LaterWriteOpensGate | src/control_server.cpp:580-586 | a concrete pair: gates 1000 and 0, both live at slot 0 |
| Seqlock.RunKeepsInv | include/ocudu_gpu_channel/runtime_control.h:198-228 | every word access of writer and reader keeps the lock's invariant |
| Seqlock.AcceptedIsPublished | include/ocudu_gpu_channel/runtime_control.h:216-226 | an accepted copy is one whole publication current at some moment of the read |
| Seqlock.AcceptedNeverGoesBack | include/ocudu_gpu_channel/runtime_control.h:216-226 | accepted reads never return to an older publication |
| Seqlock.FallbackExactly | include/ocudu_gpu_channel/runtime_control.h:216-228 | a read hands back an unchecked copy if and only if every attempt found a publication under way at its first load or saw one begin before its second; it has then used all attempts |
| Seqlock.QuietReadIsWhole | include/ocudu_gpu_channel/runtime_control.h:216-228 | a read with no publication under way at its start and none beginning before its end returns the last publication whole |
| Seqlock.FallbackMayBeTorn | include/ocudu_gpu_channel/runtime_control.h:211-228 | a two-word run with one attempt whose fallback copy mixes two publications |
| Json.JsonReader.SkipSpace | src/control_server.cpp:95-102 | the cursor moves past whitespace and no further |
| Json.JsonReader.TakeString | src/control_server.cpp:104-121 | reads a quoted string or fails as specified |
| Json.JsonReader.TakeNumber | src/control_server.cpp:159-175 | the longest run of number characters, converted |
| Json.JsonReader.TakeValue | src/control_server.cpp:123-176 | reads any value, terminating with its cursor in bounds on every input |
| Json.JsonReader.TakeItems | src/control_server.cpp:137-150 | reads array items to the closing bracket |
| Json.JsonReader.TakeObject | src/control_server.cpp:50-70 | reads an object, the first of equal keys winning |
| Json.JsonEscape | src/control_server.cpp:179-188 | the escaper, character by character |
| JsonDocs.CharsReadBack | src/control_server.cpp:104-121 | reading inverts escaping for every string |
| JsonDocs.QuotedReadsBack | src/control_server.cpp:104-121 | a quoted escaped string reads back to itself |
| JsonDocs.ReadsBack | src/control_server.cpp:123-176 | every nested document printed with any whitespace reads back to its meaning, the cursor right behind it |
| JsonDocs.ObjectReadsBack | src/control_server.cpp:50-70 | ... objects at top level included |
| JsonNumbers.SpaceExactly | src/control_server.cpp:95-102 | reading skips blanks, tabs, newlines and carriage returns and nothing else |
| JsonNumbers.DecimalReads | src/control_server.cpp:159-175 | every decimal - optional sign, digits, optional fraction, optional exponent - is read as one token up to whatever ends it |
| JsonNumbers.EscapesAre | src/control_server.cpp:104-122 | the three escapes, written and read |
| JsonNumbers.FirstWins | src/control_server.cpp:50-70 | of fields with one name the first is kept, and no name is made up |
| JsonReplies.ErrorReplyReadsBack | src/control_server.cpp:274-277 | every error reply reads back to exactly ok false and its message |
| JsonReplies.BeginReplyExactly | src/control_server.cpp:796-796 | a begin reply reads back to the batch's name if and only if the name has no quote and no backslash |
| ControlServers.ControlServer.FindParamSpec | src/control_server.cpp:222-228 | the first whitelist entry of that name |
| ControlServers.ControlServer.ApplyUpdate | src/control_server.cpp:246-262 | writes one field and bumps the version; never fails for a whitelisted name |
| ControlServers.ControlServer.Apply | src/control_server.cpp:745-751 | an operation written to its own link and no other |
| ControlServers.ControlServer.ResolveOptionalBatch | src/control_server.cpp:473-499 | absent, unusable, or an open batch |
| ControlServers.ControlServer.HandleScalarUpdate | src/control_server.cpp:501-603 | rejected, staged or applied as specified |
| ControlServers.ControlServer.HandleProfileSwap | src/control_server.cpp:605-767 | rejected, staged or applied as specified |
| ControlServers.ControlServer.ParseTaps | src/control_server.cpp:652-679 | every tap checked, or none taken |
| ControlServers.ControlServer.CommitAll | src/control_server.cpp:832-855 | staged operations in order, skipping what cannot be applied |
| ControlServers.ControlServer.HandleBatchBegin | src/control_server.cpp:773-797 | opens a batch under a new non-empty name |
| ControlServers.ControlServer.HandleBatchCommit | src/control_server.cpp:799-871 | applies and closes a batch |
| ControlServers.ControlServer.HandleBatchAbort | src/control_server.cpp:873-898 | closes a batch without applying it |
| ControlServers.ControlServer.HandleMessage | src/control_server.cpp:902-935 | one message: the whole new server state, every link's shadow included |
| ControlLaws.ServerLaws | src/control_server.cpp:902-935 | in every reachable state runtime-written fields are in range, staged operations name live links and known parameters, and the counters add up |
| ControlLaws.CommitTakesAll | src/control_server.cpp:832-855 | the vanished-link and unknown-parameter branches are never taken for what was staged |
| ControlLaws.CountHandle | src/control_server.cpp:902-935 | each message is counted exactly once |
| ControlWrites.WriteThenRead | src/control_server.cpp:230-255 | the readable parameters are the whitelist, and writing one changes that one |
| ControlWrites.UpdatedExactly | src/control_server.cpp:580-603 | an update sets its parameter on its link to its value with its gate and a new version, and nothing else |
| ControlWrites.UpdateTakesEffect | include/ocudu_gpu_channel/runtime_control.h:159-171 | it reaches the live parameters at the first slot not before its gate and at no earlier one |
| ControlWrites.TapRoundTrip | src/control_server.cpp:655-678 | a tap written out as an object is read back field by field, exactly when it is in range |
| ControlWrites.SwapRoundTrip | src/control_server.cpp:605-751 | every profile within the limits arrives in its link's shadow exactly as sent, pending, gated, under a new version |
| ControlExact.ScalarRefusedExactly | src/control_server.cpp:501-560 | a scalar message is refused if and only if its fields miss a known link, a parameter and a value in that parameter's written-out range, a slot that is a number not below zero if one is given, or an open batch if one is named; a refusal changes the count only |
| ControlExact.ScalarExactly | src/control_server.cpp:580-602 | otherwise, sent at once, it writes that one field, sets the gate to the slot asked for, 0 if none was, and answers with the later of that and the link's current slot |
| ControlExact.ScalarStaged | src/control_server.cpp:553-577 | sent in a batch it is kept and no link changes |
| ControlExact.ScalarHeard | include/ocudu_gpu_channel/runtime_control.h:150-176 | with nothing outstanding it is live at the first slot not before that gate: with no slot asked for, at the very next one |
| ControlExact.SwapRefusedExactly | src/control_server.cpp:605-727 | the same of swaps: link, warmup limit, 1 to 32 taps in range with their defaults, fading with its defaults, force, slot and batch |
| ControlExact.SwapExactly | src/control_server.cpp:744-766 | the profile the fields spell waits in its link's shadow behind that gate; the answer adds one slot of warmup |
| ControlExact.SwapStaged | src/control_server.cpp:720-742 | sent in a batch it is kept and no link changes |
| ControlExact.SwapHeard | include/ocudu_gpu_channel/runtime_control.h:150-192 | the profile is taken over at the first slot not before that gate if the link leads with a tdl or the profile is forced |
| ControlExact.CommitExactly | src/control_server.cpp:799-871 | a batch leaves every link as its messages sent one by one with the commit's slot, 0 if it names none |
| ControlExact.CommitCounts | src/control_server.cpp:827-857 | a commit reports exactly the staged operations whose link is there and whose parameter is one of the seven |
| ControlExact.CommitRefusedExactly | src/control_server.cpp:799-831 | a commit is refused if and only if it names no open batch or a slot that cannot be used |
| ControlExact.BeginExactly | src/control_server.cpp:773-797 | a batch is opened exactly under a new non-empty name |
| ControlExact.AbortExactly | src/control_server.cpp:873-897 | one is dropped exactly when it is open |
| ControlExact.OtherRefused | src/control_server.cpp:922-935 | a message of any other type is refused |
| ControlBatch.OnlyAppliedMessagesWrite | src/control_server.cpp:551-578 | staging, opening, aborting and rejecting leave every link as it is |
| ControlBatch.CommitRefinesSends | src/control_server.cpp:799-871 | begin, stage, commit with a gate equals sending the same messages unbatched with that gate |
| ControlBatch.AbortDropsStaged | src/control_server.cpp:873-898 | an abort drops exactly what was staged |
| Throttle.ServeThrottle.Await | src/broker.cpp:577-586 | the first serve fixes the origin, later ones get the truncated deadline |
| Throttle.ServeThrottle.Served | src/broker.cpp:603-609 | counts the serve and re-bases after about a second |
| Throttle.TargetIsClose | src/broker.cpp:579-609 | the deadline is never late and early by less than one nanosecond per re-basing plus one |
| Throttle.DeadlineIsClose | src/broker.cpp:577-609 | in nanoseconds and samples served: never later than the sample rate asks, and earlier by less than one nanosecond for each full second served, plus one |
| Throttle.ProductsStaySmall | src/broker.cpp:604-609 | both products stay below (rate + batch) times 10^9 over any run |

## Left out

- Floating-point rounding; `float` and `double` are reals, so agreement is exact rather than within a tolerance.
- Sockets, time-outs, signals, heartbeats, timing, logging and telemetry formatting; receiving and sending are steps that may happen at any time.
- Weak memory and the wrap of 32- and 64-bit counters; accesses are sequentially consistent and counters unbounded.
- Noise steps and the fading process itself (the generators differ between backends); of fading only the interpolation grid is modelled.
- YAML reading, the validator's messages, the texts of rejections and log lines, number printing and parsing.
- The filter design and Jakes formulas; their values are parameters.
- GPU allocation, streams and transfers; host and device copies of a buffer are one buffer, a kernel's grid is a loop over its samples.
- A tdl behind the first step of a chain on the CUDA backend, whose validator rejects it; on the CPU backend the end-to-end theorem covers it when its taps survive preparation (`FreshParams.KeepsTapsExactly`).
- RelayFairness.EveryFairRunFeeds: fairness covers lock acquisition too, which a mutex does not promise in general; `RelayProgress.EveryNodeFed` needs none and shows a way on from every reachable state.
- CpuNodes.CpuNode.constructor: takes links with storage of their own, which is what different keys get (`CpuPrepare.PrepareNode`); nodes with links that share a key are treated on values in `Keyed` and `SharedKeys`, without updates in place.
- CudaBackend.CudaNode.constructor: gives every edge its own host state; links that share a key are treated on values in `DeviceKeys`, without control writes, whose refresh finds only the first edge with the key (`src/cuda_backend.cu:716-722`).
- CudaBackend.CudaNode.ProcessSuperposition: takes one input per prepared edge, which is how the broker calls it, and runs between control writes; runs with writes are treated on values in `ControlledRun` and `ControlledNode`, each link handed its own source's window.
- SharedKeys.SharedExactly: chains with a tdl only in front and no total path loss.
- ControlledNode.ControlledExactly: nodes all of whose links lead with a tdl; a write to a CPU receiver's own control, which the CUDA backend does not have, is not part of a run.
- FusedProof.FusedIsPlain: covers chains whose only tdl leads and receivers without one.
- BackendsAgree.SameReplies: covers runs without control writes; `ControlledNode.ControlledExactly` has those with.
- ProfileSwap.SwapExactly: the converse is stated for a link that is nothing but its tdl; behind further steps a difference could be scaled away.
- FoldSignal.FoldedSignal: whole delays only; of a fractional one `FoldFields.FoldedChain` says which taps it leads to, and what they compute is the filter's approximation.
- DeviceSwap.RefreshAllTaps: the line-of-sight tables, read only under fading, are not part of the struct modelled.
- Snap.TornCopiesHeal: the seqlock, the warmup window and the force counter are modelled apart from the field-by-field snap.
- JsonDocs.ReadsBack: unicode escapes and control characters other than newline, which neither reader nor escaper treats specially.

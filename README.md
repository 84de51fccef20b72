# AudioNodes in Dafny

A model of the rendering core of AudioNodes, a Swift library that builds
audio graphs out of nodes: generators (file, queue and memory players),
filters (volume controls, noise gate, mixers) and passive monitors (meters,
recorders). Each node keeps a pending configuration that its public setters
change and that is copied into a render configuration at the start of every
render cycle. A cycle pulls the node's input, calls the node's own
`_render`, applies mute and enable/disable ramps, and hands the result to
the node's monitor. The model covers the per-cycle state machine of the
node classes, the buffer arithmetic of the utility functions, the fixed
gain steps of the volume controls, the block cache of the file readers,
the read/write positions of `AudioData`, the meters' level counters, the
queue player's timeline and the hex encoding of waveforms.

Neighbour nodes, the chain above a node and the node's own `_render` are
function parameters: a cycle returns the status and buffer they produce
and a log of the calls it makes (`Call` values), so that properties such
as "the monitor is called only on success" are statements about that log.
File decoding, file writing and the system clock are parameters too.
Samples are `real`; a channel-major buffer is a `seq<seq<real>>` in the
specifications and an `array2<real>` in the buffer lists the methods work
on.

Modules follow the source files:

| module | file | source |
|---|---|---|
| `Arith` | arith.dfy | integer facts shared by the others |
| `Buffers` | buffers.dfy | `AudioBufferListPtr`, `SafeAudioBufferList` and the buffer helpers |
| `Utilities` | utilities.dfy | `AudioNodes/Sources/Utilities.swift` |
| `GraphNode` | graph_node.dfy | `AudioNodes/Sources/Node.swift` |
| `SourceNode` | source_node.dfy | `AudioNodes/Sources/Source.swift` |
| `MonitorNode` | monitor_node.dfy | `AudioNodes/Sources/Monitor.swift` |
| `Mixer` | mixer.dfy | `AudioNodes/Sources/Mixer.swift` |
| `Gate` | noise_gate.dfy | `AudioNodes/Sources/NoiseGate.swift` |
| `Meters` | meter.dfy | `AudioNodes/Sources/Meter.swift` |
| `Memory` | audio_data.dfy | `AudioNodes/Sources/AudioData.swift` |
| `Recorders` | recorder.dfy | `AudioNodes/Sources/Recorder.swift` |
| `Offline` | offline_processor.dfy | `AudioNodes/Sources/OfflineProcessor.swift` |
| `FileReader` | file_reader.dfy | `AudioNodes/Sources/AudioFileReader.swift`; its `Cache.EvictTail` is the earlier cache's `evictTail` (`AudioNodes/AudioFileReader.swift`), which the newer cache lacks and `LegacyFileReader` uses |
| `Player` | player.dfy | `AudioNodes/Sources/Player.swift` (`FilePlayer`) |
| `Queue` | queue_player.dfy | `AudioNodes/Sources/Player.swift` (`QueuePlayer`) |
| `Waveforms` | waveform.dfy | `AudioNodes/Sources/Waveform.swift` |
| `LegacyNode` | legacy_node.dfy | `AudioNodes/Node.swift` |
| `LegacyMixer` | legacy_mixer.dfy | `AudioNodes/Mixer.swift` |
| `LegacyUtilities` | legacy_utilities.dfy | `AudioNodes/Utilities.swift` |
| `LegacyFileReader` | legacy_file_reader.dfy | `AudioNodes/AudioFileReader.swift` |

## Model

| member | source | states |
|---|---|---|
| GraphNode.StreamFormat.TransitionFrames | AudioNodes/Sources/Node.swift:37 | the transition is the smaller of the buffer size and a hundredth of the whole sample rate |
| GraphNode.DefaultTransitionFrames | AudioNodes/Sources/Node.swift:37-39 | the default format (48 kHz, 512 frames) has a 480-frame transition |
| GraphNode.MonitorCalls | AudioNodes/Sources/Node.swift:232-238 | a monitor call is made iff the status is success and a monitor is attached |
| GraphNode.FormatUpdate | AudioNodes/Sources/Node.swift:256-264 | the pending format becomes the new one; nothing is pushed to the neighbours when it was already that format; what a different format pushes is stated by `GraphNode.FormatPushedWhenChanged` |
| GraphNode.Node.constructor | AudioNodes/Sources/Node.swift:48-52 | both configurations are the initial one and the previous enabled flag is the given one, not muted |
| GraphNode.Node.SetEnabled | AudioNodes/Sources/Node.swift:55-58 | only the pending enabled flag changes |
| GraphNode.Node.SetMuted | AudioNodes/Sources/Node.swift:61-64 | only the pending muted flag changes |
| GraphNode.Node.SetBypassing | AudioNodes/Sources/Node.swift:67-70 | only the pending bypass flag changes |
| GraphNode.Node.Connect | AudioNodes/Sources/Node.swift:78-83 | the pending input is set; a known format is pushed to the new input first |
| GraphNode.Node.Disconnect | AudioNodes/Sources/Node.swift:86-90 | only the pending input is cleared |
| GraphNode.Node.ConnectMonitor | AudioNodes/Sources/Node.swift:113-118 | the pending monitor is set; a known format is pushed to it first |
| GraphNode.Node.DisconnectMonitor | AudioNodes/Sources/Node.swift:121-125 | only the pending monitor is cleared |
| GraphNode.Node.UpdateFormat | AudioNodes/Sources/Node.swift:256-264 | the pending configuration and the calls are those of `FormatUpdate`; nothing else changes |
| GraphNode.Node.WillRender | AudioNodes/Sources/Node.swift:241-243 | the render configuration becomes the pending one |
| GraphNode.Node.Reset | AudioNodes/Sources/Node.swift:246-250 | the previous flags are taken from the render configuration and the input, if any, is asked to reset |
| GraphNode.Node.InternalMonitor | AudioNodes/Sources/Node.swift:232-238 | the status is passed through and the monitor calls are those of `MonitorCalls` |
| GraphNode.Node.Generate | AudioNodes/Sources/Node.swift:190-204 | the buffer, status and calls are those of pulling the input and then rendering or bypassing (`Generated`) |
| GraphNode.Node.InternalRender2 | AudioNodes/Sources/Node.swift:187-229 | the buffer, status, calls and previous muted flag are those of `Render2` on the render configuration |
| GraphNode.Node.InternalRender | AudioNodes/Sources/Node.swift:151-184 | the new state, buffer, status and calls are those of one `RenderCycle` from the old state |
| GraphNode.MuteOverlay | AudioNodes/Sources/Node.swift:206-225 | the mute stage succeeds, calls nothing, records the muted flag it saw and keeps the buffer shape; an unmuted node that was not muted, or is ramping in, leaves the buffer as it is |
| GraphNode.Render2 | AudioNodes/Sources/Node.swift:187-238 | the cycle records the muted flag it rendered with, and the monitor is called exactly when the status is success and a monitor is attached |
| GraphNode.RenderCycle | AudioNodes/Sources/Node.swift:151-184 | every cycle renders with the pending configuration and records its enabled flag; a node disabled now and before succeeds and calls nothing |
| GraphNode.CycleSnapshotsPending | AudioNodes/Sources/Node.swift:154-156 | each cycle renders with the pending configuration, whatever render configuration it found |
| GraphNode.FirstCycleHasNoEdge | AudioNodes/Sources/Node.swift:48-52 | a fresh node's first cycle takes no edge: disabled it is silent and calls nothing, enabled it renders once with no fade |
| GraphNode.DisableEdgeRampsOut | AudioNodes/Sources/Node.swift:159-168 | the first disabled cycle resets the node and its input before pulling, and fades out the successful result (of silence when muted) |
| GraphNode.DisabledIsSilent | AudioNodes/Sources/Node.swift:159-169 | after the ramp-out a disabled node returns success and silence and calls nothing |
| GraphNode.DisabledRun | AudioNodes/Sources/Node.swift:159-169 | over any run of cycles a disabled node ramps out at most once and is silent and calls nothing afterwards |
| GraphNode.EnableEdgeRampsIn | AudioNodes/Sources/Node.swift:173-180 | the first enabled cycle renders with ramping set and fades the successful result in |
| GraphNode.RenderIffNotBypassing | AudioNodes/Sources/Node.swift:190-204 | `_render` is called iff the node is not bypassing and the input, if any, succeeded; bypassing without input gives silence, with input the input's buffer |
| GraphNode.MutedRun | AudioNodes/Sources/Node.swift:206-217 | over any run of a muted enabled node the first cycle fades out (when not muted before) and the rest are silent, while rendering continues |
| GraphNode.UnmuteEdgeRampsIn | AudioNodes/Sources/Node.swift:219-225 | the first unmuted cycle fades in unless an enable ramp is already running |
| GraphNode.MonitorOnlyOnSuccess | AudioNodes/Sources/Node.swift:232-238 | the monitor is notified iff the cycle rendered (enabled or ramping out) with success and a monitor attached |
| GraphNode.UpdateFormatIdempotent | AudioNodes/Sources/Node.swift:256-264 | a second update with the same format changes nothing and pushes nothing |
| GraphNode.FormatPushedWhenChanged | AudioNodes/Sources/Node.swift:258-261 | a format that differs from the pending one is pushed to the input (first) and to the monitor (last), and exactly those pushes are made |
| SourceNode.Source.constructor | AudioNodes/Sources/Source.swift:52-56 | both configurations are the initial one and the previous enabled flag is the given one |
| SourceNode.Source.SetEnabled | AudioNodes/Sources/Source.swift:59-62 | only the pending enabled flag changes |
| SourceNode.Source.SetBypassing | AudioNodes/Sources/Source.swift:65-68 | only the pending bypass flag changes |
| SourceNode.Source.ConnectSource | AudioNodes/Sources/Source.swift:72-77 | the pending source is set and returned |
| SourceNode.Source.ConnectMonitor | AudioNodes/Sources/Source.swift:102-107 | the pending monitor is set and returned |
| SourceNode.Source.DisconnectMonitor | AudioNodes/Sources/Source.swift:110-114 | only the pending monitor is cleared |
| SourceNode.Source.BeginDisconnectSource | AudioNodes/Sources/Source.swift:81-96 | with no source nothing changes; otherwise the node is disabled, the callback is posted and the earlier enabled flag is returned |
| SourceNode.Source.FinishDisconnectSource | AudioNodes/Sources/Source.swift:97 | the enabled flag gets its earlier value back |
| SourceNode.Source.WillRender | AudioNodes/Sources/Source.swift:191-193 | the render configuration becomes the pending one |
| SourceNode.Source.Reset | AudioNodes/Sources/Source.swift:196-199 | the previous flag is taken from the render configuration and the source, if any, is asked to reset |
| SourceNode.Source.InternalRender2 | AudioNodes/Sources/Source.swift:174-188 | the buffer, filled flag and calls are those of `Render2` on the render configuration |
| SourceNode.Source.InternalPull | AudioNodes/Sources/Source.swift:126-171 | the new state, buffer, filled flag and calls are those of one `PullCycle` from the old state |
| SourceNode.PullCycle | AudioNodes/Sources/Source.swift:126-171 | every pull records the pending enabled flag, and the render configuration takes the pending enabled flag and monitor |
| SourceNode.FirstPullHasNoEdge | AudioNodes/Sources/Source.swift:52-56 | a fresh source's first pull takes no edge: disabled it is silence with no pull, enabled it renders once with no fade |
| SourceNode.Render2 | AudioNodes/Sources/Source.swift:174-188 | `_render` runs iff not bypassing; the source, if any, is pulled first and is the only pull; without one a bypassing node leaves the buffer filled, or silences it when it was not |
| SourceNode.DisableEdgeRampsOut | AudioNodes/Sources/Source.swift:134-139 | the first disabled pull resets, renders once more and fades that out |
| SourceNode.EnableEdgeRampsIn | AudioNodes/Sources/Source.swift:156-160 | the first enabled pull renders and fades in |
| SourceNode.MonitorSeesFinalBuffer | AudioNodes/Sources/Source.swift:167-170 | an attached monitor is called last, with the final buffer |
| SourceNode.RampOutCycle | AudioNodes/Sources/Source.swift:134-139 | the ramp-out pull calls no callback and keeps the pending configuration |
| SourceNode.DisconnectCompletes | AudioNodes/Sources/Source.swift:134-152 | a posted disconnect callback runs exactly once, in the first silent pull, and the source and callback are gone from then on |
| SourceNode.DisconnectFires | AudioNodes/Sources/Source.swift:140-152 | once ramped out, the callback runs in the next pull and never again, and the source is dropped |
| SourceNode.DisabledAfterDisconnect | AudioNodes/Sources/Source.swift:140-142 | a disabled, ramped-out source with no callback stays silent and keeps its configuration |
| MonitorNode.Monitor.constructor | AudioNodes/Sources/Monitor.swift:25-28 | both configurations have the given enabled flag and no format |
| MonitorNode.Monitor.SetEnabled | AudioNodes/Sources/Recorder.swift:70 | only the pending enabled flag changes |
| MonitorNode.Monitor.WillRender | AudioNodes/Sources/Monitor.swift:42-44 | the render configuration becomes the pending one |
| MonitorNode.Monitor.InternalRender | AudioNodes/Sources/Monitor.swift:33-39 | the configuration is snapshotted and the `_monitor` hook runs iff the snapshot is enabled |
| MonitorNode.Monitor.UpdateFormat | AudioNodes/Sources/Monitor.swift:47-52 | the pending configuration becomes that of `FormatUpdate` |
| MonitorNode.FormatUpdate | AudioNodes/Sources/Monitor.swift:47-52 | the pending format becomes the new one and the enabled flag is kept |
| MonitorNode.FormatUpdateIdempotent | AudioNodes/Sources/Monitor.swift:47-52 | updating twice with the same format is updating once |
| Offline.Delivered | AudioNodes/Sources/OfflineProcessor.swift:43-44 | the source gives at most what was asked, never past its end, and all of it while enough is left |
| Offline.ProcessedAll | AudioNodes/Sources/OfflineProcessor.swift:23-40 | when every pull and write succeeds, the corrected loop hands the whole rest of the source to the sink and returns success |
| Offline.ProcessedMoves | AudioNodes/Sources/OfflineProcessor.swift:23-40 | the loop never moves back, writes no more than it pulls and never pulls past the source |
| Offline.ProcessedNoErr | AudioNodes/Sources/OfflineProcessor.swift:23-40 | whatever the statuses, a corrected loop that returns success has handed the whole rest of the source to the sink |
| Offline.AsWrittenProcessesNothing | AudioNodes/Sources/OfflineProcessor.swift:26-27 | as written, the first pull asks for 0 frames, so the loop returns at once having written nothing |
| Offline.AsWrittenExample | AudioNodes/Sources/OfflineProcessor.swift:23-40 | with 1000 source frames and a 441-frame scratch buffer the loop as written writes none, the corrected one all 1000 |
| Offline.OfflineProcessor.constructor | AudioNodes/Sources/OfflineProcessor.swift:14-20 | source and sink formats must agree; the scratch buffer holds `Int(ceil(sampleRate)) / divisor` frames in the format's channel count |
| Offline.OfflineProcessor.Render | AudioNodes/Sources/OfflineProcessor.swift:43-49 | reads what the source delivers, advances the source and pads the rest of the cycle with silence; the status is the read's |
| Offline.OfflineProcessor.Process | AudioNodes/Sources/OfflineProcessor.swift:23-40 | the corrected loop's status, source position and frames written are those of `Processed` with whole-buffer pulls |
| Offline.OfflineProcessor.ProcessAsWritten | AudioNodes/Sources/OfflineProcessor.swift:23-40 | the loop as written ends as `Processed` with zero-frame pulls |
| Recorders.ToWrite | AudioNodes/Sources/Recorder.swift:77 | a cycle writes at most its length and never past the capacity, and something iff there is room and frames |
| Recorders.Step | AudioNodes/Sources/Recorder.swift:76-89 | a cycle advances the playhead iff there is something to write and the write succeeds, by at most the cycle, within the capacity |
| Recorders.Session | AudioNodes/Sources/Recorder.swift:76-89 | whatever the writes return, the playhead never passes the capacity |
| Recorders.SessionComplete | AudioNodes/Sources/Recorder.swift:76-89 | with successful writes the recorder stores all it is offered up to the capacity and disables itself only when full |
| Recorders.FileRecorder.constructor | AudioNodes/Sources/Recorder.swift:59-66 | the capacity in frames is `Int(capacity * sampleRate)`, the playhead is 0 and the monitor has the given enabled flag |
| Recorders.FileRecorder.Monitor | AudioNodes/Sources/Recorder.swift:76-89 | the playhead and the outcome follow `Step`; when the recording ends the node is disabled |
| Recorders.FileRecorderFull | AudioNodes/Sources/Recorder.swift:56 | a full file recorder ends the recording on its next cycle that writes, and one that is not full goes on |
| Recorders.FileRecorder.Stop | AudioNodes/Sources/Recorder.swift:69-71 | only the pending enabled flag is cleared |
| Recorders.FileRecorder.Duration | AudioNodes/Sources/Recorder.swift:54 | the duration in seconds times the sample rate is the published playhead |
| Recorders.ShortWriteIffFull | AudioNodes/Sources/Recorder.swift:119-128 | a memory recorder's write of a whole cycle comes up short exactly when the data cannot take it all |
| Recorders.MemoryRecorder.constructor | AudioNodes/Sources/Recorder.swift:113-116 | the recorder writes to the given data and its monitor has the given enabled flag |
| Recorders.MemoryRecorder.Monitor | AudioNodes/Sources/Recorder.swift:119-128 | the cycle is written to the data at offset 0: from the old write counter on the data holds the cycle's frames and nothing else of it changes; a short write disables the node and ends the recording |
| Recorders.MemoryRecorderFull | AudioNodes/Sources/Recorder.swift:110 | a memory recorder is full exactly when its next non-empty write stores nothing |
| Buffers.FadeLength | AudioNodes/Sources/Utilities.swift:178 | the fade window is the smaller of the cycle and the requested fade |
| Buffers.RampFactor | AudioNodes/Sources/Utilities.swift:183-184 | the ramp factor stays within [0, 1] and starts at 1 for a fade-out and at 0 for a fade-in |
| Buffers.SmoothOutSilencesTail | AudioNodes/Sources/Utilities.swift:188 | after a fade-out every frame past the window and inside the cycle is silent |
| Buffers.SmoothInKeepsTail | AudioNodes/Sources/Utilities.swift:176-189 | a fade-in leaves every frame past the window unchanged |
| Buffers.SourceChannel | AudioNodes/Sources/Utilities.swift:159-166 | a destination channel copies the source channel of the same index when there is one, and the first channel otherwise |
| Buffers.CopiedFrom | AudioNodes/Sources/Utilities.swift:155-169 | the copied window of every destination channel comes from its source channel, everything else is kept |
| Buffers.CopiedNothing | AudioNodes/Sources/Utilities.swift:155 | copying no frames leaves the destination as it was |
| Buffers.BufferList.FrameCount | AudioNodes/Sources/Utilities.swift:248-249 | the frame count is the first channel's sample count, within the capacity |
| Buffers.BufferList.constructor | AudioNodes/Sources/Utilities.swift:240-246 | one channel for mono and two for stereo, each of the given capacity and filled to it |
| Buffers.BufferList.SetFrameCount | AudioNodes/Sources/Utilities.swift:250-255 | every channel's sample count becomes the new value, which must lie within the capacity |
| Utilities.Clamped | AudioNodes/Sources/Utilities.swift:103 | the result lies in the range, is the value itself inside it and the nearer bound outside it |
| Utilities.TruncToInt | AudioNodes/Sources/Recorder.swift:64 | Swift's `Int(Double)`: truncation toward zero, within one of the value |
| Utilities.TransitionFrames | AudioNodes/Sources/Utilities.swift:111 | the transition is the smaller of 512 and the cycle |
| Utilities.FactorFromGain | AudioNodes/Sources/Utilities.swift:123-128 | 0 for gain 0 and `10^((gain - 1) * 2)` for a positive gain |
| Utilities.FactorFromGainOdd | AudioNodes/Sources/Utilities.swift:125-127 | a negative gain gives the negated factor of its magnitude, so the signal is inverted |
| Utilities.FillSilence | AudioNodes/Sources/Utilities.swift:132-140 | frames `[offset, frameCount)` of every channel become silence, the rest is kept, and the status is success |
| Utilities.CopyCount | AudioNodes/Sources/Utilities.swift:152 | the count is the least of what is left in the source, the room left in the destination and `framesMax` |
| Utilities.Copy | AudioNodes/Sources/Utilities.swift:150-171 | `CopyCount` frames of every destination channel come from the matching source channel (the first one for extra channels); nothing else changes |
| Utilities.Fade | AudioNodes/Sources/Utilities.swift:179-186 | the first `fade` frames of every channel are multiplied by the ramp factor, the rest are kept |
| Utilities.SmoothedIsFaded | AudioNodes/Sources/Utilities.swift:176-189 | a smooth is the fade, followed for a fade-out by silence to the end of the cycle |
| Utilities.Smooth | AudioNodes/Sources/Utilities.swift:176-189 | the buffer becomes `Smoothed`: faded over the shorter of the cycle and the fade length, silent after a fade-out; the status is success |
| Buffers.Silenced | AudioNodes/Sources/Utilities.swift:132-140 | the frames from the offset up to the frame count are silence; every other frame is kept |
| Mixer.NextGain | AudioNodes/Sources/Mixer.swift:43-55 | at the target nothing moves; a fade that fits in the cycle lands on the target; a longer one ends between the old gain and the target, the old gain included and the target not reached, and has the cycle taken off its frames |
| Mixer.StepBetween | AudioNodes/Sources/Mixer.swift:51-53 | a partial step of a fade lands between the old gain and the target and never on the target |
| Mixer.CyclesToTarget | AudioNodes/Sources/Mixer.swift:47-54 | a fade always takes at least one cycle |
| Mixer.CyclesToTargetIsCeiling | AudioNodes/Sources/Mixer.swift:47-54 | a fade of `fadeFrames` frames takes `ceil(fadeFrames / frameCount)` cycles |
| Mixer.OneSecondAt48k | AudioNodes/Sources/Mixer.swift:32-55 | a one-second fade at 48 kHz with 512-frame cycles takes 94 cycles |
| Mixer.ReachesTarget | AudioNodes/Sources/Mixer.swift:43-55 | from a gain off the target, the gain after `n` cycles is the target iff `n` is at least `CyclesToTarget` |
| Mixer.AtTargetStays | AudioNodes/Sources/Mixer.swift:45 | at the target the gain and the fade never change |
| Mixer.CrossFactor | AudioNodes/Sources/Mixer.swift:66 | the crossfade starts at the old factor |
| Mixer.ScaleByOne | AudioNodes/Sources/Mixer.swift:77 | gain 1 is the identity, which is why the source skips scaling by it |
| Mixer.Ramp | AudioNodes/Sources/Mixer.swift:63-70 | the first `transition` frames of every channel are crossfaded from the old factor to the new and the rest of the cycle is scaled by the new one (`Ramped`) |
| Mixer.Scale | AudioNodes/Sources/Mixer.swift:78-82 | frames `[0, frameCount)` of every channel are multiplied by the factor (`Scaled`), the rest are kept |
| Mixer.AtTargetEffect | AudioNodes/Sources/Mixer.swift:73-86 | at the target, gain 0 silences the cycle, gain 1 leaves the buffer untouched, and every gain multiplies each frame of the cycle by its factor |
| Mixer.FadeEffect | AudioNodes/Sources/Mixer.swift:56-72 | during a fade, frame 0 is scaled by the old gain's factor, frames past the crossfade window by the new gain's, and frames within it by a factor between the two |
| Mixer.CrossFactorBetween | AudioNodes/Sources/Mixer.swift:66 | the crossfade factor lies between the old and the new factor |
| Mixer.Applied | AudioNodes/Sources/Mixer.swift:56-86 | whatever the effect, the buffer keeps its shape, no frame past the cycle changes, and keeping leaves the buffer as it is |
| Mixer.GainCycle | AudioNodes/Sources/Mixer.swift:42-90 | a render cycle never touches the pending request nor the target; at the target the gain and the fade stay; otherwise the gain ends between the old gain and the target, the old gain included; the reported volume is the new gain except on the silent path, where the gain is 0 and the report is kept |
| Mixer.VolumeControl.constructor | AudioNodes/Sources/Mixer.swift:23-26 | the gain starts at 1 with no fade and no pending request, on an enabled node |
| Mixer.VolumeControl.SetVolume | AudioNodes/Sources/Mixer.swift:32-37 | any pending request is replaced by a fade to the volume over `Int(sampleRate * duration)` frames |
| Mixer.VolumeControl.WillRender | AudioNodes/Sources/Mixer.swift:93-99 | the node snapshot is taken and a pending request, if any, becomes the active fade and is consumed |
| Mixer.VolumeControl.Reset | AudioNodes/Sources/Mixer.swift:102-106 | the node resets and the gain snaps to the fade's target with no frames left |
| Mixer.VolumeControl.Render | AudioNodes/Sources/Mixer.swift:42-90 | the gain moves by `NextGain`; the buffer is crossfaded during a fade and, at the target, silenced at 0, kept at 1 and scaled otherwise; the status is success |
| Mixer.ZeroDurationIsImmediate | AudioNodes/Sources/Mixer.swift:34-35 | a request of duration 0 reaches its target at the end of the next cycle |
| Mixer.Mixer.constructor | AudioNodes/Sources/Mixer.swift:135-139 | 1 to 128 buses, bus `k` numbered `k` in the mixer's format, and a 4096-frame scratch buffer in the format's channel count |
| Mixer.Mixer.RenderAndMix | AudioNodes/Sources/Mixer.swift:162-171 | the bus renders into the scratch buffer, which is added into the cycle of every output channel; the status is the bus's |
| Mixer.Mixer.Render | AudioNodes/Sources/Mixer.swift:144-159 | the output, scratch buffer and status are those of mixing the buses in order (`MixRender`), or silence with no buses |
| Mixer.FailureStops | AudioNodes/Sources/Mixer.swift:151-153 | once a bus fails, later buses are neither pulled nor mixed |
| Mixer.MixSumsBuses | AudioNodes/Sources/Mixer.swift:144-171 | with buses that succeed, every output sample of the cycle is the sum of the buses' samples |
| Mixer.MixBuses | AudioNodes/Sources/Mixer.swift:144-171 | when every bus writes only into the buffer it is given, the mix keeps the shape of the output and of the scratch buffer |
| Mixer.MixRender | AudioNodes/Sources/Mixer.swift:144-159 | the same for the whole render, which with no buses succeeds |
| Gate.Level | AudioNodes/Sources/NoiseGate.swift:26-28 | the level is the loudest channel's, or `MIN_LEVEL_DB` with no channels |
| Gate.Gated | AudioNodes/Sources/NoiseGate.swift:31-54 | the gate keeps the buffer shape and never touches a frame past the cycle |
| Gate.ClosedIsSilent | AudioNodes/Sources/NoiseGate.swift:31-41 | below the threshold a gate that was not open outputs silence over the cycle |
| Gate.OpenIsTransparent | AudioNodes/Sources/NoiseGate.swift:44-54 | at or above the threshold a gate that was not closed passes the buffer through |
| Gate.EdgesFade | AudioNodes/Sources/NoiseGate.swift:33-48 | closing fades the whole cycle out from full level, opening fades it in from silence |
| Gate.NoiseGate.constructor | AudioNodes/Sources/NoiseGate.swift:18-21 | a gate of unknown state with the given threshold, on an enabled source node |
| Gate.NoiseGate.Render | AudioNodes/Sources/NoiseGate.swift:24-57 | the buffer is `Gated` by the loudest level against the threshold, the gate state becomes that comparison, and the status is success |
| Gate.NoiseGate.Reset | AudioNodes/Sources/NoiseGate.swift:60-63 | the source node resets and the gate state becomes unknown |
| Meters.ChannelLevel | AudioNodes/Sources/Meter.swift:42 | the level is never below `MIN_LEVEL_DB`, is `MIN_LEVEL_DB` for silence and otherwise the larger of that and `20 * log10(rms)` |
| Meters.Peaks | AudioNodes/Sources/Meter.swift:39-44 | the first two channels' peaks only rise, to the cycle's level where that is higher; channels the buffer lacks keep their peak |
| Meters.EffectiveBin | AudioNodes/Sources/Meter.swift:48 | the bin is `binFrames` rounded down to a multiple of the cycle, and at least one cycle |
| Meters.CounterPeriodic | AudioNodes/Sources/Meter.swift:46-54 | with a steady cycle length the meter reports on every `m`-th cycle, `m` cycles making a bin |
| Meters.BinStep | AudioNodes/Sources/Meter.swift:49 | one more cycle fills the bin exactly when it already holds all but one cycle |
| Meters.Meter.constructor | AudioNodes/Sources/Meter.swift:29-33 | a bin holds `Int(sampleRate / 25)` frames; both peaks start at `MIN_LEVEL_DB` and the counter at 0 |
| Meters.Meter.Monitor | AudioNodes/Sources/Meter.swift:38-55 | the peaks are raised and the frames counted; once the bin is full both peaks are reported and reset and the counter restarts, so it always stays below the bin |
| Memory.Ceil | AudioNodes/Sources/AudioData.swift:26 | `Int(ceil(x))`: the least integer not below `x` |
| Memory.TransferStep | AudioNodes/Sources/AudioData.swift:38-43 | one turn of the copy loop keeps the loop's end result and stays inside the buffer |
| Memory.StepCount | AudioNodes/Sources/AudioData.swift:40 | a copy takes no more than the buffer has left, the chunk has left and the limit allows, and it is one of the three |
| Memory.Transfer | AudioNodes/Sources/AudioData.swift:37-43 | the copy loop never moves the buffer position back nor past the buffer |
| Memory.AtEndReadsNothing | AudioNodes/Sources/AudioData.swift:20 | with room in the buffer the corrected read delivers nothing exactly when the data is at its end, and then its time is its duration |
| Memory.PlayerAtEndReadsNothing | AudioNodes/Sources/AudioData.swift:129 | a player at the end of its data reads no frame of its cycle, and only then |
| Memory.TransferAdvances | AudioNodes/Sources/AudioData.swift:38-44 | the data counter and the buffer position move together, the buffer is never overrun, and the loop stops only with the buffer done or the counter at its limit |
| Memory.CappedWithinLimit | AudioNodes/Sources/AudioData.swift:58-63 | a loop whose copies are capped by the limit never passes it |
| Memory.UncappedWithinChunks | AudioNodes/Sources/AudioData.swift:38-43 | a loop whose copies stop at chunk ends never passes the last chunk |
| Memory.WriteAmount | AudioNodes/Sources/AudioData.swift:35-46 | a write stores at least `min(frameCount - offset, frameCapacity - framesWritten)` frames and at most `min(bufferFrames - offset, frameCapacity - framesWritten)`, never past the chunks; on a buffer of exactly `frameCount` frames it stores exactly the first minimum |
| Memory.ReadAmount | AudioNodes/Sources/AudioData.swift:54-66 | the corrected read delivers at least `min(frameCount - offset, framesWritten - framesRead)` frames and at most `min(bufferFrames - offset, framesWritten - framesRead)`, and never passes what was written; on a buffer of exactly `frameCount` frames it delivers exactly the first minimum |
| Memory.ReadPastWritten | AudioNodes/Sources/AudioData.swift:58-62 | as written, with 4-frame chunks, 1 frame written and none read, a 4-frame read takes the read counter to 4 |
| Memory.AudioData.constructor | AudioNodes/Sources/AudioData.swift:23-31 | 1 to 60 chunks of `Int(ceil(sampleRate))` frames each, nothing written or read |
| Memory.ChunkPosition | AudioNodes/Sources/AudioData.swift:39-40 | a copy that stays inside one chunk covers a data position exactly when the position lies in the chunk under the counter at an offset the copy covers |
| Memory.AudioData.ChunkIndex | AudioNodes/Sources/AudioData.swift:39 | every position below the frame capacity lies in an existing chunk, `position / chunkCapacity` |
| Memory.AudioData.Stored | AudioNodes/Sources/AudioData.swift:96-101 | the chunks seen as one buffer of `frameCapacity` frames: position `p` is frame `p % chunkCapacity` of chunk `p / chunkCapacity` |
| Memory.AudioData.Write | AudioNodes/Sources/AudioData.swift:35-46 | the write counter and the result follow the copy loop (`Transfer`, bounded by the capacity) and the read counter is kept; data positions `[old framesWritten, framesWritten)` hold the buffer's frames from `offset` on (channel by `SourceChannel`), every other position is unchanged, so `Stored` becomes `CopiedFrom` the buffer |
| Memory.AudioData.WriteChunk | AudioNodes/Sources/AudioData.swift:38-43 | one turn of the loop: a positive copy within the capacity; data that holds the buffer from `offset` up to the write counter, and the old data elsewhere, holds it up to the new write counter |
| Memory.AudioData.CopyIn | AudioNodes/Sources/AudioData.swift:39-40 | the copy into the chunk under the write counter lands at data positions `[framesWritten, framesWritten + copied)`, from the buffer at `framesCopied`; every other position is unchanged |
| Memory.AudioData.ReadChunk | AudioNodes/Sources/AudioData.swift:58-63 | one turn of the loop: a positive copy within the capacity; a buffer that holds the data from the start up to `framesCopied`, and its old frames elsewhere, holds it up to `framesCopied + copied` |
| Memory.AudioData.CopyOut | AudioNodes/Sources/AudioData.swift:59-60 | the copy out of the chunk under the read counter puts the data from `framesRead` at buffer frames `[framesCopied, framesCopied + copied)`; every other frame is unchanged |
| Memory.AudioData.Read | AudioNodes/Sources/AudioData.swift:54-66 | the corrected read: the read counter and the result follow the copy loop capped at the write counter, so nothing unwritten is read; buffer frames `[offset, offset + result)` hold the data from the old read counter on, the rest of the buffer is unchanged (`CopiedFrom` of `Stored`) |
| Memory.AudioData.ReadAsWritten | AudioNodes/Sources/AudioData.swift:54-66 | the read as written: the copy loop is bounded only by chunk and buffer, so the read counter can pass the write counter; the buffer is filled from the data as in `Read` |
| Buffers.CopiedBack | AudioNodes/Sources/AudioData.swift:35-66 | the round trip: reading back `m` of the `n` frames that a write put at a position, from that position, gives the written buffer's frames |
| Buffers.CopiedPointwise | AudioNodes/Sources/Utilities.swift:155-169 | a buffer that agrees frame by frame with a copy is that copy |
| Memory.AudioData.ResetRead | AudioNodes/Sources/AudioData.swift:69-73 | reading starts over and the data is kept |
| Memory.AudioData.Reset | AudioNodes/Sources/AudioData.swift:76-81 | both counters return to 0 |
| Memory.AudioData.Capacity | AudioNodes/Sources/AudioData.swift:16 | the capacity in seconds times the sample rate is the frame capacity |
| Memory.AudioData.Duration | AudioNodes/Sources/AudioData.swift:18 | the duration in seconds times the sample rate is the frames written |
| Memory.AudioData.Time | AudioNodes/Sources/AudioData.swift:19 | the time in seconds times the sample rate is the frames read |
| Memory.MemoryPlayer.constructor | AudioNodes/Sources/AudioData.swift:132-136 | a player of the data on a node with the given enabled flag |
| Memory.MemoryPlayer.Read | AudioNodes/Sources/AudioData.swift:154-165 | the data is read with the corrected `Memory.AudioData.Read` (see Left out): the buffer receives the data from the old read counter at `[offset, offset + result)`; a short read then pads it with silence from `result` and disables the node, a full one leaves the node alone |
| Memory.MemoryPlayer.Render | AudioNodes/Sources/AudioData.swift:139-142 | a read at offset 0, with the same contents, padding and node state, and a success status whatever was read |
| FileReader.Block.constructor | AudioNodes/Sources/AudioFileReader.swift:159-166 | an empty block at the offset, in one or two channels of the given capacity |
| FileReader.Block.Read | AudioNodes/Sources/AudioFileReader.swift:168-191 | the offset is recorded first; a failed seek or read returns false with the count unchanged, a successful one sets the count to the frames read |
| FileReader.IndexOf | AudioNodes/Sources/AudioFileReader.swift:142 | `firstIndex(where:)`: the first position holding the key, or none when no position does |
| FileReader.Removed | AudioNodes/Sources/AudioFileReader.swift:142-144 | at a found index the list is one shorter: the elements before it stay and those after it move down by one; without one it is unchanged |
| FileReader.RemovedElements | AudioNodes/Sources/AudioFileReader.swift:142-144 | removing at a found index loses exactly the element there, as multisets |
| FileReader.Trimmed | AudioNodes/Sources/AudioFileReader.swift:145-147 | a prefix of the list at most one shorter, below the capacity when the list was within it, and the list itself unless it is exactly full |
| FileReader.OffsetsOfPut | AudioNodes/Sources/AudioFileReader.swift:139-149 | storing a block and then taking offsets is storing its offset among the offsets |
| FileReader.PutMembers | AudioNodes/Sources/AudioFileReader.swift:139-149 | storing brings in no element but the one stored |
| FileReader.PutKeys | AudioNodes/Sources/AudioFileReader.swift:139-149 | storing keeps at most `capacity` entries with unique offsets, puts the new one first and finds it there afterwards |
| FileReader.PutFront | AudioNodes/Sources/AudioFileReader.swift:139-149 | the stored element goes first, and a cache within its capacity stays within it |
| FileReader.PutKeepsOthers | AudioNodes/Sources/AudioFileReader.swift:139-149 | storing loses no entry of another offset except the tail of a full list |
| FileReader.Cache.constructor | AudioNodes/Sources/AudioFileReader.swift:127-130 | an empty cache; the capacity must lie in 1 to 15 |
| FileReader.Cache.BlockFor | AudioNodes/Sources/AudioFileReader.swift:132-137 | a block is found iff one is stored under the offset, and it is a stored block with that offset |
| FileReader.Cache.SetBlockFor | AudioNodes/Sources/AudioFileReader.swift:139-149 | the list is `Put`: the block under the offset removed, the tail of a full list dropped, the new block first; the cache stays within capacity with unique offsets and finds the new block |
| FileReader.BlockKey | AudioNodes/Sources/AudioFileReader.swift:243 | the key of a position is the start of the block holding it: `key <= position < key + blockSize` |
| FileReader.WindowOffset | AudioNodes/Sources/AudioFileReader.swift:217 | the `i`-th block of the prefetch window starts `i` blocks after the key of the position |
| FileReader.KeyOfMultiple | AudioNodes/Sources/AudioFileReader.swift:217 | every frame of the block starting at `q * blockSize` has that block's key |
| FileReader.SameBlockKey | AudioNodes/Sources/AudioFileReader.swift:243 | every frame of a block has that block's key |
| FileReader.NextBlockKey | AudioNodes/Sources/AudioFileReader.swift:217 | the frame just past a block is the key of the next block |
| FileReader.Reader.SnapshotMirrors | AudioNodes/Sources/AudioFileReader.swift:204 | the cache seen as a map from offsets to blocks holds exactly the cached blocks |
| FileReader.Reader.ReadyIsWellFormed | AudioNodes/Sources/AudioFileReader.swift:221-235 | every cached block sits under its own offset and holds at most one block of frames |
| FileReader.Reader.MirrorsWellFormed | AudioNodes/Sources/AudioFileReader.swift:221-235 | any map that mirrors the cache is well formed |
| FileReader.Reader.constructor | AudioNodes/Sources/AudioFileReader.swift:204-210 | blocks of `Int(sampleRate)` frames, an empty cache of 8 and an unknown end of file |
| FileReader.Reader.BlockAt | AudioNodes/Sources/AudioFileReader.swift:242-245 | the block found is the cached one under the position's key, if any, and it is loaded |
| FileReader.Reader.Store | AudioNodes/Sources/AudioFileReader.swift:224-227 | the block is stored first in the cache, and a short block fixes the end of the file at its offset plus its count |
| FileReader.Reader.Fetch | AudioNodes/Sources/AudioFileReader.swift:221-235 | the entries and the end of the file are those of `Fetched`; only new, loaded blocks of the reader's layout enter the cache |
| FileReader.Reader.NewBlock | AudioNodes/Sources/AudioFileReader.swift:222-223 | a fresh block read at the offset; on success it holds the decoder's frames in the reader's layout |
| FileReader.Reader.Prepopulate | AudioNodes/Sources/AudioFileReader.swift:214-238 | the entries and the end of the file are those of `Prepopulated`: three consecutive blocks from the position's key, stopping at the first at or past a known end |
| FileReader.PrepopulatedKeepsEnd | AudioNodes/Sources/AudioFileReader.swift:214-238 | the prefetch window never forgets an end of the file once it is known |
| FileReader.Fetched | AudioNodes/Sources/AudioFileReader.swift:221 | a cached offset is not read again: the cache and the end of the file stay as they are |
| FileReader.FirstBlockStoredWhenRead | AudioNodes/Sources/AudioFileReader.swift:214-235 | into an empty cache a short first block is stored alone, fixes the end of the file and ends the window |
| FileReader.ReadSync | AudioNodes/Sources/AudioFileReader.swift:96-111 | on a failure no frames are reported, the whole cycle is silenced and the error is raised; otherwise the frames after those read are silence |
| FileReader.Cache.EvictTail | AudioNodes/AudioFileReader.swift:147-151 | a full cache hands out its last block and keeps the rest in order; a cache with room gives nothing and is unchanged |
| LegacyFileReader.Evicted | AudioNodes/AudioFileReader.swift:147-151 | a prefix of the entries, one shorter when the cache is full, so it has room below a positive capacity; a cache that is not full is unchanged |
| LegacyFileReader.Ensured | AudioNodes/AudioFileReader.swift:223 | a block that is already cached leaves the cache and the known end of the file untouched |
| LegacyFileReader.FailedReadShrinksFullCache | AudioNodes/AudioFileReader.swift:226-231 | a failed read of a missing block into a full cache leaves the cache one entry shorter, without that block, and the end unknown as before |
| LegacyFileReader.SuccessfulReadAgrees | AudioNodes/AudioFileReader.swift:226-231 | on a successful read, evicting the tail first and then storing gives the same cache and end of file as the newer reader's store-with-eviction |
| LegacyFileReader.Reader.constructor | AudioNodes/AudioFileReader.swift:203-213 | the block size is the sample rate truncated to an integer; the cache is empty with capacity 8 and the end of the file is unknown |
| LegacyFileReader.Reader.BlockAt | AudioNodes/AudioFileReader.swift:247-250 | a block found is cached and holds the position; none is found exactly when the block key of the position is not cached |
| LegacyFileReader.Reader.Store | AudioNodes/AudioFileReader.swift:228-231 | the block goes to the front of the cache; a short block fixes the end of the file at its offset plus its count, else the end is unchanged |
| LegacyFileReader.Reader.Obtain | AudioNodes/AudioFileReader.swift:226 | a full cache loses its tail and hands out that very block; a cache with room hands out a new block of the reader's size and channels; either way the block is no longer cached |
| LegacyFileReader.Reader.ObtainRead | AudioNodes/AudioFileReader.swift:226-227 | the obtained block is read at the block offset; success is exactly a decoded read, whose frame count the block then holds |
| LegacyFileReader.Reader.Fetch | AudioNodes/AudioFileReader.swift:219-240 | the cache and the known end after one block of the window are `Ensured` of the old ones; every cached block was cached before or is new |
| LegacyFileReader.Reader.EnsureCached | AudioNodes/AudioFileReader.swift:216-242 | the cache and the known end become `EnsuredWindow` of the old ones: up to three consecutive blocks, stopping at the known end |
| LegacyFileReader.EnsuredWindowKeepsEnd | AudioNodes/AudioFileReader.swift:216-242 | the window never forgets an end of the file once it is known |
| LegacyFileReader.ReadSync | AudioNodes/AudioFileReader.swift:90-106 | a failed read reports no frames, returns its status and silences the whole cycle; a successful one returns `noErr` with the frames read and silence after them |
| LegacyNode.StreamFormat.TransitionSamples | AudioNodes/Node.swift:35 | the transition is the smaller of one buffer and a hundredth of the whole sample rate, so never longer than a buffer |
| LegacyNode.FormatOnConnect | AudioNodes/Node.swift:196-211 | an unknown format, or the one already kept, changes nothing and pushes nothing; a known format is always kept; what a different known format pushes is stated by `LegacyNode.ConnectPushesFormat` |
| LegacyNode.FormatOnDisconnect | AudioNodes/Node.swift:215-222 | the format is forgotten exactly when the node has neither monitor nor input (or had none); nothing else in the configuration changes |
| LegacyNode.Node.constructor | AudioNodes/Node.swift:230-249 | both configurations start unconnected, enabled and unmuted; the previous flags are enabled and unmuted; the node is not connected |
| LegacyNode.Node.SetEnabled | AudioNodes/Node.swift:45-48 | only the pending `enabled` flag changes |
| LegacyNode.Node.SetMuted | AudioNodes/Node.swift:51-54 | only the pending `muted` flag changes |
| LegacyNode.Node.WillConnect | AudioNodes/Node.swift:196-211 | allowed only on an unconnected node; the node ends connected and its pending configuration and the pushes are those of `FormatOnConnect`; the render state is untouched |
| LegacyNode.Node.DidDisconnect | AudioNodes/Node.swift:215-222 | allowed only on a connected node; the node ends unconnected and its pending configuration is `FormatOnDisconnect` of the old one |
| LegacyNode.Node.UpdateFormat | AudioNodes/Node.swift:240-243 | a disconnection followed by a reconnection with the format: the node stays connected and keeps the new format |
| LegacyNode.Node.Connect | AudioNodes/Node.swift:57-62 | the input ends connected with this node's format adopted as by `FormatOnConnect`, and is stored as this node's input; nothing else changes |
| LegacyNode.Node.Disconnect | AudioNodes/Node.swift:65-71 | the input is cleared and nothing else of this node changes; the old input, if any, ends unconnected with `FormatOnDisconnect` applied to its pending configuration, and nothing else of it changes |
| LegacyNode.Node.ConnectMonitor | AudioNodes/Node.swift:74-79 | as `Connect`, for the monitor |
| LegacyNode.Node.DisconnectMonitor | AudioNodes/Node.swift:82-88 | as `Disconnect`, for the monitor |
| LegacyNode.Node.WillRender | AudioNodes/Node.swift:177-179 | the render configuration becomes the pending one; nothing else changes |
| LegacyNode.Node.Reset | AudioNodes/Node.swift:182-187 | the previous flags become the render configuration's; the input and then the monitor are asked to reset |
| LegacyNode.Node.InternalRender2 | AudioNodes/Node.swift:137-174 | status, calls, buffer and previous-muted flag are those of the render-and-mute pass `Render2` |
| LegacyNode.Node.InternalRender | AudioNodes/Node.swift:101-134 | status, calls, buffer and whole new state are those of the cycle `RenderCycle` |
| LegacyNode.Render2 | AudioNodes/Node.swift:137-174 | the status is that of `_render`, which is always the first call; the pass records the muted flag; the monitor is called as well exactly when the status is success and a monitor is attached |
| LegacyNode.RenderCycle | AudioNodes/Node.swift:101-134 | the cycle renders with the pending configuration, records its enabled flag and keeps the connection; disabled now and before, it succeeds and calls nothing |
| LegacyNode.UpdateFormatStores | AudioNodes/Node.swift:240-243 | a pushed format is always kept; when it differs from the kept one it goes on to the input first and to the monitor last, and when equal it goes nowhere |
| LegacyNode.ConnectPushesFormat | AudioNodes/Node.swift:200-204 | a known format that differs from the stored one is pushed to the input (first) and to the monitor (last), and exactly those pushes are made |
| LegacyNode.RenderAlwaysCalled | AudioNodes/Node.swift:101-174 | `_render` runs in a cycle exactly when the node is enabled or ramping out, and the monitor is called only on success |
| LegacyNode.MuteEdges | AudioNodes/Node.swift:142-161 | outside a ramp the mute edge fades out, further muted cycles are silent, the unmute edge fades in, and an unmuted node passes its output through |
| LegacyNode.DisableEdges | AudioNodes/Node.swift:108-120 | a disabled node ends with its previous-enabled flag off; on the disable edge input and monitor are reset first and a successful unmuted output fades out; afterwards the node is silent and calls nothing |
| LegacyMixer.RequestFrames | AudioNodes/Mixer.swift:27 | no frames while the format is unknown; otherwise the request's duration in frames, rounded down |
| LegacyMixer.VolumeControl.constructor | AudioNodes/Mixer.swift:100-107 | gain 1, no fade and no pending request |
| LegacyMixer.VolumeControl.SetVolume | AudioNodes/Mixer.swift:25-30 | the pending request becomes the volume over `RequestFrames`, replacing any earlier one; nothing else changes |
| LegacyMixer.VolumeControl.WillRender | AudioNodes/Mixer.swift:82-88 | a pending request becomes the active fade and is consumed; with none, nothing changes |
| LegacyMixer.VolumeControl.Reset | AudioNodes/Mixer.swift:91-95 | the gain jumps to the fade target and no fade frames remain |
| LegacyMixer.VolumeControl.Filter | AudioNodes/Mixer.swift:35-79 | the status is `noErr`; the gain moves as the newer control's `NextGain` prescribes, and the buffer is the same crossfaded, scaled or silenced output, over the node's transition length |
| LegacyMixer.UnknownFormatIsImmediate | AudioNodes/Mixer.swift:25-42 | a request made while the format is unknown reaches its volume at the end of the next cycle |
| LegacyUtilities.Copy | AudioNodes/Utilities.swift:126-136 | the count is the smallest of what the source has after its offset, what the destination has after its offset and `framesMax`; that window of every channel is copied |
| LegacyUtilities.SameChannelsCopyChannelwise | AudioNodes/Utilities.swift:129-134 | with equal channel counts each destination channel gets the same channel of the source inside the window and keeps its samples outside it |
| Player.ReadLoop | AudioNodes/Sources/Player.swift:100-117 | where the copy loop stops: the playhead advances by exactly the frames written, which never exceed the output's frames nor the request |
| Player.ReadLoopStops | AudioNodes/Sources/Player.swift:104-117 | the loop stops short only at an uncached block (a miss) or at a block whose data is used up or a full output (the end), never both; otherwise it filled the request |
| Player.ReadLoopAdvances | AudioNodes/Sources/Player.swift:104-117 | every stream frame the playhead passes was cached, and the playhead ends within the data of its block |
| Player.StepInData | AudioNodes/Sources/Player.swift:110-116 | copying inside the data of the block under the playhead passes only cached frames and leaves the playhead within the data of its block |
| Player.StreamedStep | AudioNodes/Sources/Player.swift:110-116 | copying the next frames of the block under the playhead extends the window of the output that holds the stream |
| Player.Padded | AudioNodes/Sources/Player.swift:119-121 | after a short read every frame between the copied ones and the request is silence; all other frames are kept |
| Player.Streamed | AudioNodes/Sources/Player.swift:104-117 | the streamed window keeps the shape of the output and leaves every frame outside the window alone |
| Player.Rendered | AudioNodes/Sources/Player.swift:100-121 | a read keeps the shape of the output, leaves every frame outside its window alone and leaves silence after the frames it copied |
| Player.Prefetches | AudioNodes/Sources/Player.swift:104-131 | a prefetch at the playhead on a miss, and another unless the end was reached |
| Player.SeekFrame | AudioNodes/Sources/Player.swift:171 | a seek asks for a frame within the file |
| Player.SeekWithinFileIsInData | AudioNodes/Sources/Player.swift:105-110 | when the cache holds the frames of the file, a playhead no further than its end lies within the data of its block, so the copy cannot be asked for a negative count |
| Player.ShortFileSeekBreaksInData | AudioNodes/Sources/Player.swift:76 | a file decoded one frame short of its estimate, sought to the estimated end, leaves the playhead past the data of its block: the copy count is -1 |
| Player.SeekFrameOfTime | AudioNodes/Sources/Player.swift:170-171 | seeking to the time of a frame within the file asks for exactly that frame |
| Player.CopyCached | AudioNodes/Sources/Player.swift:105-110 | the block under the playhead is found exactly when it is cached; then as much of it as fits the request and the output is copied into the output starting at the frames already written |
| Player.CopyStream | AudioNodes/Sources/Player.swift:101-117 | the copy loop stops where `ReadLoop` does and the output holds the stream in the frames it wrote, the rest unchanged |
| Player.CopyAndPad | AudioNodes/Sources/Player.swift:101-121 | the copy loop followed by its padding: the output is the stream up to the stop, then silence up to the request |
| Player.FilePlayer.constructor | AudioNodes/Sources/Player.swift:80-87 | the node is enabled as asked; the playhead and the published playhead are 0, no seek is pending, and a prefetch from frame 0 is asked for |
| Player.FilePlayer.Read | AudioNodes/Sources/Player.swift:100-139 | the output frame by frame, the new playhead, the count returned and the prefetches follow `ReadLoop`; at the end the player disables itself and publishes the file's length, otherwise it publishes the playhead; every frame passed was cached |
| Player.FilePlayer.Render | AudioNodes/Sources/Player.swift:92-95 | a read at offset 0 with status `noErr` |
| Player.FilePlayer.WillRender | AudioNodes/Sources/Player.swift:142-149 | the node takes its snapshot; a pending seek is applied once, cleared and prefetched; without one the playhead stays |
| Player.FilePlayer.Time | AudioNodes/Sources/Player.swift:169-170 | the published playhead in seconds |
| Player.FilePlayer.Duration | AudioNodes/Sources/Player.swift:174 | the estimated length of the file in seconds, never negative |
| Player.FilePlayer.SetTime | AudioNodes/Sources/Player.swift:171 | a seek to the clamped frame of the time is pending; the playheads are untouched until the next cycle |
| Player.FilePlayer.SetAtEnd | AudioNodes/Sources/Player.swift:76 | a seek to the end of the file is pending |
| Player.AtEndTimeIsDuration | AudioNodes/Sources/Player.swift:169-174 | a player at the end reports its whole duration as its time |
| Queue.Fill | AudioNodes/Sources/Player.swift:217-240 | a render comes up short exactly when it ran out of items, and then the rest of the cycle is silence; otherwise the item that filled the cycle stays current; the index never moves back nor past the end of the queue |
| Queue.FillStep | AudioNodes/Sources/Player.swift:225-234 | one item of the render loop: the loop ends at this item if the cycle is full, and goes on with the next item at the new offset otherwise |
| Queue.Placement | AudioNodes/Sources/Player.swift:270-289 | the walk gives every item an entry, and any item it makes current is an item of the queue |
| Queue.Step | AudioNodes/Sources/Player.swift:273-287 | one item of the walk gives that item one entry and keeps the entries before it; the current item stays or becomes this one |
| Queue.TimeAt | AudioNodes/Sources/Player.swift:265-269 | past the last item the time is the durations of all items together |
| Queue.AtEndTimeIsDuration | AudioNodes/Sources/Player.swift:184-193 | a queue at its end reports its whole duration as its time |
| Queue.PlacementStep | AudioNodes/Sources/Player.swift:272-288 | the walk over one more item is one more step of the walk |
| Queue.WalkPlacement | AudioNodes/Sources/Player.swift:272-288 | the loop's walk from any item on, started from the placement of the items before, is the placement of the whole queue |
| Queue.PlacementRemaining | AudioNodes/Sources/Player.swift:270-289 | for positive durations the corrected walk makes an item current exactly when the time is within the queue, and what is left is the time past its end |
| Queue.PlacementGiven | AudioNodes/Sources/Player.swift:274-287 | the corrected walk leaves the items before the time alone, gives the item holding it the time into it, and rewinds the items after it |
| Queue.PlacementCurrent | AudioNodes/Sources/Player.swift:282-285 | the corrected walk makes current exactly the item whose span holds the time |
| Queue.PlacementTime | AudioNodes/Sources/Player.swift:265-289 | setter and getter agree: once the chosen item reports the time it was given, the queue's time is the time set |
| Queue.SetTimeAsWrittenMisses | AudioNodes/Sources/Player.swift:274-281 | as written, a seek to 0 or to exactly the start of an item makes no item current; the corrected walk makes the right one current |
| Queue.DurationsOf | AudioNodes/Sources/Player.swift:190 | the durations of the players, item by item |
| Queue.QueuePlayer.constructor | AudioNodes/Sources/Player.swift:209-212 | an empty queue at index 0 with no seek pending, its node enabled as asked |
| Queue.QueuePlayer.AddFile | AudioNodes/Sources/Player.swift:197-205 | false, no prefetch and no change when the file cannot be opened; otherwise a new enabled player of the file is appended, its prefetch from frame 0 is returned and the rest of the queue is kept |
| Queue.QueuePlayer.WillRender | AudioNodes/Sources/Player.swift:253-260 | the node takes its snapshot, the render side takes the current queue, and a pending index is applied once and cleared |
| Queue.QueuePlayer.Render | AudioNodes/Sources/Player.swift:217-250 | status `noErr`; index, published index and buffer are those of `Fill`; the queue disables itself exactly when the cycle could not be filled |
| Queue.QueuePlayer.FillItems | AudioNodes/Sources/Player.swift:220-235 | the loop ends with the index, frames written and buffer of `Fill` |
| Queue.QueuePlayer.ReadItem | AudioNodes/Sources/Player.swift:227-230 | the item's read at the offset decides the frames copied and the buffer |
| Queue.QueuePlayer.Durations | AudioNodes/Sources/Player.swift:190 | one duration per item, each that item's |
| Queue.QueuePlayer.SetTime | AudioNodes/Sources/Player.swift:270-289 | the corrected walk: the item it makes current becomes the pending index, and each item is asked for the seek it was given; playheads are untouched until the next cycle |
| Queue.QueuePlayer.PlaceItems | AudioNodes/Sources/Player.swift:272-288 | the loop of the setter yields the walk's current item and gives each item the walk's seek |
| Queue.QueuePlayer.PlaceItem | AudioNodes/Sources/Player.swift:273-287 | one item of the walk: the time left and the seek asked of the item are those of one step |
| Waveforms.LowestIsMinimum | AudioNodes/Sources/Waveform.swift:24-30 | `lower` is absent exactly when no tick is audible, and otherwise is the smallest audible tick |
| Waveforms.HighestIsMaximum | AudioNodes/Sources/Waveform.swift:24-31 | `upper` is absent exactly when no tick is audible, and otherwise is the largest audible tick |
| Waveforms.Of | AudioNodes/Sources/Waveform.swift:22-23 | the waveform keeps the ticks it is built from |
| Waveforms.Make | AudioNodes/Sources/Waveform.swift:22-32 | the single pass yields the ticks with their lowest and highest audible values |
| Waveforms.Range | AudioNodes/Sources/Waveform.swift:35-40 | a range exists exactly when both bounds exist in order, and then runs from `lower` to `upper` |
| Waveforms.RangeOfTicks | AudioNodes/Sources/Waveform.swift:22-40 | a built waveform has a range exactly when some tick is audible, running from the quietest to the loudest audible tick |
| Waveforms.Components | AudioNodes/Sources/Waveform.swift:98-104 | ceiling of length over n slices, none empty, each at most n long and all but the last exactly n |
| Waveforms.ComponentsFlatten | AudioNodes/Sources/Waveform.swift:98-104 | the slices put back together are the input |
| Waveforms.FlattenLength | AudioNodes/Sources/Waveform.swift:82-84 | joining parts of equal length n gives n times as many elements |
| Waveforms.ComponentsOfFlatten | AudioNodes/Sources/Waveform.swift:88-104 | slicing a join of parts of length n gives the parts back |
| Waveforms.SumBounds | AudioNodes/Sources/Waveform.swift:46 | a sum of k ticks lies within k times the level bounds, so the mean fits a level |
| Waveforms.Mean | AudioNodes/Sources/Waveform.swift:46 | the mean is the sum divided by the count, truncated toward zero |
| Waveforms.Means | AudioNodes/Sources/Waveform.swift:46 | one mean per slice, in order |
| Waveforms.Downsampled | AudioNodes/Sources/Waveform.swift:43-47 | for a positive divisor one tick per slice of `divisor` ticks, the truncated mean of that slice; for a negative one no ticks; bounds recomputed as by `init(ticks:)` |
| Waveforms.HexDigit | AudioNodes/Sources/Waveform.swift:83 | a lower-case hex digit |
| Waveforms.Byte | AudioNodes/Sources/Waveform.swift:83 | the two's complement byte of a level |
| Waveforms.HexByte | AudioNodes/Sources/Waveform.swift:83 | exactly two lower-case hex digits |
| Waveforms.HexBytes | AudioNodes/Sources/Waveform.swift:82-83 | one two-digit string per tick, in order |
| Waveforms.ToHex | AudioNodes/Sources/Waveform.swift:81-85 | the hex string has two lower-case hex digits per tick |
| Waveforms.ParseHex | AudioNodes/Sources/Waveform.swift:90 | the empty string does not parse |
| Waveforms.Truncated | AudioNodes/Sources/Waveform.swift:91 | the level agrees with the value modulo 256 |
| Waveforms.Parsed | AudioNodes/Sources/Waveform.swift:89-91 | at most one tick per chunk |
| Waveforms.FromHex | AudioNodes/Sources/Waveform.swift:88-92 | at most one tick per two characters, with the bounds `init(ticks:)` computes |
| Waveforms.DigitValueOfHexDigit | AudioNodes/Sources/Waveform.swift:83-90 | a digit written for a value reads back as that value |
| Waveforms.ParseHexByte | AudioNodes/Sources/Waveform.swift:83-91 | the two digits of a tick parse to its byte, which truncates back to the tick |
| Waveforms.ParsedHexBytes | AudioNodes/Sources/Waveform.swift:82-91 | parsing the digit pairs of a list of ticks gives the ticks back |
| Waveforms.HexRoundTrip | AudioNodes/Sources/Waveform.swift:81-92 | decoding the hex string of a waveform gives its ticks back, with bounds as `init(ticks:)` computes them |

## Left out

- Locks, semaphores, actors and `Task.detached`: every method runs alone; the pending-to-render snapshot is a plain assignment.
- Delegate notifications (`didPlaySomeAsync`, `didEndPlayingAsync`, the recorder delegates) are not modelled. The asynchronous `prepopulate` requests of the players are returned as lists of positions; the one the file player's initializer makes is the constant `initialPrefetches`, since a constructor has no results.
- Player.FilePlayer.Read and Player.FilePlayer.Render require the playhead to lie within the data of its cached block (`InData`). Otherwise the copy's count is negative and AudioNodes/Sources/Utilities.swift:154 traps. `Player.SeekWithinFileIsInData` shows that every clamped seek meets this when the decoder delivers `estimatedTotalFrames` frames. A seek to the estimated end breaks it only when the decoder delivers fewer frames than `Int(ceil(fileFrames / lengthFactor))` (AudioNodes/Sources/AudioFileReader.swift:79) within the last block, as `Player.ShortFileSeekBreaksInData` exhibits. How many frames a rate-converting decoder delivers is not part of this model, so no input of the source can be named and the trap is not listed under Findings.
- `smoothConnect` and `smoothDisconnect` wait on a clock and a continuation, so they are not modelled. The disconnect callback that `Source` keeps is modelled.
- The reuse race at AudioNodes/AudioFileReader.swift:225 is concurrency, so it is not modelled: an evicted block is reused as soon as it is handed out.
- File I/O is parameters, not code: the decoder (`ExtAudioFileSeek`/`ExtAudioFileRead`) is a function from seek position to a `FileRead`, and file writes are a status per cycle. `AudioFileWriter.swift`, `System.swift`, `estimatedTotalFrames` and the file's length factor are given values.
- Samples are exact reals, with no Float32 rounding. `pow`, `log10` and the meters' `rmsDb` are function parameters.
- Each node's `_render` (the base one is abstract and fatal) and the base monitor's `_monitor` are function parameters or reported as called.
- Node chains are not linked objects: a cycle returns the calls it makes on its input and monitor (`Call` values) instead of running them.
- Queue.QueuePlayer.Render: an item's `read` is a parameter whose meaning is specified by `Player.ReadLoop`. The queue does not re-run the file player's model for each item.
- Mixer.Mixer.Render: each bus's `_internalPull` is a parameter. Sources/Mixer.swift defines no pull of its own.
- The `Filter` base class of AudioNodes/Mixer.swift is not part of this model: its per-cycle work and its `_transitionFrames` are left to the caller.
- `Waveform.fromSource` derives ticks from rms levels of decoded audio, so it is not modelled. `Ducker`, `EQFilter`, `FFT`, `FFTMeter` and the sine generators are floating-point numerics and are not modelled.
- The base `Recorder` reports capacity 0, duration 0 and full. Both recorders override these, so only the overrides are modelled. `FileRecorder`'s reported capacity is not modelled.
- Recorders.MemoryRecorder.IsFull: the `data.isFull` that this member reads is not declared by `AudioData`. It is taken as the write counter having reached the frame capacity.
- MonitorNode.Monitor.SetEnabled: `Monitor.swift` declares no `isEnabled` setter, so it is taken to set the pending flag as the other nodes' setters do.
- Recorders.MemoryRecorder.Monitor: offset 0 is assumed. AudioNodes/Sources/Recorder.swift:119 calls `write` without an offset, and AudioNodes/Sources/AudioData.swift:35 gives the parameter no default.
- Memory.MemoryPlayer.Read and Memory.MemoryPlayer.Render are built on the corrected `Memory.AudioData.Read`. The source calls the `read` as written (`Memory.AudioData.ReadAsWritten`, see Findings), with which a player could play frames that were never written.
- Memory.AudioData.Write, Memory.AudioData.Read and Memory.AudioData.ReadAsWritten require `frameCount` to be at most the buffer's frame count. With a shorter buffer, the loops at AudioNodes/Sources/AudioData.swift:38 and :58 keep making empty copies and never end; that case is not modelled.
- Memory.AudioData.Write, Memory.AudioData.Read and Memory.AudioData.ReadAsWritten take `Int.max` as the frame limit of each copy. AudioNodes/Sources/AudioData.swift:40 and :60 call `Copy` without `framesMax`, which AudioNodes/Sources/Utilities.swift:150 gives no default; the default `.max` is that of the earlier AudioNodes/Utilities.swift:126. The `read` Finding rests on this reading.
- LegacyMixer.VolumeControl.Filter requires `transitionFrames <= frameCount`. With a shorter cycle, `UInt(frameCount - transitionFrames)` at AudioNodes/Mixer.swift:62 traps, after the loop above it has scaled `transitionFrames` frames, more than the cycle has; that case is not modelled.
- Mixer.Mixer.Render and Mixer.Mixer.RenderAndMix require `frameCount` to fit the scratch buffer (4096 frames, AudioNodes/Sources/Mixer.swift:138) and the output to have no more channels than it. The source checks neither, and `_renderAndMix` (AudioNodes/Sources/Mixer.swift:162-171) would read and write past `_scratchBuffer`; that case is not modelled.
- Meters.Meter.Monitor and Offline.OfflineProcessor.constructor require a positive frame count and divisor. The source would trap or divide by zero without them.
- Queue.QueuePlayer.SetTime sets the pending index once, after the walk. The source sets it during the walk; the final state is the same.
- FileReader.Reader.Store stores the block before it fixes `exactTotalFrames`, where the source does the reverse. Nothing reads the two in between.
- Queue.QueuePlayer.Time and Queue.QueuePlayer.Duration carry no contracts of their own. What they mean is stated by `Queue.TimeAt`, `Queue.PlacementTime` and `Queue.AtEndTimeIsDuration`.
- Memory.MemoryPlayer.Read pads from `result` as written. With a positive offset this leaves the offset's worth of the tail unpadded, but the source only calls it with offset 0.
- Waveforms.FromHex slices a sequence of characters into pairs. Swift slices a `String` by `Character`, that is by grapheme cluster, so the two differ on input that is not ASCII.

## Findings

| source | as written | input that shows it | evidently intended | confidence | as-written member | corrected member |
|---|---|---|---|---|---|---|
| AudioNodes/Sources/AudioData.swift:58-62 | each copy of `read` is bounded by the chunk and the output, not by the frames written | one-second chunks of 4 frames, 1 frame written, a read of 4: `framesRead` becomes 4, past `framesWritten` | a read never passes the frames written | not executed | Memory.AudioData.ReadAsWritten, Memory.ReadPastWritten | Memory.AudioData.Read, Memory.ReadAmount |
| AudioNodes/Sources/Player.swift:274-287 | the `time$` setter tests `time == 0` before looking for the current item | two items of 1 s, seek to 0 or to 1 s: no item is made current and the old index stays | the item whose span holds the time becomes current | not executed | Queue.Placement, Queue.SetTimeAsWrittenMisses | Queue.QueuePlayer.SetTime, Queue.PlacementCurrent |
| AudioNodes/Sources/OfflineProcessor.swift:26-27 | every pull asks for `numRead` frames right after setting it to 0 | a 1000-frame source with a 441-frame scratch buffer: nothing is written and `noErr` is returned | each pull asks for a whole scratch buffer | not executed | Offline.OfflineProcessor.ProcessAsWritten, Offline.AsWrittenProcessesNothing, Offline.AsWrittenExample | Offline.OfflineProcessor.Process, Offline.ProcessedAll |

# Proofs about the native shell

This project models the stateful core of the native C shell and proves what its parts keep over whole
runs. Each module follows one source component. Where the source updates a structure in place, a class
does the same and its methods are proved equal to functions on a value (`Value()`), so that the run
theorems, which speak about the functions, speak about the methods too. Where two threads share state,
a state machine takes the sections one thread can run without interruption as its steps, and the
theorems hold for every interleaving: a run is any list of steps, and a step that is not enabled does
nothing.

* **Session-switch video protocol** (`AuSnapshot`, `VideoScan`, `VideoCore`, `VideoTenure`,
  `SwitchMachine`, `SwitchInvariant`, `SwitchCache`, `DecoderOwnership`, `SwitchBarrier`,
  `SwitchExample`). Four RDP
  workers deliver access units (AUs) while the SDL thread moves ownership, arms caches, reconnects
  hidden slots and replays. The SDL operations are cut at every point where a worker can take
  `video_lock`; what an enclosing C function still has to do is kept in a small stack of pending acts.
  The decoder is any object for which a seed AU makes earlier input irrelevant.
* **Audio ring** (`AudioSpsc`, `AudioIntegrity`, `AudioRing`, `AudioJitter`, `JitterWindow`,
  `AudioTarget`). One producer, one consumer, every load and store of a shared cursor, generation or
  flag a step of its own, 32-bit wrapping cursors, two boundary channels, trims,
  the jitter controller and the delay target both threads move.
* **Camera** (`H264Annexb`, `CameraStream`, `CameraChain`, `Capture`, `CaptureTenure`,
  `CaptureSafety`, `CaptureGates`). The Annex-B scanner (ITU-T H.264, Annex B), AVC conversion, the gated picture
  queue, and the ownership and credit protocol between camera worker, RDP callbacks and control thread.
* **Input** (`EventQueue`, `EventSweep`): the ordered event table and the sweep over all devices that
  justifies its publication bound.
* **Volume** (`LunaVolume`, `LunaClient`): optimistic cache, one set and one get call in flight. The class
  keeps the program's own fields; each of its callbacks, run alone, takes exactly the steps of the protocol
  it appends to its ghost `trace`, and the interleavings of the two threads are runs of the protocol.
* **Conversions** (`InputPcm`, `NativeJson`, `JsonScan`): the microphone resampler in closed form and the
  JSON scanner (RFC 8259) whose two entry points agree.

Records that the program does not keep (arrivals, feeds, logs, unbounded cursor values, issue records)
are fields marked as such in the doc comments; no step of the program reads them.

Facts that came out of the proofs and that the comments of the source do not say:

* The cache of the slot on screen is never armed between two SDL operations, and that slot is never
  suppressed, so the `active->suppressed` branch of `native/src/native_streaming_transition.c:85` cannot
  be taken.
* `native/src/luna_volume.c:114` checks the token of a getVolume reply but not `refresh_in_flight`. If a
  stalled get cannot be cancelled and its replacement is refused without changing the token, the old
  reply passes every gate and overwrites a confirmed edit (`StaleReadingGetsThrough`). The comment
  there says that such a reply writes nothing; the code is modelled as it is. Exactly when a reading is
  written over an edit it does not know is settled by what can be seen before the reply comes: the get
  whose token the loop still holds has been given up, is still owed, and is older than the newest capture
  (`Exposed`, `IncoherentExactly`). It cannot happen if every refused getVolume clears the token
  (`CoherentIfRefusalsClear`).
* The microphone gate has no owner epoch: a packet collected before the foreground went away and came
  back is still submitted, a camera picture is not (`PcmAwayAndBack`, `SubmittedInTenure`).
* The 10 s jitter window is measured on a 32-bit clock. In a run it holds after an added sample exactly
  when the clock has lapped no live sample, or only the one a full table drops; a block 2^32 + 20 ms after
  the one before passes for no gap and breaks it (`WindowBound`, `WindowLapped`).
* AVC to Annex-B conversion keeps the NAL list exactly when no NAL holds an embedded start code
  (`ConversionKeepsNals`, `EmbeddedCodeSplits`), which section 7.4.1 of ITU-T H.264 guarantees.

## Model

| member | source | states |
|---|---|---|
| SwitchBarrier.HandoffBarrier | native/src/native_switch_handoff.c:58-128 | in every interleaving, from the moment an armed slot gets the screen, what the decoder is given is exactly that connection's arrivals from the newest cached seed on, in order and without a gap, through wait, replay and live phase, until it loses the screen, its connection, its codec or stops |
| SwitchExample.BarrierHappens | native/src/native_switch.c:119-135 | for every seed AU and plain AU behind it there is a run, from the first connect through a deferred switch, that meets all of the barrier's hypotheses, with the plain AU arriving while the replay is due; after the replay the decoder has had these two and nothing else |
| SwitchBarrier.WaitFeedsNothing | native/src/native_rdp_video.c:188-201 | between the publication of the new active index and the replay no AU of any session reaches the decoder |
| SwitchBarrier.StepChain | native/src/native_rdp_video.c:168-327 | any single step of any thread extends the new owner's chain by its next AU or leaves it alone |
| SwitchBarrier.ReplayStarts | native/src/native_switch_recovery.c:67-105 | a replay of a ready and quiet cache that nothing stops feeds precisely the arrivals from the newest seed on and leaves slot and decoder matched |
| SwitchCache.RunTrue | native/src/au_snapshot.c:37-75 | in every run a slot's seeded cache is the newest stretch of its connection's arrivals, a seed and then valid non-seeds under the slot's codec; a disarmed or unseeded cache is empty; a terminal session is stopped |
| SwitchInvariant.SlotRule | native/src/native_switch.c:41-143 | in every run, between SDL operations: no slot is both pending and suppressed, an armed slot with a session is one of the two, the slot on screen is neither and is disarmed |
| SwitchInvariant.LiveNeverCached | native/src/native_rdp_video.c:189-198 | between SDL operations an AU of the session on screen never goes into its own cache |
| SwitchInvariant.ExecInv | native/src/native_switch_recovery.c:22-157 | every act of backgrounding, hidden reconnect, preparation, handoff, tick and stop keeps the slot rule together with what the enclosing functions still rely on |
| SwitchInvariant.StartInv | native/src/native_switch_navigation.c:61-203 | every SDL operation that begins from a rule-keeping state keeps it |
| SwitchInvariant.ApplyInv | native/src/native_session.c:87-264 | any step of a worker or of the SDL thread keeps it |
| DecoderOwnership.DecoderHandedOnSeeds | native/src/native_rdp_video.c:217-262 | in every run, on one open decoder, an AU from another connection or another codec than the one before it is a decoder seed |
| DecoderOwnership.OnScreenFeeds | native/src/native_rdp_video.c:189-201 | in every run only the slot on screen, under its current connection and with its cache disarmed, feeds the decoder |
| DecoderOwnership.ClaimFits | native/src/native_rdp_video.c:217-281 | after taking over, closing or opening, the decoder belongs to the feeding slot and codec and is new, reset by the AU or already following that slot |
| VideoTenure.ShownReaches | native/src/native_rdp_video.c:202-327 | an AU of the slot on screen that may enter the decoder enters it, in order, unless the session or the program stops |
| VideoTenure.ReplayDelivers | native/src/native_switch_recovery.c:90-96 | a replay that is not cut short hands over the whole cache in order and ends owning the decoder |
| VideoCore.Video.IngestLocked | native/src/native_rdp_video.c:168-327 | the routing of one AU: cached while armed, dropped off screen, otherwise fed or terminal |
| VideoCore.Video.IngestAu | native/src/native_rdp_video.c:329-346 | a codec change empties an armed cache before the AU is routed |
| VideoCore.Video.BitmapUpdate | native/src/native_rdp_video.c:69-137 | the bitmap path up to its unlock: which slot, canvas and decoder it may touch |
| VideoCore.Video.ReportTerminal | native/src/native_rdp_state.c:40-71 | the first terminal event of a connection decides, and stops the slot or the program |
| VideoCore.Video.SnapshotReplay | native/src/native_switch_recovery.c:67-105 | the loop over the cached entries equals the recursive replay, cut short at the first stop |
| VideoCore.Replay | native/src/native_switch_recovery.c:67-105 | a replay always takes the cache away and touches no other slot, owner index, epoch, codec or size |
| VideoCore.Ingest | native/src/native_rdp_video.c:168-327 | an ingest touches only its own slot's bookkeeping and the shared decoder, and a disarmed cache stays as it is |
| AuSnapshot.Snapshot.Arm | native/src/au_snapshot.c:10-23 | arming drops what was cached and, given memory, leaves an armed empty cache |
| AuSnapshot.Snapshot.Reset | native/src/au_snapshot.c:25-35 | resetting leaves a disarmed empty cache |
| AuSnapshot.Snapshot.AppendAu | native/src/au_snapshot.c:37-71 | buffer and entry table implement the append on the list of AUs, with its voids on malformed or oversize input |
| AuSnapshot.HeldUsed | native/src/au_snapshot.c:58-68 | the entries tile the used bytes: their lengths add up to the write position |
| AuSnapshot.ReadyIsSuffix | native/src/au_snapshot.c:37-75 | a cache filled from any stream that is seeded holds byte for byte the AUs since the newest seed, all valid, and is ready |
| AuSnapshot.ReplayEqualsStream | native/src/native_switch_recovery.c:65-66 | for any decoder whose seed resets state, decoding from a seed on equals decoding the whole stream |
| AuSnapshot.ReadyCacheDecodes | native/src/native_switch_recovery.c:65-105 | a ready cache brings any such decoder to the state the whole stream would have |
| AudioIntegrity.RingIntegrity | native/src/audio_pipeline_source.c:108-114 | in every interleaving, across 32-bit wrap: at most 65536 frames are queued, every converted frame is the one produced at its index, each at most once and in order, and accepted = converted + skipped + queued |
| AudioIntegrity.NoBoundaryCrossed | native/src/audio_pipeline_source.c:116-157 | in every interleaving a frame is converted before a format change or talkspurt is applied exactly when it was produced before it, also with several pending and with new boundaries published between the load of a boundary and the store of the read cursor |
| AudioIntegrity.OnlyForward | native/src/audio_pipeline_source.c:108-114 | no step moves the reader back or rewrites produced frames, conversions or published boundaries |
| AudioIntegrity.TrimLeaves | native/src/audio_pipeline_source.c:159-180 | of the frames queued when the trim loaded the write cursor it leaves the smaller of them all and the kept length; for every target of 40 to 260 ms and every rate up to 192 kHz a ring full at that load loses frames |
| AudioIntegrity.AdvanceBase | native/src/audio_pipeline_source.c:108-114 | the 32-bit distance test advances to a boundary ahead of the reader and ignores one behind it, whatever the wrap |
| AudioIntegrity.LoadBoundaryInv | native/src/audio_pipeline_source.c:117-124 | a boundary loaded after its generation is no earlier than the boundaries of all generations up to it, and still is when the producer has moved the channel on before the read cursor is stored |
| AudioIntegrity.WriteInv | native/src/audio_pipeline_source.c:703-724 | the cell the producer writes next holds no queued frame and none written in this push |
| AudioIntegrity.StoreInv | native/src/audio_pipeline_source.c:256-267 | the frames a conversion took are the produced ones and lie between the applied and the unapplied boundaries |
| AudioIntegrity.ApplyInv | native/src/audio_pipeline_source.c:235-272 | every step of either thread keeps cursors, ring, boundary channels and log in order |
| AudioRing.Ring.Push | native/src/audio_pipeline_source.c:679-729 | the chunked copy with mono duplication fills what fits from the write cursor on and reports the rest |
| AudioRing.Ring.CopyRun | native/src/audio_pipeline_source.c:703-724 | one stretch up to the ring end writes its frames and nothing else |
| AudioRing.Ring.AdvanceReadCursor | native/src/audio_pipeline_source.c:108-114 | known by their low 32 bits only, a boundary up to a ring ahead of the reader is reached exactly, one behind it by less than 2^32 - 65536 frames never moves the reader back, and one further ahead than a ring is ignored |
| AudioRing.Ring.TrimToTarget | native/src/audio_pipeline_source.c:159-180 | the queue left behind, the dropped count, the cleared request and the counter |
| AudioRing.StepsWrite | native/src/audio_pipeline_source.c:703-724 | the machine's copy steps write exactly what the in-place loop writes |
| AudioJitter.PercentileIsNearestRank | native/src/audio_jitter.c:69-82 | for every sorted permutation of the live buckets the reported percentile is 5 ms times its nearest-rank 95 % element |
| AudioJitter.WindowBound | native/src/audio_jitter.c:59-99 | in every run of arrivals, gaps, resets and discontinuities under a monotone clock: after each arrival that adds a sample all live samples are at most 10000 ms old exactly if the 32-bit clock has lapped no sample live before, or only the oldest of a full table |
| AudioJitter.WindowHolds | native/src/audio_jitter.c:59-99 | it holds after every such arrival of every run in which each comes less than 2^32 - 10000 ms after the newest live sample |
| AudioJitter.WindowLapped | native/src/audio_jitter.c:62 | a run of three arrivals that keeps a sample for more than 2^32 ms |
| AudioJitter.UpdateLegal | native/src/audio_jitter.c:101-193 | every decision stays in 40 to 260 ms, a raise raises, a decay gives up at most 10 ms, a talkspurt is announced exactly after a gap over 500 ms |
| AudioJitter.DecaysApart | native/src/audio_jitter.c:176-187 | under a monotone clock two decays are at least 5000 ms apart, whatever happens between them |
| JitterWindow.Jitter.AddSample | native/src/audio_jitter.c:84-99 | the circular table holds the added window and the histogram counts every bucket of it |
| JitterWindow.Jitter.RemoveOldest | native/src/audio_jitter.c:47-57 | the oldest sample goes and the histogram follows |
| JitterWindow.Jitter.ExpireOld | native/src/audio_jitter.c:59-67 | the loop drops the stale front of the window |
| JitterWindow.Jitter.Percentile | native/src/audio_jitter.c:69-82 | the scan of the histogram gives the percentile of the window |
| JitterWindow.Jitter.Update | native/src/audio_jitter.c:101-193 | the update in place equals the decision function |
| AudioTarget.TargetBounded | native/src/audio_pipeline_source.c:49-75 | in every interleaving of controller, format change and underrun handler the target stays in 40 to 260 ms |
| AudioTarget.DecayYieldsToRaise | native/src/audio_pipeline_source.c:71-75 | a decay takes effect exactly when the consumer has not raised the target since the producer read it |
| AudioTarget.ConsumerOnlyRaises | native/src/audio_pipeline_source.c:49-56 | the underrun handler never lowers the target and ends at what it wanted or above |
| H264Annexb.FindPrefix | native/src/h264_annexb.c:110-119 | the first start code at or after a position, three bytes or four |
| H264Annexb.ScanAnnexb | native/src/h264_annexb.c:121-158 | the scan loop computes the summary of the NAL list |
| H264Annexb.NoteAllMeaning | native/src/h264_annexb.c:13-39 | the flags and the count say which NAL types the list holds |
| H264Annexb.IdrAfterSetsSeeds | native/src/h264_annexb.c:31-35 | an IDR after both parameter sets makes the list seed a decoder |
| H264Annexb.SplitCodeFree | native/src/h264_annexb.c:97-158 | no NAL of a scan contains a start code |
| H264Annexb.SplitConcat | native/src/h264_annexb.c:97-158 | scanning a concatenation at a start code gives the NALs of both parts in order, up to the one zero a three-byte code absorbs |
| H264Annexb.ConcatTypes | native/src/h264_annexb.c:97-158 | in particular the NAL types of both parts in order |
| H264Annexb.AvcAnnexbSize | native/src/h264_annexb.c:41-85 | the length walk validates the NALs and sums the output length |
| H264Annexb.AvcToAnnexb | native/src/h264_annexb.c:171-204 | the conversion writes start codes and NALs in place and nothing past its length |
| H264Annexb.ToAnnexbLength | native/src/h264_annexb.c:41-85 | the output is as long as the input |
| H264Annexb.RoundTripNals | native/src/h264_annexb.c:171-204 | scanning converted code-free NALs gives them back |
| H264Annexb.ConversionKeepsNals | native/src/h264_annexb.c:171-204 | the conversion keeps the NAL list exactly when no NAL has an embedded start code |
| H264Annexb.ConversionKeepsSummary | native/src/h264_annexb.c:121-204 | then it also keeps every flag and the count |
| H264Annexb.EmbeddedCodeSplits | native/src/h264_annexb.c:171-204 | a NAL with an embedded start code comes back in two pieces |
| CameraStream.Stream.Ingest | native/src/camera_h264_stream.c:191-243 | one captured picture through sequence check, scan, parameter sets, gate and queue |
| CameraStream.Stream.Enqueue | native/src/camera_h264_stream.c:150-189 | the bounded circular queue takes the picture, with cached sets in front of an IDR that lacks them |
| CameraStream.Stream.CacheParameterSets | native/src/camera_h264_stream.c:114-148 | both sets are replaced or, without memory, neither |
| CameraStream.Stream.Pop | native/src/camera_h264_stream.c:258-267 | the oldest picture goes |
| CameraStream.Stream.Peek | native/src/camera_h264_stream.c:245-256 | the oldest picture |
| CameraStream.Stream.Reset | native/src/camera_h264_stream.c:40-60 | nothing is queued, cached or seeded |
| CameraStream.PrependedSetsSeed | native/src/camera_h264_stream.c:150-189 | an IDR with the cached sets prepended rescans as a valid AU that seeds a decoder |
| CameraStream.IngestKeepsInv | native/src/camera_h264_stream.c:191-243 | every queued IDR seeds a decoder on rescan, and a seeded stream holds both sets |
| CameraChain.EveryRunOk | native/src/camera_h264_stream.c:191-267 | what every run of ingests, pops and resets keeps |
| CameraChain.PoppedChain | native/src/camera_h264_stream.c:191-267 | in every run each popped non-IDR picture follows a popped IDR with consecutive sequence numbers and every picture in between queued |
| CameraChain.WaitsBounded | native/src/camera_h264_stream.c:84-93 | fewer than eight waits in a row end without a sample error |
| CameraChain.EightAnswers | native/src/camera_h264_stream.c:84-93 | of any eight consecutive results that neither queue nor recover one is a sample error |
| CaptureSafety.OneCameraAdvertised | native/src/capture_camera_worker.c:74-113 | in every run a camera is advertised exactly on the foreground slot that has session, permission, profile and device, and at no moment have the servers been told of two |
| CaptureSafety.SubmittedInTenure | native/src/capture_camera_worker.c:176-196 | in every run a picture is submitted only under the foreground, owner epoch and slot generation it was ingested under, away-and-back included, and under the same stream start unless a stream number has been used twice on that slot |
| CaptureSafety.AnswersWithinRequests | native/src/capture_slots.c:154-165 | in every run the accepted pictures and errors since a stream start never exceed its sample requests |
| CaptureSafety.SubmitProper | native/src/capture_camera_worker.c:182-185 | the submission gate admits only pictures of the current tenure |
| CaptureGates.NothingPastClosedGates | native/src/capture_slots.c:42-63 | in every run, at every call and so inside every locked section: never are two capture gates open, every picture goes to a session whose gate is open, and a device is added only there, after the old gate was closed and the new one opened |
| CaptureGates.GateAtForeground | native/src/capture_slots.c:32-117 | in every run, whenever the lock is free: the gate is open exactly at the foreground slot, if that has a session, and a microphone packet that passes its check finds it open |
| CaptureGates.ForegroundHandsOver | native/src/capture_slots.c:32-71 | a foreground change fails every other session's open credit as far as its mailbox takes the error, leaves only the new owner's gate open, moves the epoch and advertises exactly the wanted device |
| CaptureSafety.ForegroundGood | native/src/capture_slots.c:32-71 | a foreground change keeps device flags, credits, streams and generations in order and submits nothing |
| CaptureGates.SessionReplaced | native/src/capture_slots.c:73-117 | publishing another session ends the old stream and credit and moves the slot generation; publishing the same one moves only the permissions; the gate follows the foreground, and no other slot changes but for its device |
| CaptureSafety.SessionGood | native/src/capture_slots.c:73-117 | a session publication keeps device flags, credits, streams and generations in order and submits nothing |
| CaptureGates.DestroyWithdraws | native/src/capture_redirect.c:171-189 | the shutdown leaves no session, no open gate and no advertised device |
| CaptureGates.ConfigMovesAll | native/src/capture_redirect.c:154-161 | a new profile applied after the withdrawal advertises nothing, moves every slot generation and leaves sessions, gates and streams as they are |
| CaptureSafety.PcmAwayAndBack | native/src/capture_audio_worker.c:67-81 | the microphone gate holds a packet back while its slot is away and lets it through once it is back |
| CaptureTenure.UpdateAir | native/src/capture_camera_worker.c:74-103 | the two passes leave a device advertised exactly where wanted, removals before the addition |
| Capture.Redirect.FailCreditLocked | native/src/capture_slots.c:15-30 | a credit is used up only by an error the mailbox takes |
| Capture.Redirect.UpdateAvailability | native/src/capture_camera_worker.c:74-103 | the two loops in place |
| Capture.Redirect.SetForegroundSlot | native/src/capture_slots.c:32-71 | the foreground change in place |
| Capture.Redirect.SetSlotSession | native/src/capture_slots.c:73-117 | the publication in place |
| Capture.Redirect.CameraStarted | native/src/capture_slots.c:119-138 | a stream start in place |
| Capture.Redirect.CameraStopped | native/src/capture_slots.c:140-152 | a stream stop of the current generation only |
| Capture.Redirect.SampleRequested | native/src/capture_slots.c:154-165 | at most one credit |
| Capture.Redirect.StreamTarget | native/src/capture_camera_worker.c:52-72 | the loop finds the requested slot and its tenure |
| Capture.Redirect.SubmitHead | native/src/capture_camera_worker.c:176-196 | the gated submission of the queue's head |
| Capture.Redirect.SetPhysicalAvailable | native/src/capture_camera_worker.c:105-119 | a stopping redirect never brings the device back |
| Capture.Redirect.Shutdown | native/src/capture_redirect.c:176-189 | the shutdown loop in place |
| EventQueue.EventRing.Push | native/src/input_event_queue.c:17-42 | the in-place shift is the ordered insertion; overflow clears and blocks |
| EventQueue.EventRing.Pop | native/src/input_event_queue.c:55-64 | the head, if it is published and of the asked kind |
| EventQueue.EventRing.GetNextKind | native/src/input_event_queue.c:44-53 | what the consumer may see next |
| EventQueue.EventRing.TakeReset | native/src/input_event_queue.c:66-70 | takes the pending reset |
| EventQueue.InsertPlace | native/src/input_event_queue.c:31-41 | an event goes behind everything not newer and before everything newer |
| EventQueue.InsertOrdered | native/src/input_event_queue.c:31-41 | inserting keeps the table ordered by time |
| EventSweep.GloballyOrdered | native/src/input_evdev.c:585-607 | in every run over any number of devices: between resets events come out in one order of time with ties in arrival order, none from before the reset, and until history is lost none missing and none twice |
| EventSweep.SweepsOk | native/src/input_evdev.c:276-305 | reading a device until it is empty or gives an event not older than the sweep keeps every unread event at or after the bound to be published |
| LunaVolume.WritesCoherent | native/src/luna_volume.c:110-136 | in every run a reading answered by the call in flight reaches the cache only if it was asked for after the newest edit and after that edit was answered, cancelled or refused |
| LunaVolume.IncoherentExactly | native/src/luna_volume.c:110-136 | in every run, whatever the UI thread does between a reply and its locked write: a reading is written exactly if it passes the gate, and then incoherently exactly if the state the reply came in was exposed to it |
| LunaVolume.WritesExactly | native/src/luna_volume.c:110-136 | in every run each write is coherent exactly if its reply did not come in an exposed state |
| LunaVolume.CoherentIfRefusalsClear | native/src/luna_volume.c:240-247 | if every refused getVolume clears the token, every write of the run is coherent, whatever the cancellations do |
| LunaVolume.CoherentWhileCancelsWork | native/src/luna_volume.c:101-136 | no failed cancellation of a get is enough for every write to be coherent |
| LunaVolume.StaleReadingGetsThrough | native/src/luna_volume.c:221-248 | the run that breaks it: a get that cannot be cancelled, a refused replacement, a late reply |
| LunaVolume.OneCallOfEachKind | native/src/luna_volume.c:74-82 | in every run at most one set and one get are owed that have not been given up, and at most one dispatch is queued |
| LunaVolume.EditsAreSettled | native/src/luna_volume.c:148-198 | with nothing waiting and no set in flight, the newest edit has been settled |
| LunaClient.Client.Set | native/src/luna_volume.c:369-391 | the clamp, the locked edit under a 32-bit generation and the one queued dispatch are the edit and the two UI steps of the protocol |
| LunaClient.Client.SendSet | native/src/luna_volume.c:161-180 | the exchange with -1 and the call are the points of the protocol's send, for whatever the bus answers |
| LunaClient.Client.Dispatch | native/src/luna_volume.c:186-198 | the dispatch with its stall recovery is one callback of the protocol |
| LunaClient.Client.RefreshVolume | native/src/luna_volume.c:200-248 | the poll, from the stalled set over the chained one, the gate and the locked capture to the get call, is one callback of the protocol |
| LunaClient.Client.SetReplied | native/src/luna_volume.c:148-159 | a set reply with the chained send is one callback of the protocol; a superseded one changes nothing |
| LunaClient.Client.GetReplied | native/src/luna_volume.c:110-136 | a get reply with its gated write is one callback of the protocol as long as the 32-bit generations have not lapped |
| LunaClient.LappedExactly | native/src/luna_volume.c:125 | the 32-bit comparison of the generations is wrong exactly after a positive multiple of 2^32 edits |
| LunaClient.FieldsSettled | native/src/luna_volume.c:65-95 | in every sequence of callbacks: with -1 pending and no set in flight the newest edit is settled, at most one dispatch is queued, and the cache was written coherently but for exposed replies |
| InputPcm.Converter.PushFrame | native/src/audio_input_pcm.c:109-141 | after every input frame the output is the closed form on everything heard, and packets plus remainder are its gained frames |
| InputPcm.Converter.Push | native/src/audio_input_pcm.c:104-143 | the same for a buffer, however the input is cut |
| InputPcm.Converter.EmitFrame | native/src/audio_input_pcm.c:47-56 | every packet is full and no frame is lost or doubled |
| InputPcm.Converter.Interpolate | native/src/audio_input_pcm.c:119-134 | the step equals the exact interpolation, so its clamp is never taken |
| InputPcm.CountBounds | native/src/audio_input_pcm.c:118 | output k is due after n frames exactly when k * rate <= (n - 1) * 44100 |
| InputPcm.BetweenNeighbours | native/src/audio_input_pcm.c:121-134 | both channels of each value before gain lie between their two input samples |
| InputPcm.ChunksDoNotMatter | native/src/audio_input_pcm.c:104-143 | two converters that have heard the same, cut however, have put out the same |
| InputPcm.Identity | native/src/audio_input_pcm.c:37-45 | at 44100 Hz and 0 dB the converter is the identity on 16-bit frames |
| InputPcm.GainRounds | native/src/audio_input_pcm.c:27-45 | the gain is the exact product rounded to nearest, held within 16 bits |
| NativeJson.LookupAgrees | native/src/native_json.c:162-190 | on every text the validator accepts, a key under 64 bytes is found at the first immediate member that decodes to it, and not found exactly when there is none |
| NativeJson.DepthOnlyLimits | native/src/native_json.c:130-160 | a value that scans at some depth scans to the same end at every smaller depth |
| NativeJson.Utf8RoundTrip | native/src/native_json.c:67-84 | the escape encoder's bytes decode to the code point they came from |
| JsonScan.ReadString | native/src/native_json.c:36-102 | with a buffer and without, the reader ends at the same place; the buffer gets the decoded text and its terminator exactly when both fit |
| JsonScan.NumberEnd | native/src/native_json.c:108-128 | the number loop against its specification |
| JsonScan.ValueEnd | native/src/native_json.c:130-160 | the recursive scan with its member loop |
| JsonScan.ValidateObject | native/src/native_json.c:162-167 | the validator |
| JsonScan.FindValue | native/src/native_json.c:169-190 | the lookup loop with its 64-byte field buffer and second reading of long names |

## Left out

- SDL, LVGL, V4L2, ALSA, LS2, NDL, miniaudio and libopus calls: foreign code; their answers are free choices of a step.
- The RDP library: its calls are trace entries with free results; its stream generation numbers are not assumed to be fresh, which is why `SubmittedInTenure` names a repeated number as the one way a stream start can differ.
- HUB UI, presentation, textures, splash, mixer drawing and the HUB-return canvas: no invariant beyond the canvas slot and epoch that `VideoCore` keeps; a HUB-return promotion can leave bitmap canvas and decoder open together and no claim excludes it.
- The recent-video and live-feed time holds of the bitmap path are free flags of a bitmap step; what happens after its unlock is a separate worker step (`FrameShown`, `WorkerFails`).
- SDL timers and deadlines of the switch tick are a free `timedOut` choice; the watchdog is only its reconnect.
- Stopping a slot and joining its worker are one step, as no callback of that worker can follow the join.
- `connect_epoch`, the audio generations and the slot generations are unbounded; the source lets them wrap after 2^32 or 2^64 changes.
- The volume protocol counts edits without bound; the class keeps 32 bits of them, and `LappedExactly` says when the two differ.
- Relaxed and acquire/release atomics are modelled as sequentially consistent.
- The peak meters, fade envelopes, duck ramp, rate correction and converter ratio: floating point without an exact property. The converter takes any number of frames up to what is contiguous.
- Format application reads generation, rate and boundary as separate atomics, so a frame can briefly be converted at a newer rate; only the boundaries are claimed.
- AudioRing.Ring.Push: does not include the arrival controller, which is `JitterWindow.Jitter.Update` and, for the shared target, `AudioTarget`.
- LunaClient.Client.GetReplied: promises nothing once the generations have lapped, and does not parse the payload; a reading is either there or not, and every callback carries a message.
- An evdev event's timestamp and its readability are one step; the kernel makes a packet readable at its SYN report, after its events were stamped.
- A changed endpoint is a choice of a HUB connect and an operation of its own on a stopped slot; what else a saved or deleted profile changes is left out.
- InputPcm.Converter.Push: the 64-bit products of the source do not overflow within 69 years of input at 192 kHz, so integers are unbounded here.
- The gain of the converter is a parameter; the source derives it from decibels in floating point.
- `native_json_read_u16`, `native_json_read_i16` and `native_json_read_bool`: short readers on top of the lookup.
- The kernel resynchronisation path of the evdev reader, hotplug and device removal: a removed device simply stops giving events.
- The HEVC scanner beyond its verdict, `native/src/hevc_annexb.c`: a smaller copy of the H.264 one.
- Configuration paths, file storage, launch parsing, key tables, hit tests, status tables and logging.

# A verified model of the CPA profiler

CPA is a continuous profiler. This project models the parts of it that carry hard state and proves what they promise.

**The profile store.** Frames and stacks are interned to ids (`Interner.dfy`), counts go into a one-second time wheel
(`TimeWheel.dfy`, with its meaning in `Wheel.dfy`) whose buckets own open-addressing hash tables (`CountTable.dfy`), and ready buckets
are written as binary records (`RecordCodec.dfy`, `TornFiles.dfy`) beside two text dictionaries (`Dictionary.dfy`) through a staging buffer
(`ZstdStream.dfy`, `StoreFiles.dfy`). `Store.dfy` says what the store means, `StackMap.dfy` is the mutable store that refines it,
`StoreRuns.dfy` and `ReadBack.dfy` carry the results over whole runs up to the end-to-end theorem, `LostHandOuts.dfy` says what a failed hand-out
does to them, `StorePlan.dfy` and `StoreDriver.dfy` bring the theorem down to the mutable store, the memory it meets and the bytes that left
its buffers, and `Split.dfy` is the re-interning of selected records into a new store.

**The pause and restart protocol.** Callback gates (`CallbackGates.dfy`), the single-producer single-consumer ring
(`SingleQueue.dfy`), the unwinder's parking handshake (`UnwinderParking.dfy`, with its runs in `UnwinderRuns.dfy`), the staged
store rotation (`Rotation.dfy`) and the order in which workers are restored (`RestoreOrder.dfy`). The concurrent ones are state machines
over atomic steps, one per critical section or atomic access; acquire and release pairs count as interleaved atomic steps (sections 5.1.2.4 and 7.17.3 of ISO/IEC 9899:2011). Their theorems are about every run.

**Supporting structures.** The indexed min-heap (`CounterHeap.dfy`) and the pid tracker that lets go of its lock in the middle of its
work (`PidTracker.dfy`, on the heap in `PidHeaps.dfy` and `PidStore.dfy`), how a sample becomes a stack (`StackShape.dfy`), the metadata
frame (`Metadata.dfy`), worker start-up and teardown (`Workers.dfy`), and the interval array (`IntervalArray.dfy`).

Some invariants are stated under a marker from `Markers.dfy`, a predicate that is always true: a proof looks inside them only if it mentions
the marker.

64-bit counts wrap in the model as they do in the source, so that the store theorems hold modulo 2^64 without an assumption about
sums. `Cong` is equality modulo 2^64 and `Wrap` the word that a count is kept in. Memory failures are inputs (`allocOk`, `memory`, `grow` and the like; where none is given, memory suffices), as are
clocks, the answers of the unwinder library, liveness probes and the success of making a directory.

Inputs that the end-to-end theorem speaks about: frames without a newline, fewer than 2^31 operations (hence ids below 2^31), and clock
readings below 2^44 milliseconds.

Where the code does not do what its surroundings suggest, the code is modelled and the exact condition proved:

- A dump without memory for its entries leaves a torn record, and stack.bin is read as recorded exactly when there is none
  (`ReadableIff`); which part of it is read otherwise is stated by `FailedHandOut` (`OneLostHandOut` is the input).
- A second is emitted twice exactly when an addition is placed at or below an emitted second (`EmitsOnceIff`), as after a clock that goes
  back or a flush of everything (`BackwardClockRepeats`, `FullFlushRepeats`).
- A split keeps the end of a record exactly when it does not lie before the first start of the new store (`OutOfOrderMovesEnd`).
- A text of 16384 bytes or more overruns the staging size; the 8192-byte frame cap keeps dictionary lines below it (`Write`, `LineShort`).
- An increment that wraps leaves the heap in order only in the case stated by `Increment` (`WrapDisorders`).
- A pause that meets a stop may wait for ever (`StopStrandsPause`); when it can still end is stated by `WaitEndsIff`.
- A restart may discard samples (`RestartMayDiscard`); which ones is stated by `RestartFrees`, and every sample is disposed of exactly once.
- After a failed rebuild a late sample is unwound without a context, and only then (`LatePushUnwoundWithoutContext`, `NoContextIff`).
- In oneshot mode no restart ever succeeds (`OneshotNeverMoves`).
- The metadata round trip holds if and only if a condition on its arguments holds (`ParseUndoesGenerate`).
- A retire pass that runs out of memory loses the pids it holds, live ones included (`LivePidLost`, `PassGivenUp`); `LivePidReturns` and
  `NoneForgottenIff` say exactly when not.
- After a restart a sample may be finished before the new map has its wheel (`AsideIff`), and is lost when the wheel comes (`LateSampleLost`);
  when such a sample is written all the same, lost or still waiting is stated by `AsideFate` and `StrandedIff`.

`dafny verify dfyconfig.toml` checks the whole project.

## Model

| member | source | states |
|---|---|---|
| `ReadBack.EndToEnd` | src/cli_stackmap_helper/cli_stackmap.c:795-829 | for every run of appends, reversals, resets, finished stacks and timed dumps, with appends and finished stacks failing anywhere for want of memory, ended by a flush of everything, in which every dump gets the memory to hand its entries out: for every second and every list of frames, decoding strmap, idsmap and stack.bin gives, modulo 2^64, exactly the count that an independent reference run put into that (possibly clamped) second |
| `LostHandOuts.FailedHandOut` | src/cli_stackmap_helper/cli_stackmap.c:641-646 | a run in which dumps could not hand their entries out, of which the first left the torn record k, as a reader finds its stack.bin: if only torn records follow, 910 in all at most, they never leave the staging buffer and the reader lists exactly the records before k; otherwise it refuses the file as a whole, and every second and frame list decodes to nothing, as long as fewer than 774082 bytes follow |
| `LostHandOuts.ReadableIff` | src/cli_stackmap_helper/cli_stackmap.c:641-646 | at every point of every run: the reader lists exactly the records of the store if and only if every hand-out that needed memory got it |
| `TornFiles.ReadIff` | src/cli_stackmap_helper/cli_stackmap.c:883-955 | any records, torn and whole, guards apart from each other: the scan of what has left the buffer yields the index of what was recorded if and only if none is torn |
| `LostHandOuts.OneLostHandOut` | src/cli_stackmap_helper/cli_stackmap.c:641-646 | the failing input, at any time: one frame counted once, and no memory at the closing dump. The sample of the last second of the day vanishes, since no guard follows; at any other time the file cannot be read |
| `TornFiles.TornOutcome` | src/cli_stackmap_helper/cli_stackmap.c:883-955 | the same for any list of records: unseen while staged, otherwise refused, since the next marker is taken for a count of at least 64506 entries |
| `TornFiles.SentIff` | src/cli_zstd_helper/cli_zstd_helper.c:91-101 | exactly when nothing of a torn record and its followers has been passed on: only torn ones follow, and they fit the buffer |
| `StoreRuns.RunSync` | src/cli_stackmap_helper/cli_stackmap.c:260-486 | the store simulates the reference run: same frames under construction, same clock, and each logged id stands for the frames of its sample |
| `StoreRuns.RunClosed` | src/cli_stackmap_helper/cli_stackmap.c:558-612 | at every point of every run each stack id in stack.bin has its idsmap line, each frame id of such a line has its strmap line, and no frame or stack has two ids |
| `StoreRuns.RunKeepsCounts` | src/cli_stackmap_helper/cli_stackmap.c:776-829 | in every run what the records hold for a second and an id is what the wheel emitted |
| `StoreRuns.FinalRecords` | src/cli_stackmap_helper/cli_stackmap.c:836-839 | after a flush of everything the records hold what was recorded, per second and id |
| `ReadBack.DecodedIsRecords` | src/cli_stackmap_helper/cli_stackmap.c:855-1130 | reading the three files of a well-formed store back gives what its records hold; frame lists that were never interned decode to nothing |
| `ReadBack.ResolveIsFrames` | src/cli_stackmap_helper/cli_stackmap.c:1213-1228 | through the reloaded dictionaries every id resolves to exactly the frames it was interned for |
| `ReadBack.FrameCountIsCount` | src/cli_stackmap_helper/cli_stackmap.c:420-446 | interning is injective, so that counting by frame list is counting by id |
| `Stores.AppendKeepsOk` | src/cli_stackmap_helper/cli_stackmap.c:260-342 | appending keeps ids dense, unique and closed, and adds the frame cut at 8192 bytes to the stack |
| `Stores.ReverseKeepsOk` | src/cli_stackmap_helper/cli_stackmap.c:344-363 | only frames appended since the last reversal change place, in mirror order |
| `Stores.DoneKeepsOk` | src/cli_stackmap_helper/cli_stackmap.c:465-486 | finishing a stack keeps the store well-formed, and the id counted stands for the stack |
| `Stores.DumpKeepsOk` | src/cli_stackmap_helper/cli_stackmap.c:795-829 | a dump leaves the files closed under reference and the dictionaries complete |
| `Interners.Interner.Intern` | src/cli_stackmap_helper/cli_stackmap.c:381-446 | stacks: finds the id of a known list or gives the next id; refuses exactly when memory for the entry is short and the list is new, changing nothing; when the by-id array cannot grow nothing is entered but the doubled length stays behind |
| `Interners.Interner.InternFirst` | src/cli_stackmap_helper/cli_stackmap.c:291-335 | frames: as for stacks, but the id is given and the frame stands in the hash table before the by-id array grows, so that a failed growth strands it |
| `Interners.Interner.Grow` | src/cli_stackmap_helper/cli_stackmap.c:314-330 | the by-id array doubles and keeps its entries; a failed growth keeps the array with the doubled length recorded |
| `Interners.Current.ReverseIds` | src/cli_stackmap_helper/cli_stackmap.c:344-363 | the swap loop mirrors the part of the array after the last reversal |
| `StackMaps.Append` | src/cli_stackmap_helper/cli_stackmap.c:260-342 | how an append ends, exactly, from memory and the fill of both arrays: appended as `AppendFrame` says; not appended and nothing changed; frame stranded in the hash table by a failed growth; or the array of the stack gone |
| `StackMaps.DoneAt` | src/cli_stackmap_helper/cli_stackmap.c:465-486 | refines `Stores.DoneAt` with the exact condition of every failure: not interned, no bucket, no room in the count table of its second; only a recorded sample clears the stack |
| `StackMaps.ReverseIds` | src/cli_stackmap_helper/cli_stackmap.c:344-363 | refines `ReverseCurrent` |
| `StackMaps.CurrentReset` | src/cli_stackmap_helper/cli_stackmap.c:64-73 | refines `ResetCurrent` |
| `StackMaps.DumpStrmap` | src/cli_stackmap_helper/cli_stackmap.c:558-582 | writes each frame not yet written once, in id order, and leaves nothing staged |
| `StackMaps.DumpIdsmap` | src/cli_stackmap_helper/cli_stackmap.c:584-612 | writes each stack not yet written once, in id order, and leaves nothing staged |
| `StackMaps.DumpDelta` | src/cli_stackmap_helper/cli_stackmap.c:795-829 | refines `DumpReady` and `DumpAll` with hand-outs failing anywhere; both dictionaries have left their staging buffers, and so has stack.bin unless its last record is torn |
| `StoreDriver.PersistedIsFiles` | src/cli_stackmap_helper/cli_stackmap.c:558-670 | the bytes that reached the compressor are exactly the three files of the abstract store as a reader finds them, torn records included |
| `StorePlans.GrowingRunEnds` | src/cli_stackmap_helper/cli_stackmap.c:314-330 | a run loses no array as long as those that it has to enlarge can be enlarged |
| `StoreDriver.LuckyRun` | src/cli_stackmap_helper/cli_stackmap.c:260-486 | with the memory it asks for a run of fewer than 3 * 2^29 calls comes to what its callers want: every frame appended, every finished stack counted |
| `StoreDriver.Drive` | src/cli_stackmap_helper/cli_stackmap.c:260-829 | any sequence of calls on the mutable store, with every failure an input: it breaks off exactly when `Plan`, computed from the inputs alone, loses an array; otherwise it leaves the store, the capacities and the files that `Plan` says |
| `StoreDriver.Profile` | src/cli_stackmap_helper/cli_stackmap.c:260-829 | end to end on the mutable store: the run breaks off exactly when `Plan` says so; otherwise, when the hand-outs succeed, what a reader decodes from the bytes that left the staging buffers is, for every second and frame list, the count of the reference run of the planned operations modulo 2^64 |
| `StoreFiles.OutputFiles.WriteStrLine` | src/cli_stackmap_helper/cli_stackmap.c:558-582 | one strmap line; the file is the encoding of all frames written so far |
| `StoreFiles.OutputFiles.WriteIdsLine` | src/cli_stackmap_helper/cli_stackmap.c:584-612 | one idsmap line, written piece by piece; the file is the encoding of all stacks written so far |
| `StoreFiles.OutputFiles.DumpTable` | src/cli_stackmap_helper/cli_stackmap.c:614-670 | one record, or only its marker and interval when no entries were handed out; the file is the encoding of all records written so far |
| `StoreFiles.OutputFiles.DumpIntervals` | src/cli_stackmap_helper/cli_stackmap.c:776-793 | the flushed intervals in order, then a guard unless the day is over |
| `StoreFiles.LineShort` | src/cli_stackmap_helper/cli_stackmap.c:21-21 | a line of a frame within the cap is shorter than the staging buffer |
| `ZstdStreams.ZstdStream.Write` | src/cli_zstd_helper/cli_zstd_helper.c:65-89 | the stream is the concatenation of all writes; text is staged whole exactly when it is shorter than 16384 bytes, otherwise the recorded size runs past the buffer |
| `ZstdStreams.ZstdStream.WriteBytes` | src/cli_zstd_helper/cli_zstd_helper.c:91-101 | the stream is the concatenation of all writes, the buffer is never overrun, and everything staged is passed on exactly when the block does not fit behind it |
| `ZstdStreams.ZstdStream.WriteDone` | src/cli_zstd_helper/cli_zstd_helper.c:103-118 | whatever portions the compressor takes, all staged bytes reach it in order |
| `RecordCodec.FileRoundTrip` | src/cli_stackmap_helper/cli_stackmap.c:855-1027 | indexing any concatenation of written records lists exactly the non-guards in order, with start, day-wrapped end and an offset from which the same entries are read back |
| `RecordCodec.ScanRoundTrip` | src/cli_stackmap_helper/cli_stackmap.c:883-955 | the scan accepts every written file and yields its index |
| `RecordCodec.RealOnesOrdered` | src/cli_stackmap_helper/cli_stackmap.c:913-942 | the records listed are non-guards, in file order |
| `RecordCodec.RealOnesComplete` | src/cli_stackmap_helper/cli_stackmap.c:913-942 | every non-guard is listed |
| `RecordCodec.EntriesRoundTrip` | src/cli_stackmap_helper/cli_stackmap.c:993-1023 | the entries at the recorded offset are those written |
| `RecordCodec.FetchDumpInfo` | src/cli_stackmap_helper/cli_stackmap.c:855-974 | the stream-scanning loop computes the index on every file, and refuses the file exactly when it is damaged or a list of as many records as it holds gets no memory, which it needs at first and at every 16 * 2^k records |
| `RecordCodec.DumpRecord` | src/cli_stackmap_helper/cli_stackmap.c:976-1027 | reads and aggregates the entries of one record; a round without memory reads nothing, so that each loses an entry at the end; fails exactly when the file is too short for the rest |
| `RecordCodec.AllRounds` | src/cli_stackmap_helper/cli_stackmap.c:993-1023 | with memory throughout, no entry is lost |
| `Dictionary.StrmapRoundTrip` | src/cli_stackmap_helper/cli_stackmap.c:1040-1082 | reloading strmap gives back, under its id, exactly every frame whose line gets memory for its entry and its text, spaces and digits in frames included; with memory throughout, all of them |
| `Dictionary.IdsmapRoundTrip` | src/cli_stackmap_helper/cli_stackmap.c:1084-1130 | reloading idsmap gives back, under its id, exactly every stack whose line gets memory for its entry and for each power of two that its length reaches; with memory throughout, all of them |
| `Dictionary.ReloadStrmap` | src/cli_stackmap_helper/cli_stackmap.c:1040-1082 | the line loop computes the strmap dictionary on every file, with lines failing anywhere for want of memory |
| `Dictionary.ReloadIdsmap` | src/cli_stackmap_helper/cli_stackmap.c:1084-1130 | the line loop computes the idsmap dictionary on every file, malformed lines and lines without memory included |
| `Dictionary.ParseIdList` | src/cli_stackmap_helper/cli_stackmap.c:1096-1118 | the number loop with its doubling array computes the id list or rejects the line, as malformed or for want of room |
| `Bytes.WordRoundTrip` | src/cli_stackmap_helper/cli_stackmap.c:636-659 | a fixed-width word is read back wherever it stands |
| `Bytes.DecRoundTrip` | src/cli_stackmap_helper/cli_stackmap.c:1055-1060 | a printed number is read back and reading stops after it |
| `Bytes.IntRoundTrip` | src/cli_stackmap_helper/cli_stackmap.c:1055-1060 | a printed 32-bit number is read back by atoi, kept in 32 bits |
| `Wheels.RunConserves` | src/cli_stackmap_helper/stackmap_timewheel.c:199-264 | in every run, for every second and id: pending plus emitted is recorded, modulo 2^64 |
| `Wheels.FinalFlushEmitsAll` | src/cli_stackmap_helper/stackmap_timewheel.c:252-264 | after a flush of everything nothing is pending and everything recorded was emitted |
| `Wheels.EmitsOnceIff` | src/cli_stackmap_helper/stackmap_timewheel.c:199-264 | over a run closed by a flush of everything the emitted seconds are strictly increasing if and only if every addition that got a bucket was placed above all seconds emitted before it |
| `Wheels.RunEmitsOnce` | src/cli_stackmap_helper/stackmap_timewheel.c:227-250 | in particular if the clock given to timed flushes never goes back, the closing flush of everything included |
| `Wheels.BackwardClockRepeats` | src/cli_stackmap_helper/stackmap_timewheel.c:227-250 | a clock that goes back lets a second be emitted twice |
| `Wheels.FullFlushRepeats` | src/cli_stackmap_helper/stackmap_timewheel.c:252-264 | a flush of everything leaves the watermark, so a second can be emitted twice |
| `Wheels.DrainExact` | src/cli_stackmap_helper/stackmap_timewheel.c:118-170 | a flush emits exactly the buckets below its limit, each once and in increasing order, and leaves exactly the others |
| `Wheels.RunCountsLate` | src/cli_stackmap_helper/stackmap_timewheel.c:210-215 | the late counter is the wrapped sum of the counts moved by clamping |
| `TimeWheels.RunTotals` | src/cli_stackmap_helper/stackmap_timewheel.c:217-224 | in every run each bucket total agrees with its entries |
| `TimeWheels.PendingTotalIsHeld` | src/cli_stackmap_helper/stackmap_timewheel.c:280-292 | the reported pending total is the sum of the pending entries, modulo 2^64 |
| `TimeWheels.TimeWheel.Add` | src/cli_stackmap_helper/stackmap_timewheel.c:199-225 | on the array of buckets with a count table each: refines `AddSample`, clamping included; how it ends and what becomes of the array is decided by the value of the wheel, the size of the array and the memory met |
| `TimeWheels.TimeWheel.FindOldest` | src/cli_stackmap_helper/stackmap_timewheel.c:118-139 | the position of a least matching second |
| `TimeWheels.TimeWheel.FlushReady` | src/cli_stackmap_helper/stackmap_timewheel.c:227-250 | refines `FlushReady`; each bucket hands out its nonzero entries, or none for want of memory, and is removed |
| `TimeWheels.TimeWheel.FlushAll` | src/cli_stackmap_helper/stackmap_timewheel.c:252-264 | refines `FlushAll` in the same way |
| `TimeWheels.TimeWheel.GetStats` | src/cli_stackmap_helper/stackmap_timewheel.c:280-292 | reports the wrapped sum of the bucket totals and the counters |
| `CountTables.CountTable.FindSlot` | src/cli_stackmap_helper/stackmap_count_table.c:99-115 | probing ends, at the slot of the id or at the hole where it belongs |
| `CountTables.CountTable.Add` | src/cli_stackmap_helper/stackmap_count_table.c:202-230 | the table means the old one with the count added to one id; fails exactly when a new id needs room that cannot be had, changing nothing; the slots double exactly when needed |
| `CountTables.SnugGrows` | src/cli_stackmap_helper/stackmap_count_table.c:190-200 | the slots of a table are a function of its entries |
| `CountTables.CountTable.Rehash` | src/cli_stackmap_helper/stackmap_count_table.c:145-188 | the larger table means the same; a failure changes nothing |
| `CountTables.CountTable.Get` | src/cli_stackmap_helper/stackmap_count_table.c:232-247 | the count of the id, zero when absent |
| `CountTables.CountTable.Reset` | src/cli_stackmap_helper/stackmap_count_table.c:285-300 | clearing the touched slots empties every slot |
| `CountTables.CountTable.TakeItems` | src/cli_stackmap_helper/stackmap_count_table.c:302-346 | hands out the entries once, in the order of first use, and empties the table; fails only for want of memory, changing nothing |
| `CountTables.FreeSlot` | src/cli_stackmap_helper/stackmap_count_table.c:190-200 | with 4 len < 3 cap there is a free slot |
| `CountTables.InsertKeepsOk` | src/cli_stackmap_helper/stackmap_count_table.c:117-132 | an insertion at the probed hole keeps every other id reachable by probing |
| `Items.BumpCounts` | src/cli_stackmap_helper/stackmap_count_table.c:202-230 | adding to one id adds modulo 2^64 to that id and leaves the others alone |
| `Bits.PowerOfTwoIff` | src/cli_stackmap_helper/stackmap_count_table.c:35-38 | the bit trick recognises exactly the powers of two |
| `Bits.MaskIsMod` | src/cli_stackmap_helper/stackmap_count_table.c:102-110 | masking with a power of two less one is the remainder |
| `Splits.SplitPreservesMeaning` | src/cli_stackmap_helper/cli_stackmap.c:1189-1245 | the index of the new store lists the picked records in order; each keeps its start, keeps its end exactly when that is not before the first start listed, and decodes for every frame list to the same 64-bit count as its source record |
| `Splits.DroppedHoldsNothing` | src/cli_stackmap_helper/cli_stackmap.c:672-753 | a picked record that the new index does not list covers no time and decodes to nothing |
| `Splits.OutOfOrderMovesEnd` | src/cli_stackmap_helper/cli_stackmap.c:917-923 | two records picked out of order: the earlier one comes out ending a day later |
| `Splits.PickedMeaning` | src/cli_stackmap_helper/cli_stackmap.c:1207-1237 | what a record meant when it was written it still means after all later records |
| `Splits.RunSplit` | src/cli_stackmap_helper/cli_stackmap.c:1189-1245 | the nested loops compute `Split` |
| `Splits.FramePermuted` | src/cli_stackmap_helper/cli_stackmap.c:1211-1230 | the order in which sorting visits entries does not matter |
| `RingRuns.RunIsFifo` | src/cli_queue_helper/cli_single_queue.c:36-96 | under every interleaving of producer and consumer: popped is a prefix of pushed, every peek saw the item then first, at most size - 1 items wait, and the positions count them |
| `RingRuns.AnswersAreExact` | src/cli_queue_helper/cli_single_queue.c:36-75 | full and empty are reported exactly when true at the moment of the load |
| `RingRuns.NoSlotRace` | src/cli_queue_helper/cli_single_queue.c:50-63 | the slot being read was written and is never the slot being written |
| `RingPositions.NextWraps` | src/cli_queue_helper/cli_single_queue.c:41-45 | mask and remainder wrap-around agree |
| `RingPositions.OccupancyIsLength` | src/cli_queue_helper/cli_single_queue.c:86-96 | the count formula gives the true length |
| `SingleQueues.SingleQueue.Push` | src/cli_queue_helper/cli_single_queue.c:36-54 | appends, or fails exactly when size - 1 items are queued |
| `SingleQueues.SingleQueue.Pop` | src/cli_queue_helper/cli_single_queue.c:56-75 | removes the first item, or reports an empty queue |
| `SingleQueues.SingleQueue.Peek` | src/cli_queue_helper/cli_single_queue.c:77-84 | the first item |
| `SingleQueues.SingleQueue.Count` | src/cli_queue_helper/cli_single_queue.c:86-96 | the number of items |
| `CallbackGates.CountersAreThreads` | src/cpa_monitor/cpa_bpf_capture.c:72-190 | for any number of threads and any interleaving each counter is the number of threads inside its gate |
| `CallbackGates.QuietUntilResume` | src/cpa_monitor/cpa_bpf_capture.c:673-707 | from the end of the waits until the capture gate reopens no thread is in a callback body, so modules are disabled only when idle; repeated pauses, destroy while paused and re-initialisation included |
| `CallbackGates.LeaveNeverUnderflows` | src/cpa_monitor/cpa_bpf_capture.c:160-168 | a leave always finds its own thread counted |
| `CallbackGates.NoLostWakeup` | src/cpa_monitor/cpa_bpf_capture.c:117-183 | a sleeping controller has a thread inside the blocked gate that will wake it, and it never sleeps on the kernel-only gate |
| `UnwinderParking.ParkedWhileOwned` | src/cpa_monitor/cpa_unwinder.c:465-526 | in every run, across repeated restarts and a second pause before the main thread woke: from the end of the wait in pause until restore clears the request the main thread is parked |
| `UnwinderParking.ContextIsCurrent` | src/cpa_monitor/cpa_unwinder.c:700-721 | whoever unwinds uses the context as it stands, and never two threads at once; the timer only with a context |
| `UnwinderParking.NoLostWakeup` | src/cpa_monitor/cpa_unwinder.c:465-511 | a parked main thread waits for a request that is still set, and a waiting timer thread for a main thread that has not parked; no signal between the two is lost |
| `UnwinderRuns.WaitEndsIff` | src/cpa_monitor/cpa_unwinder.c:496-511 | in every run the wait in pause can still end if and only if the main thread has not ended and, once a stop is requested, is past the pop of an empty queue |
| `UnwinderRuns.StopStrandsPause` | src/cpa_monitor/cpa_unwinder.c:496-511 | a run in which a stop is seen just before the pause: the main thread has ended and the timer thread waits for ever |
| `UnwinderParking.DisposedExactlyOnce` | src/cpa_monitor/cpa_unwinder.c:943-1008 | every sample ever built is at every moment in exactly one place: queued, in one hand, or once unwound, freed or handed back |
| `UnwinderRuns.UndisturbedFreesNothing` | src/cpa_monitor/cpa_unwinder.c:943-1008 | in every run without a pause and without a stop no sample is freed |
| `UnwinderRuns.RestartFrees` | src/cpa_monitor/cpa_unwinder.c:427-452 | what one restart frees, in order, is exactly the queue at the moment its wait ends plus what is pushed until the emptying step finds the queue empty |
| `UnwinderRuns.RestartMayDiscard` | src/cpa_monitor/cpa_unwinder.c:983-994 | a sample pushed between the empty pop and the park check is freed by the restart |
| `UnwinderRuns.NoContextIff` | src/cpa_monitor/cpa_unwinder.c:513-523 | in every run the main thread unwinds without a context exactly when the last rebuild failed |
| `UnwinderRuns.AlwaysContext` | src/cpa_monitor/cpa_unwinder.c:513-523 | so it never does while every rebuild succeeds |
| `UnwinderRuns.LatePushUnwoundWithoutContext` | src/cpa_monitor/cpa_unwinder.c:513-523 | a run in which a sample accepted before the pause and pushed after a failed rebuild is unwound without a context |
| `Rotations.ProfilesNeverMix` | src/cpa_monitor/cpa_runtime.c:315-369 | over every sequence of restart attempts with failures at any stage: nothing stays staged, no map is dumped into two directories, no directory receives two maps |
| `Rotations.MoveTogether` | src/cpa_monitor/cpa_runtime.c:315-369 | the active directory and the map both move to fresh ones or neither moves, and exactly when a restart was due and every stage succeeded |
| `Rotations.DueIff` | src/cpa_monitor/cpa_runtime.c:278-310 | in every run a restart is due if and only if a request or a day change was raised after which none has succeeded |
| `Rotations.RequestStaysPending` | src/cpa_monitor/cpa_runtime.c:294-310 | in every run, from one point to any later one: a restart that is due stays due as long as none succeeds |
| `Rotations.OneshotNeverMoves` | src/cpa_monitor/cpa_stackmap_continuous.c:180-202 | without a store directory no restart ever succeeds |
| `RestoreOrder.NoWheelIff` | src/cli_stackmap_helper/cli_stackmap.c:448-463 | in every run, whatever the order in which workers are restored: the current map lacks a wheel exactly since it replaced another, until the restoration of the store worker gives it one |
| `RestoreOrder.AsideIff` | src/cli_stackmap_helper/cli_stackmap.c:465-510 | in every run, memory for the wheel or not: a sample finished now misses the wheel if and only if the map has replaced another and no restoration of the store worker has given it a wheel since |
| `RestoreOrder.AsideFate` | src/cli_stackmap_helper/cli_stackmap.c:700-829 | in every run: a sample in the untimed table of a map is written if and only if the first later dump that empties this table has memory, is thrown away if and only if that dump has none, and stays there if and only if no dump does; a dump empties the table only of the current map, only while it has no wheel, and not when its day is over |
| `RestoreOrder.StrandedIff` | src/cpa_monitor/cpa_stackmap_continuous.c:213-218 | in every run: a sample is in the untimed table of a map that is no longer current or has a wheel, if and only if, while it waited in that of the current map, the map was given a wheel or was replaced with the table skipped at the end of the day |
| `RestoreOrder.StrandedIsLost` | src/cli_stackmap_helper/cli_stackmap.c:807-823 | such a sample stays where it is, however the run goes on |
| `RestoreOrder.StoreFirst` | src/cpa_monitor/cpa_runtime.c:360-366 | with the store worker restored before the one that lets samples through, in every run, memory or not: a sample is stranded if and only if the dump before a restart skipped it at the end of the day, and that restart replaced the map or gave it a wheel |
| `RestoreOrder.SteadyAsideIff` | src/cpa_monitor/cpa_runtime.c:360-366 | if no enabling of the wheel fails: a finished sample misses the wheel if and only if the restart under way has replaced the map, has restored the worker that lets samples through, and has not yet restored the store worker |
| `RestoreOrder.SteadyAsideIsLost` | src/cli_stackmap_helper/cli_stackmap.c:807-823 | if no enabling of the wheel fails: such a sample is never written |
| `RestoreOrder.LateSampleLost` | src/cpa_monitor/cpa_runtime.c:360-366 | a run in the order of the source in which a sample is stranded |
| `RestoreOrder.LateSampleWritten` | src/cpa_monitor/cpa_stackmap_continuous.c:213-218 | the same run with the enabling of the wheel failing: the sample is written |
| `RestoreOrder.SkippedSampleLost` | src/cli_stackmap_helper/cli_stackmap.c:755-767 | a run with the store worker first in which this happens |
| `Rotations.Runtime.RestartLoop` | src/cpa_monitor/cpa_runtime.c:315-369 | the staged code with its abort paths has the effect of the one-step specification |
| `Rotations.Runtime.TimerTick` | src/cpa_monitor/cpa_runtime.c:278-313 | one timer round has the effect of the specification |
| `Rotations.Runtime.PrepareRestart` | src/cpa_monitor/cpa_stackmap_continuous.c:180-193 | flushes into the old directory and stages a fresh one |
| `Rotations.Runtime.CommitRestart` | src/cpa_monitor/cpa_stackmap_continuous.c:195-211 | moves the staged directory in place; fails exactly when nothing is staged |
| `Rotations.Runtime.AbortRestart` | src/cpa_monitor/cpa_stackmap_continuous.c:220-228 | removes the staged directory |
| `Workers.DestroyedExactlyOnce` | src/cpa_monitor/cpa_runtime.c:133-230 | for every list of different workers and every vector of answers, over the whole life of the process: a worker before the first failure that was not skipped is destroyed exactly once, any other never |
| `Workers.DestroyReversed` | src/cpa_monitor/cpa_runtime.c:220-230 | teardown runs from the last worker to the first |
| `Workers.SortSorts` | src/cpa_monitor/cpa_runtime.c:79-131 | registration yields the same workers, ordered by index, name and address |
| `Workers.BeforeIsOrder` | src/cpa_monitor/cpa_runtime.c:79-98 | the comparison of workers is a strict order |
| `Workers.NamesEqual` | src/cpa_monitor/cpa_runtime.c:90-92 | only equal names compare equal, so that the address decides only between workers of the same name |
| `Workers.FirstFailureIs` | src/cpa_monitor/cpa_runtime.c:148-180 | start-up stops at the first worker whose initialisation fails |
| `Workers.Runtime.Register` | src/cpa_monitor/cpa_runtime.c:100-131 | refuses an empty list; a failure changes nothing; otherwise the list is sorted and complete |
| `Workers.Runtime.ExecInit` | src/cpa_monitor/cpa_runtime.c:133-218 | survivors are the non-skipped workers in order; a failure rolls the earlier ones back; without memory for its summary nothing happens |
| `Workers.Runtime.Start` | src/cpa_monitor/cpa_runtime.c:384-425 | initialisation, then the timer thread; a failure of either leaves nothing initialised |
| `Workers.Runtime.Stop` | src/cpa_monitor/cpa_runtime.c:427-443 | teardown, unless there is no timer thread to join |
| `Workers.Runtime.Life` | src/cpa_monitor/cpa_monitor.c:59-76 | start, run, stop: the calls made over the life of the process |
| `HeapOrder.RootIsLeast` | src/cli_struct_helper/cli_counter_heap_helper.c:138-155 | nothing is less than the root |
| `HeapOrder.UpStep` | src/cli_struct_helper/cli_counter_heap_helper.c:29-43 | swapping a too small value with its parent moves the disorder up |
| `HeapOrder.DownStep` | src/cli_struct_helper/cli_counter_heap_helper.c:45-65 | swapping a too large value with its smaller child moves the disorder down |
| `HeapOrder.LoweredIff` | src/cli_struct_helper/cli_counter_heap_helper.c:130-136 | lowering a value in place keeps the order exactly when it stays at least its parent |
| `CounterHeaps.CounterHeap.Insert` | src/cli_struct_helper/cli_counter_heap_helper.c:106-128 | existing entry, or a new one with order, back indices and key map in agreement; a new key fails exactly when its entry gets no memory or the array is full and cannot grow, and then what is held stays; the new capacity is stated in every case |
| `CounterHeaps.CounterHeap.Increment` | src/cli_struct_helper/cli_counter_heap_helper.c:130-136 | the value grows modulo 2^64; the order is kept without overflow, and with overflow exactly when the entry is the root or still at least its parent |
| `CounterHeaps.WrapDisorders` | src/cli_struct_helper/cli_counter_heap_helper.c:130-136 | a heap of two that an increment puts out of order |
| `CounterHeaps.CounterHeap.PopMin` | src/cli_struct_helper/cli_counter_heap_helper.c:138-155 | a least entry leaves, all others keep their values |
| `CounterHeaps.CounterHeap.PushEntry` | src/cli_struct_helper/cli_counter_heap_helper.c:157-169 | puts an entry back; fails exactly when the array is full and cannot grow |
| `CounterHeaps.CounterHeap.UpdateValue` | src/cli_struct_helper/cli_counter_heap_helper.c:187-199 | changes one value and keeps order and agreement |
| `CounterHeaps.CounterHeap.Chunk` | src/cli_struct_helper/cli_counter_heap_helper.c:201-225 | consecutive entries from the cursor around the end, none twice, and where the cursor ends, without memory too |
| `CounterHeaps.CounterHeap.Find` | src/cli_struct_helper/cli_counter_heap_helper.c:97-104 | the entry of a key |
| `PidTrackers.CreditConserved` | src/cpa_monitor/cpa_nobpf_unwinder_event.c:140-285 | with lookups interleaved while the timer holds no lock: what a pid was given less what decay, death and memory failures took is what the store and the timer hold |
| `PidTrackers.LivePidReturns` | src/cpa_monitor/cpa_nobpf_unwinder_event.c:195-285 | for every moment of every retire pass, every pid found alive and every way to the end of the pass, lookups in between: it is put back with its value on top of an entry created meanwhile if and only if no probe of the pass meets a dead pid without memory, and it was stored meanwhile or its push gets memory |
| `PidTrackers.LivePidLost` | src/cpa_monitor/cpa_nobpf_unwinder_event.c:271-273 | a run in which a dead pid without memory loses a live one, with no push attempted and nothing counted as forgotten |
| `PidTrackers.NoneForgottenIff` | src/cpa_monitor/cpa_nobpf_unwinder_event.c:263-284 | in every run no dead pid is forgotten if and only if no probe without memory meets a dead pid when the pass has found one already |
| `PidTrackers.RetiredIsDeaths` | src/cpa_monitor/cpa_nobpf_unwinder_event.c:229-285 | the retired count is the number of dead pids found, except those of a pass given up for want of memory; no stored value falls below one |
| `PidTrackers.DecayBounds` | src/cpa_monitor/cpa_nobpf_unwinder_event.c:113-131 | decay never raises a value and never takes it below one |
| `PidHeaps.ApplyDecay` | src/cpa_monitor/cpa_nobpf_unwinder_event.c:133-138 | the entries of the chunk at the cursor, at most 32 different ones, decay, once each, all of them if there are fewer; all others keep their value, and the cursor moves on by as many, around the end |
| `PidTrackers.PassGivenUp` | src/cpa_monitor/cpa_nobpf_unwinder_event.c:229-285 | a run in which a retire pass runs out of memory and forgets a dead pid |
| `PidHeaps.PopTen` | src/cpa_monitor/cpa_nobpf_unwinder_event.c:239-244 | the pop loop on the heap takes up to ten least entries one after the other: those that stood under their keys, with their values; the rest stays |
| `PidStores.HeapPopsAllowed` | src/cpa_monitor/cpa_nobpf_unwinder_event.c:239-244 | what the heap yields is what the tracker state machine allows |
| `PidStores.DecaysTogether` | src/cpa_monitor/cpa_nobpf_unwinder_event.c:113-138 | the heap and the state machine decay alike |
| `PidHeaps.ReinsertEntries` | src/cpa_monitor/cpa_nobpf_unwinder_event.c:205-225 | putting live entries back on the heap: each value on top of the entry created meanwhile, or pushed again, which fails exactly when the array, filled by the pushes before, is full and cannot grow |
| `PidStores.ReturnsTogether` | src/cpa_monitor/cpa_nobpf_unwinder_event.c:205-225 | the heap and the state machine hold the same values and epochs after putting entries back |
| `PidStores.PidStore.Look` | src/cpa_monitor/cpa_nobpf_unwinder_event.c:149-160 | the first section of a lookup on the real heap is the step of the state machine |
| `PidStores.PidStore.Create` | src/cpa_monitor/cpa_nobpf_unwinder_event.c:165-193 | so is the second |
| `PidStores.PidStore.Tick` | src/cpa_monitor/cpa_nobpf_unwinder_event.c:236-247 | so is the first section of the retire timer: decay, popping, cursor |
| `PidStores.PidStore.Probe` | src/cpa_monitor/cpa_nobpf_unwinder_event.c:256-282 | so is a probe between the sections |
| `PidStores.PidStore.PutBack` | src/cpa_monitor/cpa_nobpf_unwinder_event.c:195-227 | so is the second section |
| `PidStores.Interleave` | src/cpa_monitor/cpa_nobpf_unwinder_event.c:140-285 | any sequence of these sections on the real heap, lookups interleaved with the timer, is a run of the state machine that the inputs, the fill of the array and the cursor decide: insertions and pushes fail exactly as the capacity says, the chunk visited is the one at the cursor, pops are those of a heap; at every point the array lists the stored pids once each in heap order |
| `PidStores.RunBounded` | src/cpa_monitor/cpa_nobpf_unwinder_event.c:140-285 | no value reaches 2^64 in fewer than 2^64 - 1 steps |
| `StackShape.Unwind` | src/cpa_monitor/cpa_unwinder.c:769-910 | on top of what a failed sample left behind, the stack is the markers, the reversed frames of the kept pass and the reversed kernel frames, without those that there was no memory to append |
| `StackShape.UnwindUser` | src/cpa_monitor/cpa_unwinder.c:820-889 | the trial pass leaves nothing in the stack unless the registers cannot be restored; then it is the one kept |
| `StackShape.TrialOnlyPicksHint` | src/cpa_monitor/cpa_unwinder.c:842-880 | a trial pass whose frames are discarded matters only through the frame-pointer choice and, for a sample without registers, through the registers it leaves |
| `StackShape.RestoreUndoes` | src/cpa_monitor/cpa_unwind_state.h:26-57 | restoring succeeds unless the pass dropped or resized the registers, and then gives back what was saved; without registers, exactly when the pass left none of its own |
| `Metadata.ParseUndoesGenerate` | src/cli_profile_metadata/cli_profile_metadata.c:10-122 | parsing undoes printing if and only if both names have at most 15 bytes, no bar and no trailing space, the numbers are non-negative and the environment has at most 511 bytes; dashes anywhere |
| `Metadata.BaseFits` | src/cli_common.h:35-40 | the text before the environment has at most 66 bytes, 63 without negative numbers, so the buffer cuts nothing that round-trips |
| `Metadata.PaddedField` | src/cli_profile_metadata/cli_profile_metadata.c:10-54 | a padded name is read back exactly when it is short enough and does not end in a space |
| `Metadata.ParseMetadata` | src/cli_profile_metadata/cli_profile_metadata.c:66-122 | the scanning loops compute `Parse` on every input, with every number narrowed as its field demands |
| `IntervalArrays.IntervalArray.Locate` | src/cli_struct_helper/cli_interval_array_helper.c:144-198 | what the binary search finds covers the address; on a well-formed array it is what a linear scan finds, for every address |
| `IntervalArrays.IntervalArray.Search` | src/cli_struct_helper/cli_interval_array_helper.c:144-198 | as `Locate`, with the payload decoded; marking changes nothing but one mark |
| `IntervalArrays.MarksChangeNothing` | src/cli_struct_helper/cli_interval_array_helper.h:113-135 | after any marking searches every lookup finds the same interval, every payload decodes the same, and exactly the found ones are newly marked |
| `IntervalArrays.CastLosesNothing` | src/cli_struct_helper/cli_interval_array_helper.c:37-51 | narrowing to 32 bits loses nothing on a well-formed array |
| `IntervalArrays.FillGaps` | src/cli_struct_helper/cli_interval_array_helper.c:26-35 | the in-place loop closes open ends by the next start or the end of the range |
| `IntervalArrays.IntervalArray.constructor` | src/cli_struct_helper/cli_interval_array_helper.c:13-77 | the built array holds the sorted, gap-filled and possibly cast items; on well-formed input they are unchanged by the cast |
| `IntervalArrays.Init` | src/cli_struct_helper/cli_interval_array_helper.c:13-77 | no array for no items or for want of memory, otherwise the built one |
| `IntervalArrays.IntervalArray.Destroy` | src/cli_struct_helper/cli_interval_array_helper.c:109-142 | frees the payloads in order; a payload is freed if and only if it stands, not null and not marked, in some item |

## Left out

- The timestamps of the store's own bookkeeping (`record_start_time`, `day_start`), memory-usage statistics and printing.
- The bytes of an untimed dump (src/cli_stackmap_helper/cli_stackmap.c:672-767); how it ends, the skip at the end of the day included, is an input of `RestoreOrder.Step`. Ordering of output by count: sorting only permutes.
- The first array of an id list (src/cli_stackmap_helper/cli_stackmap.c:1093), which the source uses unchecked, is taken to be there; a frame whose text got no memory is taken as missing, as the split does.
- Once a by-id array or the stack under construction could not be enlarged, the source goes on with lengths that are too large or a null array; the model stops there (`fatal` in `StoreDriver.Drive`).
- LostHandOuts.FailedHandOut: when 774082 bytes or more follow the first torn record, the file is known not to be read as recorded (`ReadableIff`), but not whether it is refused or misread.
- ZstdStreams.ZstdStream.WriteBytes: requires a block of at most 16384 bytes; a longer one is copied past the buffer. The store writes blocks of at most 8.
- Errors of the compressor, of opening and of writing files, and the opening of files at the first dump; the compressor is a byte sink.
- Zero bytes in dictionary files: no written file contains any. Counts so large that the 64-bit offset of the scan wraps around: none stands in a file of whole records, nor behind a torn one unless the reader has gone astray in 774082 bytes or more.
- StackMaps.DumpDelta: requires fewer than 2^31 frames and stacks, as the ids are printed and parsed as 32-bit numbers.
- Splits.SplitPreservesMeaning: requires frames of at most 8192 bytes without a newline, as every store writes them, and fewer than 2^31 new ids.
- StackMaps.CurrentReset: requires an index within the stack, as its callers pass; the source would store a larger one.
- Workers.DestroyedExactlyOnce: requires that no worker is registered twice, which the source does not check.
- Splits.RunSplit: memory is taken to suffice during a split.
- IntervalArrays.IntervalArray.constructor: takes the outcome of the library sort as an argument, any sorted permutation of the input.
- IntervalArrays.Init: likewise.
- PidTrackers.CreditConserved: values are unbounded; `PidStores.RunBounded` says for how long the 64-bit ones agree with them.
- PidHeaps.ReinsertEntries: requires that no sum overflows 64 bits, which `RunBounded` provides.
- Statistics and benchmarks of the unwinder.
- The heap and the tracker keep no process names; keys are natural numbers. Pausing and resetting the tracker is not modelled.
- UnwinderParking.ContextIsCurrent: the kernel-symbol reload event and the preloading of debug information, which enter the context from other threads, are not modelled.
- Mapping of sample timestamps to record time, the grace period of exit events, the drop policy and the histogram counter: pure arithmetic.
- BPF programs, perf capture, libgunwinder, symbol lookup, the show command and its terminal interface: foreign code or presentation.
- The interval tree (src/cli_struct_helper/cli_interval_tree_helper.c): its maxima can be stale after an insertion, so only soundness would remain.
- Command line, configuration files, /proc readers, directory quotas and deletion, signals, real time, fairness and liveness.

# Verified model of the ubi bdev tools

This project models three parts of the repository in Dafny and proves what they guarantee over every input, every
run and every order of events.

* **The `spdk_dd` copy engine** (`src/app/spdk_dd.c`). Queue-depth many I/O slots share an input position, a count of
  outstanding I/Os, a seek queue and two abort flags. Each slot cycles through seek, populate, read and write, and
  completions come in any order. `DdSpec` is the engine as a transition system over a `Job`; the environment decides
  what every submission, `lseek` and completion answers, moves bytes piecemeal, interrupts, and fires the status
  poller. `DdJob.CopyJob` is the same engine in the program's own form, a class whose methods update fields and slots
  statement by statement; each method is proved to be the transition of the same name. One history variable, `fate`,
  records what became of every input byte handed out. `DdInvariant` holds the inductive invariant; `DdPrimitives`,
  `DdSteps`, `DdCalls` and `DdRuns` prove that every step keeps it; `DdSetup` is `dd_run` before its start loop and
  `DdOptions` says in plain arithmetic what the options ask for; the remaining `Dd` files draw the consequences.
* **The snapshot delta** (`src/lib/spdk_bs_dev_delta.c`, `src/lib/spdk_bs_dev_uring.c`). The writer appends whole
  clusters behind a header that maps clusters to places; the reader overlays that file on a base image with shifts
  and masks. `Delta` and `DeltaLog` are the writer and the layout of its file in every reachable state, `DeltaHeader`
  the header as bytes, `Bits` the word operations bit by bit, `DeltaOverlay` the reader and the round trip,
  `DeltaRanges` requests of several blocks and zero reports, `DeltaChannel` the writer as a class over a map array.
* **The callback chains** for snapshots (`src/lib/bdev_ubi_snapshot.c`; `Snapshot`, and `SnapshotService` as a class)
  and for creating and destructing bdevs (`src/lib/bdev_ubi.c`; `Create`, `CreateProofs`, and `CreateService` as a
  class). Operations in flight are a multiset, contexts a map from which a release removes; nothing in the rules of a
  run says that a callback still has a context, that is proved. `SnapshotPlan` and `CreatePlan` say what a request or a
  create goes through and reports from outside, from the events alone, and prove that every run agrees.

`dafny verify dfyconfig.toml` checks everything.

## What the code promises and does not

Several natural properties are false of the code. The code is modelled as it is; each comes with the exact condition
under which it holds, and with a concrete run or input where the condition alone does not show one.

* **Unaligned tail.** A dense copy that is not a whole number of output blocks populates whole blocks of the output.
  It can end cleanly exactly when those blocks are there already and the tail does not go through libaio to a file,
  whose poller compares the rounded result with the unrounded length (`CanEndCleanlyIff`, `AioCleanIffWholeBlocks`).
  If the populate meets the end of the file, io_uring's short result counts as success and the run exits cleanly with
  stale buffer bytes behind the copy (`ShortPopulateCorrupts`). Over all runs in which only populates may meet the end,
  a clean exit is the copy if and only if the copy is whole blocks or the output held the last one
  (`CleanExitIsCopyIff`); for sparse file copies also when the input ends in a hole (`SparseCleanExitIff`).
* **Unnoticed short transfers.** A short io_uring result and a failed bdev transfer pass for success. For a dense copy
  whose devices hold its regions, every clean exit of every run is the copy, whatever the devices do, if and only if
  libaio copies between files (`EveryCleanExitIsCopyIff`, `AioFilesNeverCorrupt`); for every other combination of engine
  and targets `CorruptRun` builds a clean exit that is not the copy. In all of them nothing outside the rounded write
  region changes, and only chunks whose own read or write fell short can be wrong (`DamageContained`).
* **Output block size.** `dd_run` checks only that the input block size divides the unit. All requests of all dense runs
  fit their buffers if and only if the longest chunk, the smaller of unit and copy, rounded up to output blocks fits in
  a unit, unless no request is ever made (`RequestsFitIff`). From one unit on that says that the output block size
  divides the unit (`WholeUnitFitsIff`, `AcceptedIsWellFormed`).
* **Exit once.** When the first I/O of the start loop is refused, or nothing is to be copied, the loop calls `dd_exit`
  once for every slot; the exact conditions are `DenseStartExits`, `SparseFileStartExits`, `SparseBdevStartExits` and,
  for whole runs, `ExitCount`. The queue-depth clamp makes that one slot for an empty copy
  (`CleanStartExitsAtMostOnce`).
* **At least one slot.** The clamp wraps to zero slots, and the run never exits, exactly when a file is skipped to one
  unit past the units it holds (`HasSlotIff`, `SkippedFileHasNoSlot`).
* **Sparse copy from a bdev.** Slots queued behind a seek that found no more data are not restarted
  (`SparseBdevCanStall`). Some run stops without exiting if and only if there is no slot, or there are at least three
  slots and the read region holds data but ends in a hole (`StallsIff`); every other one can always be brought to a
  clean exit (`CanAlwaysFinishBdev`). An interrupt can still lead to an exit if and only if a transfer and no seek is in
  flight at that moment (`InterruptExitsIff`).
* **Sparse copy with a count.** A seek stays inside the copy if and only if the next data does not lie past its end;
  otherwise the bytes left wrap around and a whole chunk behind the end is copied (`CountedSeekStaysIff`).
* **Failed seek of a sparse file copy.** It is recorded if and only if nothing else is in flight at that moment
  (`SeekErrorNoticedIff`).
* **Skip past the end of a file** is not refused, and the copy size wraps (`FileSkipExactIff`).
* **Failed delta write.** The map entry is set before the write, so after a failed write the next cluster's data
  appears under the failed one too (`FailedWriteAliases`). A cluster leads to its last successful data if and only if
  the last request for it did not fail (`ActualIsIntendedIff`).
* **Delta data past the image end** is reported as present but a read of it fills nothing (`PastEndIsNotRead`).
* **Snapshot leftovers.** A refused shallow copy is answered, but its context, channel and delta device are never
  released and the busy flag stays set (`RefusedCopyLeaks`); all other endings release the context exactly once. The
  clone stays open exactly when it could not be made read-only or its close failed (`ReleasedExactlyOnceIff`). The busy
  flag is set exactly when a copy was requested and none has completed since (`BusyFlagExact`), so of two copies of one
  device the first to complete clears it while the other runs (`OverlapClearsFlag`).
* **Teardown leftovers.** A failed close or unload is only logged: with nothing in flight a blob is open, or a
  blobstore loaded, for exactly the listed devices and those whose close, or unload, failed; the struct of a failed
  create is never freed (`LeftoversExact`).
* **Device freed too early.** `ubi_destruct` does not order the close of the blob and the free of the device: from
  every reachable world every listed device can be freed first (`EveryDeviceCanBeFreedEarly`, `FreedTooEarly`). All
  steps of a run find their device in memory if and only if no step that reads a device comes after the callback that
  frees it (`DevicesLiveIff`).

## Model

| member | source | states |
|---|---|---|
| DdTheorems.DenseCopyCorrect | src/app/spdk_dd.c:333-521 | For every environment, queue depth and completion order, a dense run that exits with no error and no interrupt leaves exactly the original output with the read region stored at the write region, in bytes and in length. |
| DdTheorems.SparseCopyCorrect | src/app/spdk_dd.c:523-738 | After a clean sparse exit data bytes are the input's and all other bytes, holes included, are the original output's; an output file has the full length. |
| DdTheorems.SparseRefinesDense | src/app/spdk_dd.c:274-302 | A clean sparse run and a clean dense run into a fresh file leave the same file, interior holes, trailing hole and length included. |
| DdTheorems.OutsideUntouched | src/app/spdk_dd.c:333-521 | In every reachable state, failed and interrupted runs included, bytes outside the write region keep their value although whole blocks are written, and a block device keeps its size. |
| DdTheorems.CleanExitOutput | src/app/spdk_dd.c:740-758 | Every byte of the output at a clean exit, and its length, from the invariant alone. |
| DdRuns.AlwaysInv | src/app/spdk_dd.c:1200-1202 | The inductive invariant (ownership, data, accounting, queue) holds in every reachable state. |
| DdRuns.StepKeeps | src/app/spdk_dd.c:740-758 | Every event that is possible in a state keeps the invariant. |
| DdCalls.WriteKeeps | src/app/spdk_dd.c:333-387 | Issuing or refusing a write keeps the invariant when the buffer holds the input followed by the output's own tail. |
| DdCalls.ReadKeeps | src/app/spdk_dd.c:399-443 | Issuing, refusing or aborting a read keeps the invariant. |
| DdCalls.PopulateKeeps | src/app/spdk_dd.c:455-521 | Claiming the next chunk keeps the invariant; the cut length never wraps and stays within the buffer. |
| DdCalls.FinalizeKeeps | src/app/spdk_dd.c:274-302 | Extending the output over a trailing hole keeps the invariant. |
| DdCalls.SeekFileKeeps | src/app/spdk_dd.c:693-715 | Skipping a file hole and cutting the chunk at the next hole keeps the invariant. |
| DdCalls.SeekDataDoneKeeps | src/app/spdk_dd.c:559-611 | The bdev seek-data callback keeps the invariant on every path. |
| DdCalls.SeekHoleDoneKeeps | src/app/spdk_dd.c:613-671 | The bdev seek-hole callback, with the populate and the next seek it starts, keeps the invariant. |
| DdSafety.PartitionAlways | src/app/spdk_dd.c:455-478 | In every reachable state the bytes from the start to `pos` are split without gap or overlap: a byte belongs to slot i exactly when i holds a chunk over it, holes are exactly the skipped non-data bytes. |
| DdSafety.RoundedDisjointAlways | src/app/spdk_dd.c:488-489 | The output ranges of two chunks in flight stay disjoint after rounding up to whole blocks. |
| DdSafety.SeekExclusive | src/app/spdk_dd.c:716-726 | A seek in flight is the only one, belongs to the head of the queue, looks from the current position, and no queued slot holds a chunk. |
| DdSafety.SeekHoldsPos | src/app/spdk_dd.c:594-600 | While a seek is in flight no event of another slot moves the input position. |
| DdSafety.AddressesExact | src/app/spdk_dd.c:457-489 | No reachable state wraps: the subtractions are exact, rounded requests fit the slot's buffer and stay inside a device that holds the write region. |
| DdSafety.ExitCount | src/app/spdk_dd.c:467-476 | In every reachable state `outstanding` is the number of I/Os in flight; a run with slots has exited exactly when that is zero, once, or once per slot when its start loop drained already; a run without slots never exits. |
| DdExitCode.ExitCodeIsError | src/app/spdk_dd.c:342-351 | Whenever a run has exited, its last exit code is the error on record; so a dense run that ends with code zero, uninterrupted, has made the copy. |
| DdExitCode.ErrorWasAnswered | src/app/spdk_dd.c:370-386 | In every reachable state of every mode the error on record is zero or a code that some step was given: a refused submission, a failed completion, a failed file seek or truncation, each only where the targets and the engine make it possible. |
| DdSubmit.NextRequest | src/app/spdk_dd.c:323-443 | In every run, when a populate or a read comes back and nothing is wrong, the read or the write of the same chunk follows at its place, rounded to whole blocks; a submission that fails leaves its code on record, a free slot, and an exit with that code when nothing else is in flight. |
| DdSubmit.NextChunk | src/app/spdk_dd.c:455-521 | In every dense run a slot whose write came back takes the next unit, or what is left, at the position; its first request is the read of a chunk of whole blocks and the populate of any other, submitted or refused as above. |
| DdSubmit.NextSparseChunk | src/app/spdk_dd.c:693-715 | The same for a sparse copy from a file: the chunk starts at the next data and ends at the hole behind it, after a unit, or at the end of the copy. |
| DdSubmit.SeekErrorNoticedIff | src/app/spdk_dd.c:536-555 | A failed file seek is recorded, and the run exits with it, if and only if nothing else is in flight; otherwise the slot goes idle without an error. |
| DdSubmit.SeekAfterWrite | src/app/spdk_dd.c:716-738 | In every sparse run from a bdev a slot whose write came back seeks from the position at once when the queue is empty, with a refusal recorded, and otherwise waits behind the others. |
| DdSubmit.HoleSeekAfterData | src/app/spdk_dd.c:594-611 | When a seek has found data the position moves there and the seek for its end follows; a refused one is recorded and its slot leaves the queue. |
| DdSubmit.ChunkAfterHole | src/app/spdk_dd.c:633-671 | When the end of the data is known the slot takes its chunk there, and once that is accepted the next queued slot seeks from where the chunk ends, with a refusal recorded. |
| DdSubmit.FileRunsOut | src/app/spdk_dd.c:529-542 | When no data is left and nothing else is in flight, the run exits with the error of the finalization or with the output file extended to the full size; while I/Os are in flight nothing happens. |
| DdSubmit.BdevRunsOut | src/app/spdk_dd.c:586-592 | The same for a copy from a bdev, whose slot leaves the queue. |
| DdDrain.InterruptRecorded | src/app/spdk_dd.c:912-915 | In every run, whatever the devices do, the flag says exactly whether the program has been interrupted. |
| DdDrain.AbortDrains | src/app/spdk_dd.c:342-351 | Once a run is interrupted or has an error on record, in every mode and whatever the devices do, the input position stands still, every request in flight was in flight at that moment, and each completion leaves one fewer. |
| DdStart.DenseStartExits | src/app/spdk_dd.c:1200-1202 | The start loop of a dense run exits not at all when its first I/O is accepted and once for every slot otherwise. |
| DdStart.SparseFileStartExits | src/app/spdk_dd.c:693-715 | The start loop of a sparse file copy exits not at all when, uninterrupted, both seeks succeed, there is data and the first chunk is accepted; otherwise, as for a file without data, once for every slot. |
| DdStart.SparseBdevStartExits | src/app/spdk_dd.c:716-738 | The start loop of a sparse bdev copy exits not at all when, uninterrupted, there is something to copy and the first seek is accepted; otherwise once for every slot. |
| DdTermination.CompletionDecreases | src/app/spdk_dd.c:740-758 | Each completion of a dense run, or of a sparse one from a file, strictly decreases the work left. |
| DdTermination.RunsAreBounded | src/app/spdk_dd.c:455-521 | Such a run makes at most four completions per byte of the copy. |
| DdBound.OperationsAreBounded | src/app/spdk_dd.c:559-671 | In every mode, sparse bdev copies included, and with any errors, a run completes at most five transfers and seeks per byte of the copy and two per slot. |
| DdLiveness.CanAlwaysFinish | src/app/spdk_dd.c:740-758 | From every state an undisturbed dense run can reach, it can still be brought to a clean exit. |
| DdLiveness.CanEndCleanlyIff | src/app/spdk_dd.c:480-521 | An undisturbed dense copy can end cleanly if and only if it has a slot and is whole blocks, or the output holds the last whole block and the tail does not go through libaio to a file. |
| DdSparseLiveness.CanAlwaysFinishSparse | src/app/spdk_dd.c:693-715 | From every state a sparse file copy can reach without a failure, it can still be brought to a clean exit. |
| DdSparseLiveness.CanAlwaysFinishBdev | src/app/spdk_dd.c:559-671 | From every state a sparse bdev copy outside the stalling shape can reach without a failure, it can still be brought to a clean exit. |
| DdTail.BadTailNeverClean | src/app/spdk_dd.c:480-521 | No run of any other unaligned dense copy exits cleanly without an unnoticed short transfer. |
| DdTail.UndisturbedIsClean | src/app/spdk_dd.c:761-788 | A dense run in which nothing fails reports no error. |
| DdTail.AioCleanIffWholeBlocks | src/app/spdk_dd.c:791-818 | With libaio and a file target an undisturbed run that exits is clean if and only if the copy is a whole number of output blocks. |
| DdProgress.ProgressShown | src/app/spdk_dd.c:219-222 | Whenever the status poller has just run, and at every clean exit, the shown total is the bytes whose write was issued and the increment is zero; a clean dense exit has shown the copy size; no other event that does not exit moves the shown total. |
| DdProgress.ProgressConserved | src/app/spdk_dd.c:353-354 | In every reachable state, between two polls too, the shown total and the increment together are the bytes whose write was issued; at a clean exit at most the copy size. |
| DdStallRun.StallsIff | src/app/spdk_dd.c:586-592 | Over all runs of a sparse bdev copy whose output holds the write region: some run stops for good with no error, interrupt or exit, and one in which nothing fails, if and only if there is no slot or there are three slots and data followed by a trailing hole. |
| DdStall.NeverStalls | src/app/spdk_dd.c:652-671 | No run of any other sparse bdev copy stops without an error, an interrupt or an exit. |
| DdAbort.InterruptExitsIff | src/app/spdk_dd.c:566-576 | From any state a sparse bdev copy reaches without an error, an interrupt can still lead to an exit if and only if a transfer and no seek is in flight at that moment. |
| DdCounted.CountedSeekStaysIff | src/app/spdk_dd.c:457-465 | With a count, a sparse seek from inside the copy stays inside if and only if the next data does not lie past its end; otherwise the slot takes a whole chunk there. |
| DdCounted.LeftExactIff | src/app/spdk_dd.c:465-465 | The bytes left are exact if and only if the position is not past the end of the copy; otherwise the subtraction wraps. |
| DdLimits.SparseBdevCanStall | src/app/spdk_dd.c:588-592 | An instance: three slots and one data byte before a hole. |
| DdTrust.EveryCleanExitIsCopyIff | src/app/spdk_dd.c:761-818 | For a dense copy whose devices hold its regions: every clean exit of every run over every output of that size is the copy, whatever the devices do, if and only if libaio copies between files. |
| DdAioFiles.AioFilesNeverCorrupt | src/app/spdk_dd.c:807-815 | With libaio between files, whatever the devices do, every clean exit of a dense run is the copy, unaligned tails included. |
| DdTrust.CorruptRun | src/app/spdk_dd.c:323-397 | For every other combination of engine and targets, a run that exits cleanly and has not made the copy. |
| DdDamage.DamageContained | src/app/spdk_dd.c:323-397 | In every dense run and every sparse run from a file, whatever the devices do: only the rounded write region may have changed, and at a clean exit every byte of the copy is there and every hole as it was, except in chunks whose read or write fell short unnoticed. |
| DdEof.CleanExitIsCopyIff | src/app/spdk_dd.c:766-775 | For every dense run in which only populates that meet the end of the file fall short unnoticed: a clean exit is the copy if and only if the copy is whole blocks or the output held the last one; otherwise the copied bytes are right and the output is as long as the rounded region. |
| DdEof.SparseCleanExitIff | src/app/spdk_dd.c:480-521 | The same for sparse copies from a file: a clean exit is right if and only if the copy is whole blocks, the output held the last one, or the input ends in a hole. |
| DdLimits.ShortPopulateCorrupts | src/app/spdk_dd.c:766-775 | An instance: a short populate goes unnoticed and a clean exit leaves a stale byte behind the copy. |
| DdRequests.RequestsFitIff | src/app/spdk_dd.c:1108-1122 | For every dense copy of at least one byte, every kind of target and both engines: all requests of all runs fit their buffers if and only if there is no slot, the device refuses the first request, or the longest chunk rounded up to output blocks fits in a unit. |
| DdRequests.WholeUnitFitsIff | src/app/spdk_dd.c:1117-1122 | For a copy of at least one unit that condition is that the output block size divides the unit. |
| DdRequests.FitsWithoutDividing | src/app/spdk_dd.c:1117-1122 | Sizes below one unit at which requests fit although the block does not divide the unit, and at which they overrun. |
| DdOptions.AcceptedExactlyWhen | src/app/spdk_dd.c:1035-1122 | Options are accepted exactly when input and output bdevs hold the skipped and the counted units and the block sizes fit the unit; a region that does not fit is refused with -ENOSPC, otherwise a block size with -EINVAL. |
| DdOptions.RegionsAsAsked | src/app/spdk_dd.c:1035-1064 | An accepted copy reads from the skipped units on and writes behind the seeked ones; its size, unit, targets, block sizes, engine and mode are those asked for. |
| DdOptions.DepthAsAsked | src/app/spdk_dd.c:857-865 | The queue depth of an accepted copy, exactly: the depth asked for, cut by the units behind the skip, by those of an output bdev behind the seek, and by the count. |
| DdOptions.CopiesAsAsked | src/app/spdk_dd.c:1010-1203 | From the options to the output: an accepted dense copy that exits cleanly has stored exactly the asked bytes of the input, from the skipped units on, behind the seeked units of the output. |
| DdOptions.SeekIsHonoured | src/app/spdk_dd.c:1064-1064 | An instance: two units of four bytes sought put the copy at byte eight. |
| DdSetup.AcceptedInput | src/app/spdk_dd.c:1035-1062 | What the checks leave: the read region starts behind the skipped units, its size is the counted bytes or the rest of the input, and it lies inside an input bdev. |
| DdSetup.AcceptedOutput | src/app/spdk_dd.c:1064-1106 | The write region starts behind the seeked units; on an output bdev that is inside it and, with a count, the region ends inside it. |
| DdSetup.AcceptedWritesInside | src/app/spdk_dd.c:1087-1106 | In every reachable state of a counted copy that passed the checks, no rounded request reaches past the end of the output bdev. |
| DdSetup.FileSkipExactIff | src/app/spdk_dd.c:1038-1062 | For a file without a count the copy size is the rest of the input if and only if the skip is not past its end; otherwise it wraps. |
| DdSetup.EmptyCopyHasOneSlot | src/app/spdk_dd.c:857-865 | The clamp leaves at most one slot when there is nothing to copy. |
| DdSetup.DepthOnlyLowered | src/app/spdk_dd.c:902-907 | The clamps never raise the queue depth, and with a count leave at most that many slots. |
| DdSetup.HasSlotIff | src/app/spdk_dd.c:857-865 | An accepted copy has a slot if and only if some depth was asked for and a file is not skipped to exactly one unit past the units it holds. |
| DdSetup.SkippedFileHasNoSlot | src/app/spdk_dd.c:857-860 | An instance of an accepted copy without a slot, no run of which exits. |
| DdSetup.NoSlotNeverExits | src/app/spdk_dd.c:1200-1202 | Without a slot no run exits, in any mode. |
| DdSetup.CleanStartExitsAtMostOnce | src/app/spdk_dd.c:1200-1202 | Checks, clamp and start loop together: an uninterrupted dense start whose first I/O is accepted exits at most once. |
| DdSetup.AcceptedIsWellFormed | src/app/spdk_dd.c:1108-1122 | An accepted dense configuration, counted or with a skip inside the input, meets the theorems' assumptions if and only if the output blocks divide the unit. |
| DdJob.Copy | src/app/spdk_dd.c:1010-1203 | A whole run of the class: its output and exits are those of the transition system, a clean exit is the copy, and bytes outside the write region are unchanged. |
| DdJob.CopyJob.Write | src/app/spdk_dd.c:333-387 | The in-place write step is the transition `Write`. |
| DdJob.CopyJob.Read | src/app/spdk_dd.c:399-443 | The in-place read step is the transition `Read`. |
| DdJob.CopyJob.Populate | src/app/spdk_dd.c:455-521 | The in-place populate step is the transition `Populate`. |
| DdJob.CopyJob.Finalize | src/app/spdk_dd.c:274-302 | The in-place finalize step is the transition `Finalize`. |
| DdJob.CopyJob.FileSeekData | src/app/spdk_dd.c:523-543 | What the file seek for data returns, and what it does when it ends the call. |
| DdJob.CopyJob.FileSeekHole | src/app/spdk_dd.c:545-557 | What the file seek for a hole returns, and what it does when it fails. |
| DdJob.CopyJob.SeekDataDone | src/app/spdk_dd.c:559-611 | The in-place callback is the transition `SeekDataDone`. |
| DdJob.CopyJob.SeekHoleDone | src/app/spdk_dd.c:613-671 | The in-place callback is the transition `SeekHoleDone`. |
| DdJob.CopyJob.Seek | src/app/spdk_dd.c:673-738 | The in-place seek is the transition `Seek`. |
| DdJob.CopyJob.Complete | src/app/spdk_dd.c:740-758 | The poller's error handling and the dispatch on the request type are the transition `Complete`. |
| DdJob.CopyJob.Start | src/app/spdk_dd.c:1200-1202 | The start loop is the fold of `Seek` over the slots. |
| DdJob.CopyJob.Loop | src/app/spdk_dd.c:761-818 | The event loop is the execution of the events. |
| Bytes.RoundUpIsCeilDiv | src/app/spdk_dd.c:335-335 | The recursive rounding used in the proofs is the code's ceiling division times the block size. |
| Delta.ActualIsIntendedIff | src/lib/spdk_bs_dev_delta.c:197-243 | A map entry leads to the last successfully written data, else to the image, if and only if the last request for the cluster did not fail. |
| Delta.GeometryFacts | src/lib/spdk_bs_dev_delta.c:326-328 | With power-of-two sizes the cluster is a whole number of blocks, itself a power of two. |
| DeltaLog.LayoutAlways | src/lib/spdk_bs_dev_delta.c:197-243 | In every reachable writer state each entry agrees with the origin of its cluster, later requests lie at higher addresses, the header is zero and the file behind the position is as it was. |
| DeltaLog.ZeroIffNeverAttempted | src/lib/spdk_bs_dev_delta.c:109-118 | An entry is zero if and only if no write to its cluster was attempted; otherwise it lies behind the header. |
| DeltaLog.RegionsDisjoint | src/lib/spdk_bs_dev_delta.c:204-242 | Two entries share a region exactly when they have the same origin and are otherwise disjoint; clusters whose last writes succeeded never share. |
| DeltaLog.CloseKeepsData | src/lib/spdk_bs_dev_delta.c:135-153 | Closing changes no byte behind the header and the header reads back as the map. |
| DeltaLog.AnswersExact | src/lib/spdk_bs_dev_delta.c:212-242 | After any history the answer to one more request is exact: -EINVAL exactly for an lba that starts no cluster, and then nothing changes; -EIO when only the map entry was set; 0 when the cluster stands at the old end of the log and everything before it is as it was. |
| DeltaLog.FailedWriteAliases | src/lib/spdk_bs_dev_delta.c:218-240 | A concrete history in which a failed write makes two clusters share a region. |
| DeltaHeader.HeaderRoundTrip | src/lib/spdk_bs_dev_delta.c:27-46 | A file that begins with the little-endian words of a map reads back as that map. |
| DeltaChannel.WriteDelta | src/lib/spdk_bs_dev_delta.c:77-157 | A whole life of the channel class: its answers, its file, a header whose zero entries are exactly the untouched clusters, and over any image the promised data for every block whose cluster's last write did not fail. |
| DeltaChannel.WriteChannel.constructor | src/lib/spdk_bs_dev_delta.c:77-133 | Opening over an existing file leaves the state `Open`: an empty map, zeros over the header, the position behind it. |
| DeltaChannel.WriteChannel.Write | src/lib/spdk_bs_dev_delta.c:197-243 | The in-place write is the transition `WriteCluster`, with its three answers. |
| DeltaChannel.WriteChannel.CloseFile | src/lib/spdk_bs_dev_delta.c:135-157 | Closing rewrites the header from the map array and leaves the map alone. |
| DeltaOverlay.AddressesAgree | src/lib/spdk_bs_dev_uring.c:126-138 | For power-of-two geometry the reader's shifts and mask are the writer's division and remainder, and the 32-bit cluster number loses nothing. |
| DeltaOverlay.SetIoOptsLocates | src/lib/spdk_bs_dev_uring.c:126-138 | The reader's file and offset, in the writer's terms; without a snapshot path always the image, at the block's own address. |
| DeltaOverlay.OverlayReads | src/lib/spdk_bs_dev_uring.c:140-165 | What a one-block read of the reopened delta returns after any history over any existing file, failed writes and blocks past the image end included. |
| DeltaOverlay.DeltaRoundTrip | src/lib/spdk_bs_dev_uring.c:140-165 | Below the image end a block reads as the last data successfully written to it, else as the image, when the last write to its cluster did not fail. |
| DeltaRanges.OneOffsetReadSound | src/lib/spdk_bs_dev_uring.c:140-192 | A request inside one cluster reads, through its one offset, what reading each block by itself gives, for any delta file. |
| DeltaRanges.SplitStaysInCluster | src/lib/bdev_ubi.c:294-297 | A request that does not cross the 4 KiB split boundary stays inside one cluster. |
| DeltaRanges.WholeClusterInCluster | src/lib/spdk_bs_dev_uring.c:126-138 | So does a read of one whole cluster. |
| DeltaRanges.RangeRoundTrip | src/lib/spdk_bs_dev_uring.c:140-192 | Writer to reader: every block of such a request is the last data successfully written to it, else the image. |
| DeltaRanges.ZeroesIff | src/lib/spdk_bs_dev_uring.c:250-273 | When a range is reported as zeroes, for any image size and any history. |
| DeltaRanges.ZeroesExact | src/lib/spdk_bs_dev_uring.c:250-273 | With a cluster-aligned image, a range inside one cluster is reported as zeroes exactly when its cluster lies past the image end and was never written to. |
| DeltaRanges.PastEndIsNotRead | src/lib/spdk_bs_dev_uring.c:149-152 | Written data past the image end is reported as present, and a read of it leaves the buffer as it was. |
| DeltaRanges.ImageOnlyReads | src/lib/spdk_bs_dev_uring.c:290-310 | Without a snapshot path every request below the image end, also one over several clusters, returns exactly those blocks of the image. |
| DeltaRanges.ImageOnlyZeroes | src/lib/spdk_bs_dev_uring.c:250-273 | Without a snapshot path a range is reported as zeroes exactly when it starts at or passes the image end. |
| Snapshot.NoStepOnReleasedContext | src/lib/bdev_ubi_snapshot.c:33-198 | In every interleaving of any number of requests with any errors, each callback finds a live context. |
| Snapshot.AnsweredExactlyOnce | src/lib/bdev_ubi_snapshot.c:54-220 | At every moment a request is unanswered, exactly while it waits for a step before the copy, or answered once. |
| Snapshot.ReleasedExactlyOnceIff | src/lib/bdev_ubi_snapshot.c:22-85 | When nothing is in flight, each request's answer is that of its ending, its context was freed exactly once unless the device was unknown or the copy refused, only refused copies hold contexts, channels and delta devices, and the clone is open exactly when it could not be made read-only or its close failed. |
| Snapshot.RefusedCopyLeaks | src/lib/bdev_ubi_snapshot.c:80-85 | A concrete run after which a refused copy holds its context, channel, delta device and busy flag with nothing in flight. |
| Snapshot.BusyFlagExact | src/lib/bdev_ubi_snapshot.c:33-85 | In every run the busy flag of a device is set exactly when a copy was requested for it, accepted or refused, and none has completed since. |
| Snapshot.OverlapClearsFlag | src/lib/bdev_ubi_snapshot.c:33-45 | Of two copies of one device in flight, the first completion clears the flag while the other runs. |
| Snapshot.StepKeeps | src/lib/bdev_ubi_snapshot.c:33-220 | Whatever is in flight has a live context, and handling it keeps the protocol invariant. |
| SnapshotService.Service.TakeSnapshot | src/lib/bdev_ubi_snapshot.c:200-220 | The in-place request is the transition `Ask`. |
| SnapshotPlan.SnapshotFollowsPlan | src/lib/bdev_ubi_snapshot.c:54-220 | In every run each request follows its plan, snapshot, clone, open, close, decouple and copy with a path, the snapshot alone without: the operation in flight, the ending and every field of its context, blob ids included, are those that the answers so far say. |
| SnapshotPlan.OutcomeExact | src/lib/bdev_ubi_snapshot.c:54-220 | What a request has been answered, and whether its context was freed, as a function of the events alone: -ENOENT for an unknown device, the code of the step that failed, 0 for a snapshot without a path, else the answer of the copy request. |
| SnapshotPlan.PlainSnapshotEnds | src/lib/bdev_ubi_snapshot.c:184-189 | In every run a request without a path whose snapshot was created is answered exactly once, with 0, freed once, and never has another operation in flight. |
| SnapshotPlan.CopiesIff | src/lib/bdev_ubi_snapshot.c:87-198 | A copy is accepted or refused if and only if a request with a path has seen the five steps before it succeed in order; the reply is then the answer of the copy request, and the delta device exists until an accepted copy comes back. |
| SnapshotPlan.StatusExact | src/lib/bdev_ubi_snapshot.c:33-69 | In every run the status of a device is what the events say: its last failure, the clusters of the last copy asked for, the last progress report, and whether a copy was asked for after the last one ended. |
| SnapshotService.Service.SnapshotCreated | src/lib/bdev_ubi_snapshot.c:171-198 | The in-place callback is the transition for that stage: without a path it answers 0, releases the context and submits nothing, with one it submits the clone. |
| SnapshotService.Service.CloneOpened | src/lib/bdev_ubi_snapshot.c:123-148 | The in-place callback is the transition for that stage; the clone stays open when it cannot be made read-only. |
| SnapshotService.Service.StartSnapshot | src/lib/bdev_ubi_snapshot.c:54-85 | The in-place start of the copy is the transition `StartCopy`. |
| SnapshotService.Service.CopyComplete | src/lib/bdev_ubi_snapshot.c:33-45 | The in-place end of the copy is the transition for that stage. |
| SnapshotService.Service.CleanupContext | src/lib/bdev_ubi_snapshot.c:22-31 | The release gives back the delta device and the channel when they are set, and the context. |
| SnapshotService.Service.Loop | src/lib/bdev_ubi_snapshot.c:22-220 | Any possible events in any order are handled without touching a released context. |
| CreateProofs.DoneExactlyOnce | src/lib/bdev_ubi.c:171-262 | Over any run of creates and destructs with any failures, a create reports once, not before its last step. |
| CreatePlan.SucceedsIff | src/lib/bdev_ubi.c:107-163 | Over all runs, from the events alone: a create reports 0 if and only if its first checks passed, the store was set up, with formatting also the blob created and its snapshot taken, the blob opened, all with success and in that order, and the bdev was registered. |
| CreatePlan.CreateFollowsPlan | src/lib/bdev_ubi.c:84-262 | In every run each create takes the steps of its plan in order, each after the success of the one before; the operation in flight is the next of the plan, and what it has reported is nothing, the code of the early exit, of the step that failed, or of the registration. |
| CreatePlan.LoadOnlyOpens | src/lib/bdev_ubi.c:151-154 | A create without formatting only ever sets up the store and opens the blob. |
| CreatePlan.ExecutedIsPrefix | src/lib/bdev_ubi.c:344-370 | The events those statements speak of are the run itself, up to the first step that reads a freed device. |
| CreateProofs.ListExact | src/lib/bdev_ubi.c:290-329 | The global list is, in order, the devices whose create reported success and which have not been destructed since. |
| CreateProofs.LeftoversExact | src/lib/bdev_ubi.c:264-284 | With nothing in flight no create context is left, exactly the listed devices have an io_device, a blob is open or a blobstore loaded for exactly the listed devices and those whose close or unload failed, and the structs in memory are the listed ones and those of failed creates. |
| CreateProofs.DevicesLiveIff | src/lib/bdev_ubi.c:344-370 | In any run all steps find the device they read in memory if and only if no step that reads a device comes after the callback that frees it. |
| CreateProofs.EveryDeviceCanBeFreedEarly | src/lib/bdev_ubi.c:355-370 | From every reachable world, for every listed device, destruct, free and close callback form a possible run that reads the freed device. |
| CreateProofs.FreedTooEarly | src/lib/bdev_ubi.c:355-370 | An instance from the empty world. |
| CreateProofs.NoStepOnReleasedContext | src/lib/bdev_ubi.c:84-163 | No callback of a create runs on a released context. |
| CreateProofs.StepKeeps | src/lib/bdev_ubi.c:84-370 | Every possible event of a create finds its context and device; every event that finds the device it reads keeps the invariant. |
| CreateProofs.AliveRemoves | src/lib/bdev_ubi.c:355-370 | Removing a destructed device takes it, and only it, off the list. |
| CreateService.Module.Begin | src/lib/bdev_ubi.c:171-262 | The in-place create is the transition `Begin` on every early exit. |
| CreateService.Module.Finish | src/lib/bdev_ubi.c:290-329 | The in-place end of a create is the transition `Finish`, with the status that registration may change. |
| CreateService.Module.StoreReady | src/lib/bdev_ubi.c:139-163 | The in-place callback is the transition for that stage: after success it submits the creation of the blob when formatting and its opening otherwise, and reports nothing yet. |
| CreateService.Module.BlobOpened | src/lib/bdev_ubi.c:90-103 | The in-place callback is the transition for that stage. |
| CreateService.Module.Destruct | src/lib/bdev_ubi.c:355-370 | The in-place destruct is the transition `Destruct`: off the list, close or unload submitted, and the free of the device submitted beside it. |
| CreateService.Module.TearDown | src/lib/bdev_ubi.c:264-284 | The in-place teardown callbacks and the free are the transition `TornDown`; an error leaves the blob open or the store loaded. |
| CreateService.Module.Loop | src/lib/bdev_ubi.c:84-370 | Any possible events in which no device is read after its free are handled on live contexts and devices. |

## Left out

Assumptions of the copy engine:

- A transfer that moves fewer bytes than asked without the code noticing (any failed bdev transfer, whose callback ignores `success`, and a short io_uring result) is excluded from the runs of the copy theorems; for dense copies `EveryCleanExitIsCopyIff`, `DamageContained` and `CleanExitIsCopyIff` say what holds without that assumption, for sparse file copies `DamageContained` and `SparseCleanExitIff`; for sparse bdev copies nothing is claimed.
- Input and output are different targets: the input does not change during a copy.
- Apart from `RequestsFitIff` the theorems take an output block size that divides the unit, which that lemma motivates.
- The theorems about sparse copies take them without a count, to the end of an input whose data/hole boundaries are whole output blocks and which does not change during the copy; with a count only the one call of `CountedSeekStaysIff` is claimed.
- For a sparse copy from a bdev the copy, partition, seek, progress and bound theorems hold; the number of exits after the start loop is not claimed, and of the ways to abort only an interrupt is.
- The exact condition for a clean end is proved for dense copies; for sparse file copies only that the stated conditions suffice.
- Completions are events of their own, never nested inside the submission.
- `O_APPEND` output, the retry of `-EAGAIN` results, the fatal branch of the libaio poller, and failed allocations or ring set-up are not modelled.
- Option and flag parsing, opening of targets beyond their size and block size, the formatting of the progress line and cleanup are not modelled.

Assumptions of the delta:

- Writes of the delta are one whole cluster each, go through one channel, and either succeed in full or fail; a short `write` that the code takes for success is not modelled.
- The scan for an all-zero payload in `bs_dev_delta_write` only feeds a log line and is left out.
- Block and cluster sizes are powers of two with clusters below 2 GiB, cluster numbers are below the size of the map, and addresses fit 64 bits.
- Requests to the reader that cross a cluster boundary are claimed to be sound only without a snapshot path; chains of several deltas are not modelled.
- Failing `open`, `stat`, `lseek`, header `read` and header `write`, io_uring errors and the pollers are not modelled; the unsupported device operations only return a code.

Assumptions of the callback chains:

- The blobstore, the bdev layer and the thread library appear only as operations in flight that call back later with any result, once each.
- Failed allocation of a snapshot context or delta device, and a call without options, are not modelled.
- CreateService.Module.BlobOpened: does not model the log line that reads the id of the blob before the error test; a failed open is taken to deliver something that line can read, else `done_fn` may not be reached.
- A run of creates and destructs is followed up to the first step that reads a freed device; what happens after that is undefined in the code.
- The bdev layer is taken to destruct only bdevs that are registered with it, and each once; no bdev is destructed while a snapshot on it is under way.
- Contexts and devices are entries of a map that a release removes, not heap objects; two names for one context cannot arise.
- JSON-RPC, I/O channels, `vhost_ubi` and the test programs are not modelled.
- The on-disk layout described in the repository's README (stripes and metadata) is not what this code implements; the code is followed.

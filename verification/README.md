# NexusDrive: block cache, session rollback, scopes and deliveries

A Dafny model of four parts of NexusDrive and proofs about them.

**The block cache** (`internal/cache`) keeps the bytes of a remote file in five forms: block
files, blocks waiting in memory to be written, partial blocks with a bitmap of sub-blocks, a
sparse file being filled block by block, and a complete file shared by hard links and read
leases. It moves bytes between these forms, charges them to a byte and an object budget, evicts
cold entries, and reloads what a crash left.

- `CacheModel` holds the state and what each critical section does to it; `CacheSteps` says when a
  step may happen. A run is any sequence of steps: callers, write-behind workers, split flushes,
  hydrations and whole-file installs interleave freely under the admission lock.
- `CacheInvariant` says what every state keeps. `CacheKeeps*` proves it step by step, with
  `CacheEdits`, `CacheFrames`, `CacheLocks` and `BlockContents` as the shared groundwork, and
  `CacheRuns` for whole runs. `CacheHoles` says which runs break it, `CacheClaims` which runs leave a
  file claiming a block that is nowhere. `CacheReads` and `ReadRaces` draw the conclusions for readers:
  what a hit returns. `CacheHits` says when a read is a hit, `CacheServes` that what was stored is found,
  `CacheProgress` that merges, whole-file puts, publications and flushes that may be done can be.
- `CacheCharge`, `CacheChargeWhole`, `CacheBudget*` and `CacheCaps` do the same for the budget.
  `CacheSupersede` settles which steps supersede a whole-file install, `CacheFindings` what goes wrong
  in a single step and `CacheOverruns` how runs from an empty cache get there.
- `CacheFlows` says what every step does to pins and to what readers can find, `CachePins` that nothing
  of a pinned file is evicted, `CacheLeases` that an open lease keeps its bytes, and `CacheOrder` in
  which order entries go.
- `CacheIndex`, `CacheVictims`, `CachePuts`, `CacheFills`, `CacheFlushes`, `CacheInstalls`,
  `PartialReads` and `DiskHeadroom` are the code in its own form: a class whose maps and running
  totals are updated in place, with the loops of the source. Each method is proved to take the step
  of the machine and to leave every total the exact sum it stands for. `CacheAdmits` puts room,
  evictions and store together and proves each call to be a run of the machine.
- `SparseCrash`/`SparseLayout` and `SidecarCrash`/`BlockSidecar` are the two crash protocols. The
  classes record every state the disk passes through, so a statement about the trace is one about
  a crash at any moment.
- `Bitmap`, `BitmapCodec`, `Geometry`, `Ranges` and `Sums` are the arithmetic of blocks and sub-blocks.

**Session rollback** (`internal/agent/rollback.go`, `preimage.go`) undoes an agent's write log over
a tree filesystem. `Tree`, `SessionLog` and `Undo` are the model; `RollbackInverts`,
`RollbackReplaced`, `RollbackLost`, `SessionHistory`, `SessionMoves`, `RollbackReruns`,
`RollbackForeign` and `RollbackRedo` the theorems; `RollbackHonest` says what an undo does on any tree,
`SessionTools` what the write tools do and which calls keep what their undo needs;
`RollbackRunner` the loop; `Preimages` and `PreimageStore` the blobs kept for it.

**Scopes** (`scope.go`: `Paths`, `Scope`, `ScopeLists`) and the **delivery queue**
(`deliveries.go`: `Deliveries`, `DeliveryRows`, `DeliveryTable`) are smaller.

## What does not hold

Where a promise fails, the model keeps the code, and a theorem says exactly when it fails.

- A synchronous range put that completes a block counts sub-blocks that are still only in memory,
  promotes the block without them, and a read of one is then a hit of whatever the block's file held
  there (`CacheHoles.HoleReads`): zeros when there was no file (`HoleReadsAsZeros`), and right exactly
  when the file held the real bytes already (`HoleIsRight`). Honest runs stay real exactly when no put
  does this to a sub-block the file lacks and no file is merged that claims a block that is nowhere
  (`AlwaysRealExactly`, with the tests `CacheKeepsBlocks.Spoils` and `CacheInvariant.AllBacked` on the
  state before the step). On an empty cache two puts with the close between them get there
  (`HoleIsReachable`).
- `ReadAt` locates, chooses where to read, and reads, and lets go of its lock in between. The index
  answers for some bytes of the chosen source when it is read; the hit is right exactly when the source
  holds the real bytes of the rest (`ReadRaces.LateFetchIsReal`). A block evicted and made anew as a
  partial one in either gap is a hit of zeros (`StaleLocateReadsZeros`), which a lawful run brings about
  (`StaleLocateIsReachable`).
- A range put for a block that only the complete file holds makes a partial entry, which is looked at
  first: every byte of the block outside the range, a hit before, is a miss after it
  (`CacheServes.RangeHidesRest`, `CompleteIsHidden`).
- The hand-over of a flushed block to its sparse file takes the lock three times: to find or make the
  sparse file, to drop the block, and to note it. No step of it asks for room. A sparse file made there
  is one more object (`CacheFindings.MadePartExceeds`), and from the drop to the note the bytes are
  charged to nothing, so that another call may be granted the room (`NoteExceeds`). Runs from an
  empty cache pass either cap (`CacheOverruns.ObjectCapPassed`, `ByteCapPassed`).
- A range put that found a whole block asks for no room. When that block is handed over before the put
  commits, the put makes an entry nobody admitted: `CacheFindings.OvertakenPutExceeds` says by how
  much, and that the caps hold exactly when that fits. Pinned links exceed by design.
  `CacheCaps.CapsHoldInEveryRun` bounds every run by the caps, what was on its way into sparse files at
  the last grant, and what the steps named here have let in since.
- A sparse file evicted while a block is on its way into it leaves the file claiming a block that is
  nowhere. Every claim has something behind it, in every run, exactly when neither that happens nor a
  block is dropped for a sparse file that is gone already (`CacheClaims.ClaimsExactly`); a run from
  an empty cache gets there (`CacheOverruns.ClaimIsLost`).
- The comment on `PutWhole` says that another install supersedes it. The end of a hydration does
  not bump the generation and does not (`CacheSupersede.HydrationDoesNotSupersede`).
- `closeParts` writes its bitmap even when the sync failed: the claim is in order exactly when all
  it names is settled (`SparseLayout.SparseFile.Close`), and otherwise some crash reloads a wrong
  block (`UnsyncedCloseInvents`). A bitmap persisted without the admission lock can land on a
  sparse file made later; the claim is right exactly when it is in order with what is there by
  then (`SparseFile.LateClaim`), and after an eviction it is not exactly when the unlink worked
  (`OvertakenPersist`).
- `putRangeSync` creates the file of a block that is whole in memory without a claim, counts
  sub-blocks that are only in memory into a promotion or a claim, and `claimBlock` keeps any sidecar it
  finds, also one left by a crash between two unlinks. `BlockSidecar.BlockOnDisk.PutRangeSync` and
  `OpenPartial` state exactly when a crash stops being harmless.
- A move onto a path that exists removes it first, without a capture. Rollback of one that went
  through reports the row restored and the target is gone (`SessionMoves.ReplacedTargetIsLost`). One
  that fails after the removal, or is refused because one path is inside the other, counts as a write
  that failed; rollback skips it, and the target is gone as well, with the source when that was inside
  (`FailedMoveLosesTarget`). When the session itself had created the target, the starting tree comes
  back and the create stays unsettled (`CreatedTargetLeavesNoTrace`). What is lost in general is
  `RollbackLost.RollbackLosesExactly`, and `RollbackLosesUpTo` for rollbacks that an undo blocks.
- A copied file that was overwritten or deleted later in the session makes the undo of the copy a
  conflict. Together these are the failures of a session that kept its preimages: rollback settles
  every row and restores the starting tree exactly when no move got as far as a target that existed
  and no copy was rewritten (`SessionHistory.RollbackInvertsSession`).
- A rollback that died before marking a row and was rerun is complete, but a third run can undo
  the unmarked row once more, exactly when the starting tree looks like what the row left
  (`RollbackReruns.FurtherRun`, `ScratchFileComesBack`).
- The preimage sweep reads the rows before it takes its lock. It loses exactly the preimages of
  rows recorded in between whose blob was there, unnamed and is no longer held
  (`Preimages.SafeNext`), and a run is safe exactly when no sweep does
  (`PreimagesSurvive`, `RecordDuringSweepLosesPreimage`).
- The comment on `ResetRunning` says that a younger running row of a key folds into the older one. The
  loop puts rows back oldest first and each one deletes the pending rows of its key, so the youngest
  stays (`DeliveryRows.ResetDropsOlder`).
- `Done` and `Dead` settle a delivery by its id, whatever its state. An event is lost exactly when
  one of them names the pending row it waits in (`Deliveries.SettledExactly`, `NothingIsLost`).

## Model

| member | source | states |
|---|---|---|
| `CacheRuns.EveryHitIsReal` | internal/cache/blockcache.go:470-634 | If every put for a key carries slices of one fixed byte string, then after any lawful run from an empty cache a `ReadAt` hit on any range of any block returns exactly those bytes, whatever mix of forms holds the block; `CacheHits.HitsExactly` says when it is a hit |
| `CacheReads.HitsAreReal` | internal/cache/blockcache.go:470-634 | The same in every state the invariant describes: n bytes from `off`, or up to the block's end |
| `CacheHits.HitsExactly` | internal/cache/blockcache.go:470-634 | In every state the invariant describes, a read of any range of a block is a hit, with the real bytes, if and only if the sparse file has the block, or its entry is whole or has every sub-block of the range, or there is neither and the file is complete; otherwise it is a miss |
| `CacheHits.HeldIsCovered` | internal/cache/subblock.go:783-831 | A range is there if and only if each of its sub-blocks is |
| `CacheServes.StoredIsHit` | internal/cache/blockcache.go:470-634 | Whatever a lawful step stores or moves is a hit with its real bytes right after it: a put of a block or a range, a link, a publication, the end of a hydration, of a whole-file put or of a flush, a block noted or adopted by the sparse file |
| `CacheServes.StoredIsFound` | internal/cache/blockcache.go:470-634 | And after every lawful run that follows without an eviction, a Forget, a failed flush, a block on its way into a sparse file or a range put beside a complete file |
| `CacheServes.HeldStays` | internal/cache/blockcache.go:470-634 | Whatever is there, however it got there, stays there through every such run |
| `CacheServes.ForgottenIsGone` | internal/cache/blockcache.go:1079-1164 | After Forget no read of the file is a hit, in any form |
| `CacheServes.RangeHidesRest` | internal/cache/subblock.go:335-439 | For every range put in memory for a block that is in a complete file and nowhere else: sub-block i was there before the put, and is there after it if and only if the range names it |
| `CacheServes.CompleteIsHidden` | internal/cache/subblock.go:335-439 | With every block of a file in its complete file, for every byte outside the range: a lawful run of three steps, the put of an honest caller, turns the read of it from a hit into a miss |
| `CacheProgress.MergeLands` | internal/cache/blockcache.go:839-948 | From every state the invariant describes with the lock free, a file whose blocks are all on disk and room for it: asking, reserving, copying block after block and installing are a lawful run, after which every read of the file is a hit |
| `CacheProgress.PutWholeLands` | internal/cache/whole.go:294-385 | So is a whole-file put of any file, in four steps |
| `CacheProgress.LinkLands` | internal/cache/whole.go:145-262 | So is a link to a local copy, pinned or not, over whatever there is of the file, by an inode that is new or has this content |
| `CacheProgress.PublishLands` | internal/cache/sparse.go:535-576 | A sparse file with every block is published in one step, with the same end |
| `CacheProgress.PutPartLands` | internal/cache/sparse.go:261-305 | A block of a large file is put into its sparse file in three steps, whether that was there or not |
| `CacheProgress.FlushLands` | internal/cache/writebehind.go:170-258 | Every block of a small file that is in memory, with no flush of it begun, reaches its own file in two steps, and nothing else in the index changes |
| `CacheProgress.HandOverLands` | internal/cache/sparse.go:311-373 | Every such block of a large file reaches its sparse file in four steps, whether that was there or not |
| `CacheModel.LayoutFrom` | internal/cache/sparse.go:89-98 | Files are kept in a sparse file from 64 MiB on, or from the length set, and never when that is negative |
| `CacheFlows.StepFlows` | internal/cache/blockcache.go:156-220 | No step changes the pins of a file but Pin, SetUserPin, Forget and a pinned link; blocks go on carrying the pin of their file; and but for the few steps named, what a reader could find before the step can be found after it |
| `CacheFlows.RunFlows` | internal/cache/subblock.go:26-27 | After every lawful run every block carries the pin of its file, and no more than 256 blocks being filled have a descriptor open |
| `CachePins.FlagsAfter` | internal/cache/blockcache.go:1016-1076 | What any step makes of the two pins of any file: Pin sets the one, SetUserPin the other, Forget takes both, a pinned link sets the first, and nothing else touches them |
| `CachePins.EvictionSpares` | internal/cache/blockcache.go:1379-1438 | No eviction of any kind changes anything of a pinned file: its record, blocks, block files, sparse file, inode |
| `CachePins.PinnedIsSafe` | internal/cache/blockcache.go:1016-1076 | Over every lawful run in which nobody takes a pin of the file back: no eviction changes anything of it, blocks stored after the pin included |
| `CachePins.PinIsKept` | internal/cache/blockcache.go:1016-1076 | From an empty cache: whatever happened before the pin, nothing of the file is evicted after it until it is taken back |
| `CachePins.ForgetSparesOthers` | internal/cache/blockcache.go:1090-1164 | Forgetting a file changes nothing of another one, not even of one that shares its inode |
| `CacheLeases.LeaseStep` | internal/cache/whole.go:26-65 | Every step: the readers of an inode are one more after a lease on a file that has it, one fewer after one given back, and else the same; while there are any its bytes stay |
| `CacheLeases.ReadersAreLeases` | internal/cache/whole.go:26-65 | After every lawful run an inode has as many readers as leases were opened on it and not given back |
| `CacheLeases.LeasedStays` | internal/cache/whole.go:26-65 | Through every lawful run in which some lease on it is open at every moment, an inode keeps its bytes |
| `CacheLeases.OpenedReads` | internal/cache/whole.go:45-65 | A lease on the complete file of k that is not given back reads the content of k after every lawful run, whatever is evicted, forgotten, replaced or closed by others |
| `CacheLeases.LastFrees` | internal/cache/whole.go:67-72 | An inode goes with its last lease if and only if it has no name left |
| `CacheReads.LocatedRead` | internal/cache/blockcache.go:551-634 | A fetch of a range the block does not lack returns real bytes from whichever form it finds first |
| `CacheReads.LocatedLength` | internal/cache/subblock.go:783-831 | A located range is answered with the real length of the block |
| `CacheReads.PartialRead` | internal/cache/subblock.go:783-831 | Over a covered range, memory laid over the block file is the real content, and the file alone is when nothing is in memory |
| `ReadRaces.LateFetchIsReal` | internal/cache/blockcache.go:470-634 | With any lawful runs between locating and choosing the source and between choosing and reading it, a hit is right if and only if the source holds the real bytes of what the index does not answer for by then |
| `ReadRaces.EveryReadIsReal` | internal/cache/blockcache.go:470-634 | The same for every read from an empty cache on, its three parts anywhere in a lawful run |
| `ReadRaces.StaleLocateReadsZeros` | internal/cache/blockcache.go:470-634 | For every whole block located, evicted and made anew by a range without sub-block i, the read of sub-block i is a hit of zeros, with the source chosen after that or before it, while locating it again would miss |
| `ReadRaces.StaleLocateIsReachable` | internal/cache/blockcache.go:470-634 | From every state with the lock free, nothing protecting the block and room for the range, a lawful run does this |
| `ReadRaces.ChooseAndRead` | internal/cache/blockcache.go:551-634 | With nothing in between, choosing a source and reading it is the read of the one-step model |
| `ReadRaces.ReadLater` | internal/cache/blockcache.go:551-634 | The exact condition in every state the invariant describes, for every source that was sound when it was chosen |
| `ReadRaces.RunConfig` | internal/cache/blockcache.go:40-81 | No run changes the configuration |
| `CacheRuns.RunKeeps` | internal/cache/blockcache.go:156-220 | Every lawful run keeps the invariant |
| `CacheRuns.StepKeeps` | internal/cache/blockcache.go:156-220 | Every lawful step keeps the invariant |
| `CacheRuns.FullPartIsFile` | internal/cache/sparse.go:535-576 | A sparse file with as many blocks as the file has is the file, byte for byte |
| `CacheRuns.EvictionKeeps` | internal/cache/blockcache.go:1379-1438 | Evicting any victim of any kind keeps the invariant |
| `CacheKeepsBlocks.PutBlockKeeps` | internal/cache/blockcache.go:664-732 | A whole block put, on disk or in memory, over anything that was there, keeps the invariant |
| `CacheKeepsBlocks.PutRangeKeeps` | internal/cache/subblock.go:335-439 | A range put in memory keeps the invariant |
| `CacheKeepsBlocks.PutRangeSyncKeeps` | internal/cache/subblock.go:634-773 | A range put on disk, with promotion of a completed block, keeps it unless it counts a sub-block that is only in memory and not in the file |
| `CacheKeepsBlocks.FlushSubsKeeps` | internal/cache/subblock.go:466-618 | Flushing sub-blocks, with promotion or with failure, keeps the invariant |
| `CacheKeepsBlocks.FlushFinishKeeps` | internal/cache/writebehind.go:170-258 | The end of a flush keeps the invariant, whether its block is another one by now, the write failed, or the block file is published |
| `CacheKeepsParts.PutPartKeeps` | internal/cache/sparse.go:261-305 | A block put into the sparse file keeps the invariant, refused or not |
| `CacheKeepsHands.HandEnsureKeeps` | internal/cache/sparse.go:311-350 | The first section of a hand-over, which finds or makes the sparse file, keeps the invariant |
| `CacheKeepsHands.HandDropKeeps` | internal/cache/sparse.go:350-362 | So does the second, which drops the block once its bytes are in the sparse file |
| `CacheKeepsHands.HandNoteKeeps` | internal/cache/sparse.go:362-373 | So does the third, which notes it, whatever has become of the sparse file |
| `CacheKeepsHands.NoteFills` | internal/cache/sparse.go:350-373 | The bytes written before the drop are still in the sparse file when the block is noted, whatever came between, if that file is still the one they were written to |
| `CacheKeepsParts.AdoptKeeps` | internal/cache/sparse.go:380-430 | A promoted block adopted into the sparse file keeps the invariant |
| `CacheKeepsWhole.InstalledKeeps` | internal/cache/whole.go:236-262 | Publishing a complete file over blocks, sparse file and an older inode keeps the invariant |
| `CacheKeepsWhole.HydrateFinishKeeps` | internal/cache/blockcache.go:839-948 | A hydration that is still current publishes the real file |
| `CacheKeepsCalls.CopyKeeps` | internal/cache/blockcache.go:839-948 | Each block a hydration copies extends a real prefix of the file |
| `CacheKeepsWhole.PutWholeFinishKeeps` | internal/cache/whole.go:294-385 | A whole-file put that is still current keeps the invariant |
| `CacheKeepsWhole.ForgetKeeps` | internal/cache/blockcache.go:1090-1164 | Forgetting a file with leases and flushes in flight keeps the invariant |
| `CacheKeepsWhole.EvictObjectKeeps` | internal/cache/whole.go:115-131 | Evicting an inode with all its names keeps the invariant |
| `CacheKeepsCalls.PinKeeps` | internal/cache/blockcache.go:1016-1076 | Pins and user pins keep the invariant |
| `CacheCaps.CapsHoldInEveryRun` | internal/cache/blockcache.go:1177-1223 | After every lawful run, charged bytes and objects with what has been granted and what is on its way into sparse files stay within MaxBytes and MaxBlocks plus what was on its way at the last grant and what pinned links, overtaken range puts and sparse files made by flushes have let in since |
| `CacheCaps.StepWithinCaps` | internal/cache/blockcache.go:1177-1223 | Every lawful step keeps the caps with what is owed; a grant clears the debt but for what is on its way |
| `CacheCaps.StepAddsExcess` | internal/cache/blockcache.go:1177-1223 | No lawful step but a grant adds more than its excess, which is nothing unless it is a pinned link, the drop of a block a range put was granted over, or a sparse file made by a flush |
| `CacheCaps.CapsHoldWithoutExemptSteps` | internal/cache/blockcache.go:1177-1223 | A run without such a step, and without a grant while a block is on its way, stays within the caps themselves |
| `CacheKeepsAsks.RoomCovers` | internal/cache/admission.go:6-38 | The room asked for is never less than what the commit adds, for every kind of request but a pinned link |
| `CacheKeepsAsks.RoomIsGrowth` | internal/cache/admission.go:6-38 | It is exactly that, or nothing when the commit adds less, for every request but a pinned link and a block the sparse file has |
| `CacheKeepsAsks.BlocksAreBacked` | internal/cache/blockcache.go:839-948 | A file below the sparse layout claims no block that is nowhere, in every state the invariant describes |
| `CacheBudget.PutBlockCharge` | internal/cache/writebehind.go:93-160 | A block put adds exactly its bytes less what it replaces, and all of them when the old copy is being flushed |
| `CacheBudget.PutRangeCharge` | internal/cache/subblock.go:335-439 | A range put adds exactly the bytes of the sub-blocks that were missing, and nothing over a whole block |
| `CacheBudget.PutPartCharge` | internal/cache/sparse.go:261-305 | A block put into the sparse file is charged once |
| `CacheBudgetSteps.EvictionLighter` | internal/cache/blockcache.go:1379-1438 | No eviction raises the charge or the number of objects |
| `CacheBudgetSteps.EndFlushLighter` | internal/cache/writebehind.go:170-258 | Nor does the end of any flush |
| `CacheBudgetHands.EnsureCharge` | internal/cache/sparse.go:162-213 | A sparse file made for a flush is one more object and no bytes |
| `CacheBudgetHands.HandDropCharge` | internal/cache/sparse.go:350-362 | Dropping a handed block gives back exactly its bytes and its object; the bytes are charged to nothing |
| `CacheBudgetHands.HandNoteCharge` | internal/cache/sparse.go:472-498 | Noting it charges its bytes again, unless the sparse file is gone or had the block |
| `CacheBudgetSteps.PublishLighter` | internal/cache/sparse.go:535-576 | Nor does exchanging the sparse file's charge for the complete file's |
| `CacheBudgetSteps.HydrateLighter` | internal/cache/blockcache.go:839-948 | Nor does turning a hydration's reservation into the file's charge |
| `CacheBudgetSteps.PutWholeLighter` | internal/cache/whole.go:294-385 | Nor does turning a whole-file put's reservation into the file's charge |
| `CacheCaps.UnleaseNoMore` | internal/cache/whole.go:34-43 | Closing the last lease under a waiting link gives back what the link will add |
| `CacheSupersede.SupersededExactly` | internal/cache/whole.go:294-385 | Over every lawful run, an install in flight may still publish if and only if no step of the run touched its file |
| `CacheSupersede.PutWholePublishesUntouched` | internal/cache/whole.go:294-385 | A whole-file put that publishes was overtaken by no put, range, flush into the sparse file, publication, link or Forget of its file |
| `CacheSupersede.StepRecord` | internal/cache/blockcache.go:203-220 | Every step bumps the generation of the files it touches and leaves the identity and generation of all others |
| `CacheSupersede.HydrationDoesNotSupersede` | internal/cache/blockcache.go:930-948 | The end of a hydration of the same file leaves a whole-file put current |
| `CacheFindings.StaleFlush` | internal/cache/writebehind.go:170-258 | For every flush whose block is no longer the entry it took its bytes from, failed or not: its end publishes nothing and gives back exactly its bytes and its object |
| `CacheFindings.EvictedMidFlush` | internal/cache/blockcache.go:1309-1334 | A block evicted mid-flush leaves such a flush, and the total charge as it was |
| `CacheFindings.ForgottenMidFlush` | internal/cache/blockcache.go:1090-1164 | So does forgetting the file |
| `CacheFindings.ReplacedMidFlush` | internal/cache/writebehind.go:93-160 | So does a put of the block, which adds all its bytes and one object |
| `CacheHoles.AlwaysRealExactly` | internal/cache/subblock.go:725-742 | For every run whose callers store only real bytes: the invariant holds after every step if and only if no synchronous range put counted a sub-block that was only in memory and not in the file, and no file was merged that claimed a block that was nowhere |
| `CacheHoles.StepKeepsExactly` | internal/cache/blockcache.go:156-220 | Every honest step keeps the invariant if and only if it is neither |
| `CacheHoles.MergeSpoils` | internal/cache/blockcache.go:839-948 | A merge of a file that claims a block that is nowhere breaks the invariant when it is asked for |
| `CacheHoles.SyncKeepsExactly` | internal/cache/subblock.go:634-773 | The same for the put alone, over any state |
| `CacheHoles.HoleReads` | internal/cache/subblock.go:725-742 | After such a put a read of a sub-block outside the range that was in memory is a hit of what the file held there before |
| `CacheHoles.HoleIsRight` | internal/cache/subblock.go:725-742 | That hit is right if and only if the file held the real sub-block |
| `CacheHoles.HoleReadsAsZeros` | internal/cache/subblock.go:725-742 | Before the block has a file it is a hit of zeros |
| `CacheHoles.HoleIsReachable` | internal/cache/subblock.go:634-773 | For every file with more than one sub-block in its first block, a lawful run from an empty cache, with the cache closed before the second put, reaches such a put, and it spoils the block if and only if the rest is not all zeros |
| `CacheFindings.OvertakenPutExceeds` | internal/cache/admission.go:6-38 | For every range put granted no room over a block that is then handed over: the exact bytes and objects charged once the block is noted, synchronous or not, and the caps hold if and only if these fit |
| `CacheFindings.HandOverCharge` | internal/cache/sparse.go:311-373 | The three sections one after the other exchange the block's charge for the sparse file's, less exactly the bytes of a block the sparse file had already |
| `CacheFindings.MadePartExceeds` | internal/cache/sparse.go:162-213 | A sparse file made by a flush adds one object nobody admitted, and the caps hold if and only if it fits |
| `CacheFindings.NoteExceeds` | internal/cache/sparse.go:472-498 | A note charges bytes nobody admits again, and the caps hold if and only if they fit |
| `CacheOverruns.ObjectCapPassed` | internal/cache/sparse.go:311-373 | With room for one object, for every block of every large file: a lawful run from an empty cache ends with two |
| `CacheOverruns.ByteCapPassed` | internal/cache/sparse.go:311-373 | For every two blocks that fit into the byte cap and not together: a lawful run from an empty cache ends with both charged |
| `CacheOverruns.ClaimIsLost` | internal/cache/sparse.go:311-373 | For every block of every large file: a lawful run from an empty cache ends with the file claiming it and the block nowhere |
| `CacheClaims.ClaimsExactly` | internal/cache/sparse.go:311-373 | Over every lawful run: every block a file claims is whole somewhere or on its way into a sparse file that is there, after every step, if and only if no sparse file was evicted with a claimed block on its way into it and no such block dropped for one that was gone |
| `CacheClaims.ClaimsExactlyFromEmpty` | internal/cache/sparse.go:311-373 | The same from an empty cache on |
| `CacheClaims.StepClaims` | internal/cache/sparse.go:350-373 | The same for one step |
| `CacheClaims.ClaimsBack` | internal/cache/blockcache.go:839-948 | Where claims hold, a file with nothing on its way claims no block that is nowhere, so that it may be merged |
| `CacheIndex.Cache.constructor` | internal/cache/blockcache.go:223-250 | An empty cache with every total zero |
| `CacheIndex.Cache.DropBlock` | internal/cache/blockcache.go:1309-1334 | A block leaves the index; its flush, if in flight, keeps the charge; all ten totals stay exact |
| `CacheIndex.Cache.DropPart` | internal/cache/sparse.go:583-607 | A sparse file goes with the presence marks of its blocks; totals stay exact |
| `CacheIndex.Cache.DetachWhole` | internal/cache/whole.go:67-84 | A file lets go of its inode, which is freed when it has neither names nor readers; totals stay exact |
| `CacheIndex.Cache.EvictWhole` | internal/cache/whole.go:115-131 | The loop over an inode's names removes them all; totals stay exact |
| `CacheIndex.Cache.EvictOne` | internal/cache/blockcache.go:1379-1438 | A left-over temporary or else the coldest entry that nothing protects goes, as the machine evicts it; none if and only if nothing may go. `ProtectedStays`, `GivesUpExactly` and `CacheOrder.TakesColdest` say which, over the fields |
| `CacheIndex.Cache.EvictExpired` | internal/cache/blockcache.go:1339-1372 | Every entry that goes was unprotected and older than the cutoff when it went, and none that may go is left from before the cutoff |
| `CacheIndex.Cache.MakeRoomFor` | internal/cache/blockcache.go:1177-1223 | Every entry that goes has a reason that held when it went: too old, a cap exceeded, or the free space too small; success means both caps hold with the room asked for and, where it is looked at, the free space holds the write beside the headroom and all that is reserved; failure that nothing unprotected is left or the free space is unknown |
| `CacheIndex.Cache.UnderCaps` | internal/cache/blockcache.go:1177-1203 | The expired entries go and then, while a cap is exceeded, the coldest; every entry that goes has one of these reasons when it goes; it ends with both caps met or nothing left that may go |
| `CacheIndex.ProtectedStays` | internal/cache/whole.go:103-113 | Over the fields: no run of evictions removes or changes a block that is pinned, whose file is busy, or that is excluded; an inode that is leased or has a name whose file is pinned or busy; a sparse file of such a file |
| `CacheIndex.GivesUpExactly` | internal/cache/blockcache.go:1379-1438 | Nothing may go if and only if there is no left-over temporary, every block is pinned, busy or excluded, every inode with a name leased or protected by one, and every sparse file protected |
| `CacheOrder.TakesColdest` | internal/cache/blockcache.go:1379-1438 | What goes is a left-over temporary while there is one, else an entry such that no other one that may go is colder by its own use: used once before used again, then by the time of its last use |
| `CacheOrder.RecentExactly` | internal/cache/blockcache.go:1339-1372 | The expiry pass is over if and only if every block, inode and sparse file that may go was used since the cutoff |
| `CacheOrder.LookUpMarks` | internal/cache/blockcache.go:503-548 | A lookup marks the sparse file if it has the block, or else the entry, and the complete file as used again now, and changes nothing else |
| `CacheOrder.JustUsedStays` | internal/cache/blockcache.go:1379-1438 | A block just looked up is not the next to go while one may go that was used once only, or longer ago |
| `CacheOrder.ScanSparesHot` | internal/cache/blockcache.go:121-123 | While the block put last may go, eviction takes nothing that was read again |
| `CacheIndex.EvictCharge` | internal/cache/blockcache.go:1379-1438 | No eviction raises the totals the caps are compared with, in any tidy state |
| `CacheIndex.CandidateBefore` | internal/cache/blockcache.go:1379-1438 | Eviction makes nothing evictable that was not, and changes no rank |
| `CacheIndex.InvReady` | internal/cache/blockcache.go:156-220 | Every state of every lawful run is one the eviction methods accept |
| `CacheVictims.Pick` | internal/cache/blockcache.go:1379-1438 | The three scans find a candidate no other is colder than, and find none only when there is none |
| `CachePuts.PutBlock` | internal/cache/blockcache.go:690-726 | The class takes the machine's block put, with every total exact |
| `CachePuts.Extend` | internal/cache/subblock.go:386-403 | The loop adds exactly the missing sub-blocks, cut from the data, and grows size and memory by the same amount |
| `CachePuts.PutRange` | internal/cache/subblock.go:335-439 | The class takes the machine's range put, with every total exact |
| `CachePuts.BlockRoom` | internal/cache/admission.go:6-38 | The room for a block put, with the credit for what it replaces |
| `CachePuts.RangeRoom` | internal/cache/admission.go:6-38 | The room for a range put is the bytes of its missing sub-blocks |
| `CacheAdmits.StoreBlock` | internal/cache/blockcache.go:664-732 | A block put as one call is a run of the machine: ask, evictions that never take the block replaced, grant and store; or, when nothing more may go, the lock let go with nothing stored |
| `CacheAdmits.StoreRange` | internal/cache/subblock.go:335-439 | So is a range put; one that lacks nothing asks for no room and evicts nothing |
| `CacheAdmits.EvictionSteps` | internal/cache/blockcache.go:1177-1223 | Evictions under the lock are steps of the machine and leave the request and all entries but the victims as they were |
| `CacheFills.FlushPartial` | internal/cache/subblock.go:466-632 | Sub-blocks leave memory and the write-behind total, the block is promoted when complete or dropped when the flush failed, totals and open descriptors exact |
| `CacheFills.Mark` | internal/cache/subblock.go:699-709 | The loop sets exactly the range's missing bits and grows the entry by their length |
| `CacheFills.PutRangeSync` | internal/cache/subblock.go:634-773 | The class takes the machine's range put on disk, with every total exact |
| `CacheFills.PutPart` | internal/cache/sparse.go:261-305 | The class takes the machine's put into the sparse file, with every total exact |
| `CacheFills.AdoptBlock` | internal/cache/sparse.go:380-430 | The block's charge moves to the sparse file, with every total exact |
| `CacheFills.ForgetFile` | internal/cache/blockcache.go:1090-1164 | The class forgets a file as the machine does, with every total exact |
| `CacheFills.EndLease` | internal/cache/whole.go:34-43 | The last lease on an inode without names gives its charge back |
| `CacheFills.InvMeets` | internal/cache/blockcache.go:156-220 | What these methods require holds in every state of every lawful run |
| `CacheFlushes.BeginFlush` | internal/cache/writebehind.go:170-206 | A flush begins once per entry, with the bytes as they are, and charges nothing |
| `CacheFlushes.NoteBlock` | internal/cache/sparse.go:472-498 | A block noted in the sparse file counts once, however often it is noted |
| `CacheFlushes.EndFlush` | internal/cache/writebehind.go:206-258 | A flush whose block is another one by now only gives its charge back, a failed one drops its block, the others publish; totals exact |
| `CacheFlushes.EnsurePart` | internal/cache/sparse.go:162-213 | The class takes the first section of a hand-over, with every total exact |
| `CacheFlushes.DropHanded` | internal/cache/sparse.go:350-362 | The second: the block's bytes leave their total and enter no other; a flush that lost its block just ends |
| `CacheFlushes.NoteHanded` | internal/cache/sparse.go:362-373 | The third: the block counts if the sparse file is still the one it was written to |
| `CacheInstalls.AttachWhole` | internal/cache/whole.go:88-101 | An inode is charged on its first name and only then |
| `CacheInstalls.RemoveBlocks` | internal/cache/whole.go:387-403 | A complete file's blocks and sparse file go, with every total exact |
| `CacheInstalls.Install` | internal/cache/whole.go:236-262 | The class installs a complete file as the machine does |
| `CacheInstalls.Publish` | internal/cache/sparse.go:535-576 | Exactly the file's length moves from the sparse total to the complete one, less an older complete file that nothing else names or reads |
| `CacheInstalls.EndReservation` | internal/cache/blockcache.go:839-948 | Every way out gives the reservation and the hold back once |
| `CacheInstalls.FinishPutWhole` | internal/cache/whole.go:294-385 | A whole-file put publishes and uses up its reservation in one step |
| `CacheInstalls.FinishHydrate` | internal/cache/blockcache.go:839-948 | A hydration publishes the merged file and drops the blocks, with every total exact |
| `PartialReads.Split` | internal/cache/blockcache.go:1243-1268 | The pieces are contiguous, cover the range and stand for memory laid over the file; all from memory when all of it is there |
| `PartialReads.Join` | internal/cache/blockcache.go:1271-1305 | Joining the pieces gives their bytes; a missing file fails only a read that needs it |
| `PartialReads.Read` | internal/cache/blockcache.go:1243-1305 | Any range of a partial block over its file reads as the overlay, a short last sub-block included |
| `PartialReads.ReadFromMemory` | internal/cache/blockcache.go:1271-1305 | Before the block has a file, a range all in memory is still served |
| `DiskHeadroom.Enough` | internal/cache/disk.go:45-47 | The 64-bit test never overflows and holds if and only if the three amounts fit together |
| `DiskHeadroom.Addable` | internal/cache/disk.go:35-37 | The overflow test holds if and only if the sum is a 64-bit number |
| `DiskHeadroom.Journal.Reserve` | internal/cache/disk.go:18-63 | A reservation is granted only beside all that is reserved and the headroom, asked anew each round by the two tests above, and evicts only while the free space is too small; refused only when negative, closed, past 64 bits, out of victims or without a reading of the free space; with no headroom configured nothing is evicted and exactly the first three refuse |
| `DiskHeadroom.Journal.Release` | internal/cache/disk.go:55-62 | A second release does nothing |
| `SparseCrash.ReloadTellsTheTruth` | internal/cache/sparse.go:657-736 | With data before claim, any crash reloads only real blocks, never more than were claimed, and publishes only the complete file |
| `SparseCrash.UnsettledClaimInvents` | internal/cache/sparse.go:503-515 | And only then: for any claim on a block not yet settled some crash reloads a wrong block |
| `SparseCrash.ReloadLosesNothing` | internal/cache/sparse.go:657-736 | When a crash leaves everything as it was, a full sparse file is published and any other is mounted with every block of its claim |
| `SparseLayout.AnyMomentIsSafe` | internal/cache/sparse.go:657-736 | A crash at any moment of any run of the operations reloads only the truth |
| `SparseLayout.SparseFile.EnsurePart` | internal/cache/sparse.go:162-213 | The empty claim goes down before the file, which is there when no disk step fails; a file kept by a failed unlink stays as it is; a failure that can be cleaned up leaves no claim and no new file; every disk state on the way is safe |
| `SparseLayout.OpenedKeeps` | internal/cache/sparse.go:162-213 | Opening a sparse file that was left keeps every byte that fits and fills up with zeros, and keeps what is settled only at the same length |
| `SparseLayout.SparseFile.PutPart` | internal/cache/sparse.go:261-305 | A stored block is present or the file published; nothing present before is lost; every disk state on the way is safe. When no disk step fails a block of the right length is stored, the last one publishes the file, and a claim that is due names every block, all settled; a block that was there changes nothing |
| `SparseLayout.SparseFile.Persist` | internal/cache/sparse.go:503-515 | What a claim is about to name is synced first, and with nothing in between every disk state is safe; when no disk step fails the claim names every block there is, and all are settled |
| `SparseLayout.SparseFile.SyncClaim` | internal/cache/sparse.go:503-515 | After a sync that worked the claim to be written is in order |
| `SparseLayout.SparseFile.LateClaim` | internal/cache/sparse.go:368-373 | A claim written later keeps every disk state safe if and only if it names only what the sparse file there by then has settled |
| `SparseLayout.SparseFile.OvertakenPersist` | internal/cache/sparse.go:368-373 | With the sparse file evicted and made anew between sync and claim, a claim that lands is served wrong after some crash if and only if the eviction got rid of the file, which is what happens when no disk step fails |
| `SparseLayout.SparseFile.Finish` | internal/cache/sparse.go:535-576 | A full sparse file is published with the real content, or nothing changes; it is published when no disk step fails |
| `SparseLayout.SparseFile.Evict` | internal/cache/sparse.go:583-626 | Eviction passes only through safe disk states, whichever unlink fails, and leaves nothing when none does |
| `SparseLayout.SparseFile.Forget` | internal/cache/blockcache.go:1090-1164 | So does forgetting the file, which leaves nothing when no disk step fails |
| `SparseLayout.SparseFile.Close` | internal/cache/sparse.go:630-651 | The state left is safe if and only if everything claimed is settled, which a sync that worked guarantees; when no disk step fails a crash afterwards loses nothing |
| `SparseLayout.SparseFile.Restart` | internal/cache/sparse.go:692-736 | After any crash the reloaded bitmap names only real blocks, and work goes on from there |
| `SparseLayout.UnsyncedCloseInvents` | internal/cache/sparse.go:643-649 | A claim written after a failed sync is served wrong after some crash |
| `SidecarCrash.ReloadServesTheTruth` | internal/cache/blockcache.go:262-325 | Every range the reloaded block would serve is real if and only if the disk state is safe |
| `BlockSidecar.AnyMomentIsSafe` | internal/cache/blockcache.go:262-325 | Over any run of the operations with crashes and restarts among them: every crash reloads only the truth if and only if the block stayed calm |
| `BlockSidecar.BlockOnDisk.OpenPartial` | internal/cache/subblock.go:222-285 | The claim goes down before the file; a crash stays harmless if and only if no file is made beside a claim that is not about it |
| `BlockSidecar.BlockOnDisk.FlushSubs` | internal/cache/subblock.go:466-618 | Sub-blocks written in any order, then promotion or claim; a crash stays harmless if and only if opening the file was |
| `BlockSidecar.BlockOnDisk.Settle` | internal/cache/subblock.go:554-590 | A block promoted without a sidecar is completely real |
| `BlockSidecar.BlockOnDisk.Sweep` | internal/cache/subblock.go:123-182 | A swept claim names only what the file holds |
| `BlockSidecar.BlockOnDisk.Drop` | internal/cache/subblock.go:622-632 | The data goes before the claim, in eviction and Forget as well; a crash stays as harmless as it was |
| `BlockSidecar.BlockOnDisk.Put` | internal/cache/blockcache.go:664-732 | A whole block replaces any file and sidecar through safe disk states |
| `BlockSidecar.BlockOnDisk.FlushWhole` | internal/cache/writebehind.go:206-258 | A flushed block reaches its file through safe disk states |
| `BlockSidecar.BlockOnDisk.PutRangeSync` | internal/cache/subblock.go:634-773 | Over every entry, a whole block in memory among them: a crash stays harmless if and only if no file is made beside a claim that is not about it and no sub-block the file lacks is counted into a promotion or a claim |
| `BlockSidecar.BlockOnDisk.Claim` | internal/cache/subblock.go:256-285 | An empty claim is made unless the block is whole or a sidecar is there, which is kept whoever left it; without a failing disk step it is there at the end |
| `BlockSidecar.BlockOnDisk.Restart` | internal/cache/blockcache.go:262-325 | From a crash at any moment of a calm run, work goes on as calm as before |
| `Bitmap.FullMeansAll` | internal/cache/subblock.go:58-58 | A bitmap counts as full if and only if every bit is set |
| `Bitmap.Partial.Set` | internal/cache/subblock.go:51-56 | Sets the bit in its word and counts it once |
| `Bitmap.Partial.Covers` | internal/cache/subblock.go:61-75 | Holds if and only if every byte of the range lies in a present sub-block, for every sign of n |
| `BitmapCodec.CodecRoundTrip` | internal/cache/subblock.go:79-109 | Decoding the text of a bitmap gives the bitmap back, word for word |
| `BitmapCodec.TruncationUnderclaims` | internal/cache/sparse.go:739-757 | Text cut short anywhere is refused, exactly when it cuts a byte, or claims a subset |
| `BitmapCodec.HexTruncates` | internal/cache/subblock.go:94-109 | Cut hexadecimal text decodes to whole bytes only |
| `BitmapCodec.UnpackBits` | internal/cache/sparse.go:739-757 | The loop restores the bits and the count of those set |
| `Geometry.AllPiecesTile` | internal/cache/blockcache.go:427-445 | The blocks of a file add up to its length |
| `Geometry.CeilingCounts` | internal/cache/blockcache.go:440-445 | Rounding up counts exactly the blocks that are not empty |
| `Geometry.PieceInRange` | internal/cache/blockcache.go:427-437 | A block index is in range if and only if its length is positive |
| `Geometry.SamePiecesSameFile` | internal/cache/blockcache.go:427-445 | Two files with the same blocks are the same file |
| `Ranges.SubRangeAligns` | internal/cache/subblock.go:312-320 | SubRange widens every non-empty range inside a block to one PutRange accepts, by less than a sub-block on each side |
| `Ranges.WriteRange` | internal/cache/subblock.go:634-773 | Writing an aligned range makes the sub-blocks it names real and leaves the others |
| `Ranges.NamedBytes` | internal/cache/admission.go:6-38 | The sub-blocks an aligned range names take exactly the bytes of the range, and some of them no more |
| `SessionHistory.RollbackInvertsSession` | internal/agent/rollback.go:110-142 | For every session of tool calls that kept its preimages, with any writes failing and moves failing before or after their target is removed: rollback settles every row and restores the starting tree if and only if no move got as far as a target that existed and no copied file was overwritten or deleted later |
| `SessionHistory.RollbackLosesExactlyOfSession` | internal/agent/rollback.go:110-142 | With targets removed by moves, and every undo that finds its object doing its work: the tree ends as it started less exactly the paths computed from the rows, and equals it if and only if there are none |
| `SessionTools.RollbackInvertsCalls` | internal/agent/rollback.go:110-142 | Told from the calls and the trees they meet: for every session whose overwritten and deleted files are within the limit and readable, and that deletes no directory with what is in it, rollback settles every row and restores the starting tree if and only if no move got as far as a target that existed and no copied file was overwritten or deleted later |
| `SessionTools.ToolDoes` | internal/mcpsrv/preimage.go:37-83 | A tool call is done if and only if the tree lets it through and its write does not fail; then the tree is as the call asked, with nothing else changed; any other call but a move leaves the tree alone |
| `SessionTools.FailedCallIsSkipped` | internal/mcpsrv/preimage.go:76-84 | The row of a call that failed is skipped as a failed write by every rollback, on whatever tree it meets |
| `SessionTools.KeptExactly` | internal/agent/preimage.go:134-228 | A call keeps what its undo needs if and only if it is not done, or overwrites or deletes no file too large or unreadable and no directory with what is in it |
| `SessionTools.SessionIsKept` | internal/agent/preimage.go:134-228 | A session keeps its preimages if and only if every call of it that was done may be kept, told from the call and the tree |
| `SessionTools.LargeFileStaysGone` | internal/agent/rollback.go:347-379 | For every tree and every file past the limit: deleted in a session, it is not there after rollback, and its row is skipped as too large |
| `SessionMoves.ReplacedTargetIsLost` | internal/mcpsrv/server.go:1012-1019 | For every tree and every move of one thing onto another, rollback settles the row and everything at the target is gone |
| `SessionMoves.FailedMoveLosesTarget` | internal/vfs/write.go:833-973 | For every tree and every move that fails after its target is removed, or is refused because one path is inside the other: the row counts as settled, rollback restores nothing, everything at the target is gone, and the source too if and only if it was inside |
| `SessionMoves.CreatedTargetLeavesNoTrace` | internal/mcpsrv/server.go:1012-1019 | For a target the session created, the starting tree comes back and some row stays unsettled |
| `RollbackReplaced.RollbackInvertsExactly` | internal/agent/rollback.go:110-142 | The session theorem for every log whose rows tell the truth |
| `RollbackReplaced.SettledCount` | internal/agent/rollback.go:110-142 | A rollback that settles every row ends with as many paths as the history started with, less what its moves removed, done or failed |
| `RollbackReplaced.UndoCount` | internal/agent/rollback.go:197-402 | On any tree, an undo that restores takes back exactly the number of paths its row added |
| `RollbackLost.RollbackLosesExactly` | internal/agent/rollback.go:110-142 | The loss theorem for every log whose rows tell the truth and whose undos do their work |
| `RollbackLost.RollbackLosesUpTo` | internal/agent/rollback.go:110-142 | For every log whose rows tell the truth: down to some row the tree is the one before that row less exactly what the rows say is lost, and the row before it, if there is one, conflicts and leaves the tree alone |
| `RollbackLost.BlockedUndo` | internal/agent/rollback.go:226-345 | An undo that finds its object and meets a rewritten copy, or has no directory to move back to, conflicts and changes nothing |
| `RollbackLost.LostStep` | internal/agent/rollback.go:197-402 | Whatever is lost already, the undo of a row leaves the tree before it less what the row says is lost of that |
| `RollbackHonest.RestoresExactly` | internal/agent/rollback.go:197-402 | For any row but a move, on any tree: the undo reports success if and only if the path is as the row left it, what it needs is kept and the write works; then the path is as the row remembers it and all else unchanged; otherwise the tree is left alone |
| `RollbackHonest.MovesBackExactly` | internal/agent/rollback.go:323-345 | The same for moves: what is at the target and below goes back to the source, nothing else changes |
| `RollbackHonest.SkipsExactly` | internal/agent/rollback.go:197-402 | What is not restored is skipped if and only if the row was settled before, keeps too little, has nothing left to undo, or on an undisturbed path finds its directory in use or its blob gone; everything else is a conflict |
| `RollbackHonest.LooksFirst` | internal/agent/rollback.go:197-402 | An undo records a row of its own, and touches the world at all, if and only if the row is unsettled, keeps what is needed, has something left to undo and finds the path as the row left it |
| `RollbackHonest.SaysWhy` | internal/agent/rollback.go:226-257 | A conflict over content says that the write never completed, or else that the file is missing, or else that it was modified |
| `RollbackHonest.JudgedAnew` | internal/agent/rollback.go:197-203 | On whatever tree the next run meets, a row that was restored is settled, and any other is judged as if nobody had looked at it |
| `RollbackHonest.UnkeptIsSkipped` | internal/agent/rollback.go:259-272 | A row that says there was a file and kept nothing of it is skipped with the reason its capture gave, and nothing is written |
| `RollbackHonest.LostBlobIsSkipped` | internal/agent/rollback.go:381-402 | Nor is a row restored whose blob is gone |
| `RollbackHonest.UnkeptStays` | internal/agent/rollback.go:110-142 | A rollback of any rows on any tree files such a row as skipped, never as restored, and leaves it unmarked |
| `RollbackHonest.UndoInventsNothing` | internal/agent/rollback.go:197-402 | Everything in the tree after an undo was there before, or is the directory the row says was there, or a file with the kept preimage of the row |
| `RollbackHonest.NothingIsInvented` | internal/agent/rollback.go:110-142 | For any rows, any tree and any failures: every file there is after a rollback was there before it, with its version, or has the content of the kept preimage of one of the rows |
| `RollbackHonest.FiledNow` | internal/agent/rollback.go:114-141 | Each row is filed where its outcome says, and no other row with it |
| `SessionHistory.SessionIsHistory` | internal/mcpsrv/preimage.go:37-117 | The rows such a session records tell the truth about the trees around each write, and are invertible rows if and only if no move got as far as a target that existed |
| `SessionHistory.ToolRecorded` | internal/mcpsrv/preimage.go:37-83 | Every tool call that keeps what its undo needs records a true row, completed or abandoned; it is an invertible one if and only if the call was not a move that got as far as a target that existed |
| `SessionHistory.MoveFailed` | internal/vfs/write.go:833-973 | A move that fails with its target in place has removed it or changed nothing, and which one |
| `RollbackInverts.RollbackInvertsHistory` | internal/agent/rollback.go:110-142 | For every log whose rows tell the truth and whose moves replaced nothing: every row is settled if and only if no copied file was rewritten later, and then the starting tree is back |
| `RollbackInverts.RestoresTo` | internal/agent/rollback.go:110-142 | Undoing rows hi-1 down to lo gives the tree before row lo, up to versions of rewritten files |
| `RollbackInverts.UndoStep` | internal/agent/rollback.go:197-402 | The undo of any one row takes the tree after it to the tree before it, or is a conflict exactly when the version it recorded was rewritten |
| `RollbackInverts.RewrittenCopyConflicts` | internal/agent/rollback.go:226-257 | Some rewritten copy stays unsettled |
| `RollbackReruns.CrashAndRerun` | internal/agent/rollback.go:110-142 | However many rollbacks were killed between two rows, and wherever the last one dies, before or after marking a row, a rerun ends in the starting tree |
| `RollbackReruns.SettledRowsAreLeftAlone` | internal/agent/rollback.go:126-141 | A run over settled rows changes neither tree, rows nor log |
| `RollbackReruns.FurtherRun` | internal/agent/rollback.go:126-141 | A third run keeps the starting tree if and only if the row was marked or that tree does not look like what the row left |
| `RollbackReruns.ScratchFileComesBack` | internal/agent/rollback.go:126-141 | For every file a session created and deleted, a third run can bring it back |
| `RollbackForeign.ForeignFilesSurvive` | internal/agent/rollback.go:226-379 | With any rows, blobs and outside changes, every file no row recorded for its path survives with content and version, at most moved by a rename undo |
| `RollbackForeign.ForeignFilesStayApart` | internal/agent/rollback.go:323-345 | Two such files are two files afterwards |
| `RollbackForeign.NoRowIsUndoneTwice` | internal/agent/session.go:499-504 | Over any number of complete runs with anything happening in between, no row is undone twice; a run that dies between an undo write and its mark is outside it |
| `RollbackRedo.RollbackOfRollbackIsRedo` | internal/agent/rollback.go:404-423 | For any rows, tree and failures, rolling back a rollback whose captures were kept settles every row and restores the tree before the first rollback |
| `RollbackRedo.LogIsHistory` | internal/agent/rollback.go:404-423 | The log a rollback writes is itself a true history |
| `RollbackRunner.Runner.RecordWrite` | internal/agent/rollback.go:404-423 | Capture, row, write, then the row completed or abandoned |
| `RollbackRunner.Runner.UndoOne` | internal/agent/rollback.go:197-224 | The dispatch and its five inverse operations compute the undo that `RollbackHonest.RestoresExactly`, `MovesBackExactly` and `SkipsExactly` describe over row and tree |
| `RollbackRunner.Runner.Step` | internal/agent/rollback.go:114-141 | One row undone, filed in the plan and settled unless it was settled before |
| `RollbackRunner.Runner.RollbackAll` | internal/agent/rollback.go:110-142 | The loop from the newest row computes the rollback the theorems are about |
| `Preimages.PreimagesSurvive` | internal/agent/preimage.go:334-421 | For any interleaving of captures, copies, records, releases, discards, session drops, crashes and sweeps: every row's preimage is on disk after every step if and only if no sweep removed a blob named by a row recorded after its query |
| `Preimages.SafeNext` | internal/agent/preimage.go:334-421 | A step keeps every preimage if and only if it is not such a removal |
| `Preimages.PreimagesSurviveFromEmpty` | internal/agent/preimage.go:334-421 | The run theorem from an empty store |
| `Preimages.SweepLeavesExactly` | internal/agent/preimage.go:377-421 | Whatever happens between the query of a sweep and its removals: of the blobs there at the query exactly those stay that a row named then or a call holds now, and blobs that came since all stay |
| `Preimages.QuietSweepLeavesNamed` | internal/agent/preimage.go:377-421 | With no call at work, a sweep leaves exactly the blobs that rows name |
| `Preimages.ExactNext` | internal/agent/preimage.go:187-297 | The in-flight count of every blob is the number of calls that hold it, after every step |
| `Preimages.RecordDuringSweepLosesPreimage` | internal/agent/preimage.go:383-401 | For every content, a legal run of five steps loses a recorded preimage |
| `PreimageStore.Store.Keep` | internal/agent/preimage.go:187-228 | Reuses, links or leaves the copy for later, with the hold taken either way |
| `PreimageStore.Store.FinishCopy` | internal/agent/preimage.go:230-271 | A copy ends in place or gives its hold back |
| `PreimageStore.Store.Record` | internal/agent/preimage.go:273-297 | The hold outlives the insert and ends with a failed one |
| `PreimageStore.Store.DropSessions` | internal/agent/preimage.go:334-375 | Exactly the rows of the sessions past retention go |
| `PreimageStore.Store.Unlink` | internal/agent/preimage.go:377-421 | The loop removes exactly the listed blobs that are neither named nor held |
| `Deliveries.NothingIsLost` | internal/agent/deliveries.go:86-248 | Over every sequence of calls, an enqueued event has a pending row, or a running one carries it until that is done or dead, if and only if no Done or Dead named the pending row it waited in |
| `Deliveries.CarriedNext` | internal/agent/deliveries.go:86-248 | The same for one call |
| `Deliveries.SettledExactly` | internal/agent/deliveries.go:153-175 | Settling a row leaves a key without its pending row if and only if it was that row |
| `Deliveries.ValidNext` | internal/agent/deliveries.go:349-383 | Every step keeps at most one pending row per rule and path |
| `Deliveries.AllReopenedKeeps` | internal/agent/deliveries.go:201-248 | Resetting any running rows in order keeps one pending row per key and a pending row for every key that had one or was running |
| `Deliveries.EnqueueWaits` | internal/agent/deliveries.go:86-121 | After Enqueue the event waits in a pending row, new or merged |
| `DeliveryRows.RowNext` | internal/agent/deliveries.go:86-248 | Any call, any row: the row stays unless another one of its key is put back over it; a row that stays is changed by the calls that name it alone, and status, attempts, due time, error, output and completion are what the call says |
| `DeliveryRows.NewRow` | internal/agent/deliveries.go:86-121 | The only new rows are pending ones, without attempts, of events that were not waiting yet |
| `DeliveryRows.AttemptsAreClaims` | internal/agent/deliveries.go:123-151 | Over every sequence of calls, the attempts of a row are the number of claims of it |
| `DeliveryRows.CompletedIsDone` | internal/agent/deliveries.go:153-156 | A row completed in any sequence of calls ends done unless Dead is called for it later, and is never claimed, failed, retried or reset again |
| `DeliveryRows.ParkedIsDead` | internal/agent/deliveries.go:170-173 | A row parked stays dead until it is retried or completed |
| `DeliveryRows.SettledStays` | internal/agent/deliveries.go:153-175 | A row that is done or dead keeps its status and its attempts over every sequence of calls without one that may move it, and no other call names it but a repetition |
| `DeliveryRows.NotBeforeDue` | internal/agent/deliveries.go:123-151 | A row put back by Fail, Retry or a reset is not claimed before the time it was put back for, in any sequence of calls |
| `DeliveryRows.NotBeforeWindow` | internal/agent/deliveries.go:86-121 | Nor is a new row claimed before its window is over |
| `DeliveryRows.NotOvertaken` | internal/agent/deliveries.go:123-151 | While a row waits and is due, whatever is claimed for its rule was due earlier, or at the same time with no greater id |
| `DeliveryRows.ResetRow` | internal/agent/deliveries.go:201-248 | A reset puts a listed row back unless a later one of the list has its key, removes a pending row with the key of a listed one, and leaves every other row |
| `DeliveryRows.ResetDropsOlder` | internal/agent/deliveries.go:201-248 | For every key, five calls from an empty queue: of two running rows of the key a reset keeps the younger, and the older goes with its attempts |
| `DeliveryTable.DeliveryLog.Insert` | internal/agent/deliveries.go:86-121 | Takes the queue's enqueue: inserts unless a pending row of the key is there, and returns that row |
| `DeliveryTable.DeliveryLog.ClaimOldest` | internal/agent/deliveries.go:123-151 | Takes the queue's claim of the oldest due row of the rule, or none when none is due |
| `DeliveryTable.DeliveryLog.MarkDone` | internal/agent/deliveries.go:153-156 | Takes the queue's completion of the row, found by id alone, which `DeliveryRows.RowNext` describes field by field; a key loses its pending row if and only if it was that one |
| `DeliveryTable.DeliveryLog.MarkDead` | internal/agent/deliveries.go:170-173 | Takes the queue's parking of the row, with the same exact loss |
| `DeliveryTable.DeliveryLog.Reopening` | internal/agent/deliveries.go:349-383 | Folds the other pending rows of the key and puts the row back |
| `DeliveryTable.DeliveryLog.FailRow` | internal/agent/deliveries.go:163-166 | Takes the queue's failure of a running row, and leaves any other alone |
| `DeliveryTable.DeliveryLog.RetryRow` | internal/agent/deliveries.go:177-199 | Takes the queue's retry of a dead row, and leaves any other alone |
| `DeliveryTable.DeliveryLog.ResetAll` | internal/agent/deliveries.go:201-248 | The loop takes the queue's reset: every running row reopened, oldest first |
| `Paths.NormaliseIdempotent` | internal/agent/scope.go:23-31 | Normalising twice is normalising once |
| `Paths.UnderIsComponentPrefix` | internal/agent/scope.go:33-37 | On normalised strings Under is exactly path-component prefix |
| `Paths.LastComponent` | internal/agent/scope.go:23-31 | One more component, on any string: an empty one or `.` changes nothing, `..` goes up one and never above the root, any other is the new last one |
| `Paths.ClimbsBack` | internal/agent/scope.go:23-31 | A plain component followed by `..` normalises to what was before it |
| `Scope.IntersectIsExact` | internal/agent/scope.go:78-92 | A path is under the intersection if and only if it is under both lists |
| `Scope.ReadsExactly` | internal/agent/scope.go:117-140 | Over the fields, component by component: a read is allowed if and only if the scope is not expired and the path is below a read prefix, or there are none |
| `Scope.WritesExactly` | internal/agent/scope.go:117-140 | A write is allowed if and only if the scope is neither expired nor read-only, the path is below a write prefix, or a read prefix when there is no write list, and below the sandbox when there is one |
| `Scope.RefusesInOrder` | internal/agent/scope.go:117-140 | Which error a refusal gives: expired before read-only before out of scope; what is granted is the normalised path |
| `Scope.DedupeInOrder` | internal/agent/scope.go:94-107 | Each element once, and what is added to a list comes after what was there |
| `Scope.NarrowReadsExactly` | internal/agent/scope.go:163-182 | Narrow allows exactly the reads both scopes allow |
| `Scope.NarrowWritesExactly` | internal/agent/scope.go:163-182 | Narrow allows a write if and only if both scopes do, as `WritesExactly` describes them, and their reads meet |
| `Scope.CoversIsDominates` | internal/agent/scope.go:205-236 | coversAt holds if and only if from now on everything the other scope allows this one allows |
| `Scope.ParentsCoverNarrow` | internal/agent/scope.go:163-182 | Both parents cover the narrowed scope |
| `ScopeLists.DedupeList` | internal/agent/scope.go:94-107 | Each element once, in order of first appearance |
| `ScopeLists.IntersectLists` | internal/agent/scope.go:78-92 | The loops compute the intersection |
| `ScopeLists.CleanList` | internal/agent/scope.go:39-50 | The loop normalises the list |
| `ScopeLists.AllUnderList` | internal/agent/scope.go:222-236 | The loops decide whether every wanted prefix is under one that is had |

## Left out

- CacheRuns.EveryHitIsReal: takes `ReadAt` as one step; `ReadRaces.EveryReadIsReal` treats its two sections and the read after them. A descriptor kept open by a partial block reads like the block's path there, where the code misses once it is closed.
- CacheRuns.EveryHitIsReal: starts from an empty index. A cache mounted from disk, which does not know the size of a file until something states it, is covered by the crash models only.
- CacheRuns.EveryHitIsReal: assumes that all puts for a key carry slices of one content, that no put spoils a block and that no file is merged that claims a block that is nowhere; `CacheHoles.AlwaysRealExactly` shows that no other honest run is left out. Merges are scheduled only for files below the sparse layout, which never claim such a block (`CacheKeepsAsks.BlocksAreBacked`).
- CacheFlushes.DropHanded: takes the write of the bytes into the sparse file together with the drop of the block that follows it; in between nothing reads them.
- CacheAdmits.StoreBlock: is the call as far as the write-behind has room; the fall-back to a synchronous put asks for its room again, which is a second such call.
- CacheAdmits.StoreRange: leaves out the fall-back in the same way.
- SessionHistory.RollbackInvertsSession: is about sessions that kept their preimages, and undo writes that succeed.
- RollbackLost.RollbackLosesExactly: is about rollbacks in which every undo that finds its object can do its work; `RollbackLosesUpTo` says where any other one stands when the first undo is blocked, and the rows before that are left open.
- RollbackReruns.CrashAndRerun: lets only the last of the killed runs die between a write and its mark; `ScratchFileComesBack` shows that a run after that one need not restore the tree.
- A move whose remote half was done when its other half failed, and other writes that were done remotely and then failed locally; a failing write either changed nothing or, for a move, removed its target.
- A rollback whose write is done and whose row cannot be completed or marked after it; `RollbackReruns.CrashAndRerun` treats the run that dies there.
- SHA-256 is taken as injective: a hash stands for the content.
- Unlinks succeed in the cache machine; the sparse crash model lets them fail. Temporary files whose removal failed are only those found at the start.
- A detached flush may write its block file or sparse block late; the bytes are the same, and the write itself is not a step.
- `Get` on a block that is partial while the file is complete, where locating and reading choose different sources.
- Free space is an oracle; file IO, SQLite, goroutines, timers and mutexes are steps over disk and table state.
- Hydration scheduling, the busy deferral, the timing of claim sweeps and the counter of lagging claims.
- Hit, miss and eviction counts, key sidecars, temporary file names, fallback copies when a link fails.
- Dry-run rollback, which judges each row against the current tree.
- Cancellation by context, audit, tokens, redaction, heartbeats, listings, and everything outside `internal/cache` and `internal/agent` but the capture of a tool's write.

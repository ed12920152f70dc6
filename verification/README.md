# NVMesh management: allocation, reclaim, deltas and attachments

This project models the parts of the management server that keep shared state consistent, and proves what
they promise. It covers four areas.

**Disk segments and reserved space** (`utils.js`). A drive document lists segments, closed block ranges
`[lbs, lbe]`, with two cached values: the number of available blocks and the largest free range. Volumes are
chunks of pRaids of segments. A provisioning group (VPG) owns reserved segments; volumes of the group may be
derived from them, and a derived segment inside the reservation it names is the one allowed overlap.

- `Ranges` defines the maximal runs of a set of blocks and proves the free-range finders against them.
- `Drives` and `DriveStore` hold the drive document, its invariant and its updates, as functions on documents
  and as a class whose methods change the segment list and the cached values in place.
- `ReservedSpace`, `ReservedOffers` and `SharedGapsHistory` cover the unused parts of reserved segments, the reserved
  chunk picked from them, and why all drives of a reserved pRaid stay used at the same offsets; `ReservedRounds` shows
  that storing a reserved chunk is such a step. `Sorting` is the stable sort by size that the choices rest on.
- `AllocationSpec`, `Allocation`, `AllocationHeap`, `AllocateBlocks` and `AllocationResults` cover the
  allocation loop: exactly when it ends and when it succeeds, its chunks tile the volume, no drive turns a chosen
  segment away. `AllocationOrder` says in which order it asks the drives. `Rollback` undoes a failed allocation, over
  all of its rounds, without a trace.
- `Selection`, `FaultTolerance`, `RequiredTargets`, `DriveChoice` and `Substitutions` cover the choice of drives under
  separation rules, the check for enough targets, later substitutions, and exactly when a pRaid survives the loss of
  any one node.

**Reclaim of reserved space** (`utils.js`). Reserved segments are shrunk to what derived volumes use in three
phases: set `pendingReclaim` flags, commit the new chunks, work off the flags. `ReclaimPlan` computes the plan,
`Reclaim` states when the documents of a group agree, `ReclaimFlags` and `Redo` cover flags and the work they ask
for, `ReclaimRun` is the step machine in which management may crash between any two document updates and a
recovery takes over (`modules/sanityAndRecover.js`), and `ReclaimSafety`, `ReclaimOutcome`, `ReclaimConsistent` and
`ReclaimTight` hold the results: every state of every run is valid, all finished runs end with one layout, one
count, the same chunks and volumes, and that outcome is sound, tight and idempotent. `ReclaimRecovery` settles the
one thing in the documents that depends on the crashes, the cached largest ranges, and `ReclaimExample` is an input
for it.

**The assumption of a reclaim, over the whole life of a group** (`utils.js`, `modules/sanityAndRecover.js`). A reclaim
cuts all drives of a reserved pRaid at the gaps of one of them. `ReclaimMoves` covers one segment worked off a
drive's list, `ReclaimOrder` and `ReclaimAlike` the lists of two drives after all flags, in whatever order,
`ReclaimLists` the lists along the runs of `ReclaimRun`. `ReclaimPools` and `ReclaimBacking` relate a reserved pRaid to
the chunks it backs before and after a reclaim, and `ReservedHistory` puts reservations, allocations, deletions and
reclaims into one history in which every reclaim finds its assumption met. The order of the flags is where this can
break: `PlanOrder`, `ReclaimSchedule` and `ReclaimCrashes` show when a crash leaves the drives with different orders,
`OrderExample` is an input, and `Orders` holds what it means to come first. `ReclaimStripes` settles chunks of several
pRaids, which nothing keeps alike.

**The delta recorder** (`calcDelta` in `utils.js`). `Delta` proves exactly when the recorded update turns the
stored object into the one in memory.

**Clients** (`modules/client.js`). `Attachments` and `AttachmentRuns` cover the `pending` marks and reference
lists of attachments over every interleaving, `AttachmentHistory` what each update changes and which references a whole
interleaving leaves, `ReportRuns` what reports of clients may do to them; `Tokens` covers keepalive acceptance,
`Reports` the convergence of attachment reports.

Each atomic MongoDB update is one step, and allocation runs under the zone lock, so its steps are serial.
`uuid.v1()` is a parameter that yields new, distinct names; answers of database queries are parameters with the
properties the query text gives them. JavaScript's stable `sort` followed by taking the first element is
modelled as "the first of the largest".

## Where the code differs from what its text suggests

The code is followed in each case, and the exact condition is proved.

- `getAllFreeRanges` says it returns ranges within `[startRange, endRange)`, but does not cut the last gap: it is
  exact if and only if every block between `endRange` and the last used start is used
  (`Ranges.FreeRangesExactWhen`, with an input in `Ranges.FreeRangesNotClamped`).
- `isSegmentOverlaps` (line 2385) compares `seg.lbe` with `diskSegment.lbs` and so misses exactly one kind of
  overlap, an existing segment strictly inside the new one (`Drives.GuardExact`). The allocator never needs it.
- One-block segments are neither debited by `addSegmentToDisk` nor credited by `forceDeleteDiskSegments`, so the
  cached count is off by their number, and equal to a fresh count if and only if there are none
  (`DriveStore.Drive.CalculateAvailableSpace`). A reclaim does count them: a removal keeps the account if and only
  if the segment is longer (`Drives.ReclaimRemovalKeepsValid`), a replacement if and only if no used group is a
  single block (`Drives.ReplaceKeepsValid`).
- The allocation loop need not end. Two kinds of request keep it going without placing anything as long as enough
  drives are found: those that round to a single virtual block, and those of more than one block set whose stripes
  do not divide a block set, because a range of exactly one block set is then rounded away
  (`AllocationResults.StripesTooWide` is an input). It spins on some supply of drives if and only if
  `AllocateBlocks.Terminates` fails (`AllocationResults.TerminatesExactly`), and on a given supply exactly under
  `AllocationResults.SpinsForever`.
- A recovery recalculates the largest range of the drives that still carry a flag when it starts. A crash between
  the last flag of a drive and its recalculation leaves the drive with a forgotten largest range for good
  (`ReclaimRecovery.CrashForgets`, for every reclaim; `ReclaimExample.ExampleForgets`). An affected drive ends up to
  date exactly when it was still flagged at the last crash or recalculated before
  (`ReclaimRecovery.LastRecoveryDecides`).
- A reclaim works its flags off in the order of the chunks, a recovery in the order of each drive's list. The drives of
  a reserved pRaid that were used alike are so afterwards if and only if all of them were cut in one order
  (`ReclaimPools.ReclaimKeepsUsedAlike`). A crash is harmless wherever it happens if and only if the split chunks of the
  pRaid stand in the lists in the order of the chunks (`ReclaimCrashes.CrashesHarmlessExactly`). Reclaims themselves
  lose that order: a kept chunk moves in front of the pieces of earlier split ones (`ReclaimBacking.SplitFallsBehind`).
  `OrderExample.CrashSpoilsNextReclaim` is an input: one crash, after which the next allocation takes different offsets
  on the two drives and the following reclaim no longer finds shared gaps.
- The gaps of a chunk are those of the first segment of its first pRaid, but nothing ties its other pRaids to them. A
  reclaim gives up blocks of a segment that are in use if and only if the segment is used at an offset its chunk's
  first segment is not (`ReclaimStripes.GivesUpExactly`, with an input in `ReclaimStripes.SecondPRaidIsLost`).
- With a protection domain the first pass over the drives may take a drive that rules out a choice which was there
  (`DriveChoice.ChoiceIsMissed`). Drives are found if and only if enough are in reach of the two passes
  (`DriveChoice.ChooseDrivesForAllocation`).
- Repeated increments of one field are recorded as one: the generated update reproduces the object if and only if
  no field is incremented twice (`Delta.GeneratedUpdateReproduces`, with an input in `Delta.TwoIncrementsLost`).
- Clearing a `pending` mark checks the management boot, not the request, so two requests of one boot share it
  (`Attachments.SameBootSharesTheMark`); mark followed by clear is no change exactly under
  `Attachments.CanUndo`. A detach that names a missing reference clears without ever having set a mark, and so may
  take the mark of another request of its boot: a request keeps its attachment to itself if and only if no such
  clear hits its mark (`AttachmentRuns.ExclusiveStays`, with an input in `AttachmentRuns.StrayClearInput`).
- A detach that leaves references behind sets the wish back to attaching even when the attachment was preempted
  meanwhile (`AttachmentRuns.DetachRevivesPreempted` is a run). An attachment to be detached ends attached if and only
  if some step attached it again and none detached it after that (`AttachmentRuns.EndsAttachedExactly`).
- The check for enough targets takes an erasure coded volume without a level for one with the minimal level, but its
  drives are chosen on nodes of their own: the check lets volumes pass that cannot be placed, exactly on the targets
  `RequiredTargets.EnoughButNotChosen` names.
- An erasure coded volume without an explicit protection level is treated as fully separated when drives are
  chosen, but its substitutions exclude no node (`Substitutions.NoLevelMayLoseAll` is an input). A redundant pRaid
  survives the loss of any one node for life if and only if `Substitutions.KeepsSeparation`
  (`Substitutions.SurvivesExactly`).

## Model

| member | source | states |
|---|---|---|
| `Ranges.GetAllFreeRanges` | utils.js:1029-1048 | the result is the list of maximal runs of the uncovered blocks, up to the end or the last used start, whichever is later |
| `Ranges.FreeRangesExactWhen` | utils.js:1029-1048 | that list answers for the asked range if and only if no block between its end and the last used start is uncovered |
| `Ranges.FreeRangesNotClamped` | utils.js:1036-1044 | one used range far outside makes the finder report blocks outside the asked range |
| `Ranges.GetAvailableSegments` | utils.js:3015-3059 | for overlapping, unsorted or out-of-range used segments the result is exactly the sorted, disjoint, maximal uncovered ranges |
| `Ranges.FindersAgree` | utils.js:3015-3059 | on used segments that end inside the range both finders return the same list |
| `Ranges.RunsUnique` | utils.js:1029-1048 | a set of blocks has only one list of maximal runs, so an exact finder is determined |
| `Ranges.GetLargestRangeAndTotalAvailableSpace` | utils.js:1050-1071 | the total is the number of uncovered blocks, the range the last of the longest runs |
| `Ranges.LastLongestIsLongest` | utils.js:1058-1068 | that range is uncovered throughout, no uncovered stretch is longer and none behind it is as long |
| `Drives.GuardExact` | utils.js:2384-2389 | the overlap guard rejects exactly the overlaps other than an existing segment strictly inside the new one |
| `Drives.AllocatedIsStored` | utils.js:2451-2508 | a segment the allocator produced passes both guards, and storing it keeps layout and count valid |
| `Drives.LargestIsFree` | utils.js:1093-1122 | a piece cut from the start of an up-to-date largest range of two or more blocks is free space |
| `Drives.LargestIsLongest` | utils.js:1093-1122 | no free stretch of a drive is longer than its recalculated largest range |
| `Drives.ForceDeleteKeepsValid` | utils.js:4262-4286 | forced deletion of a segment nothing is derived from keeps layout and count valid |
| `Drives.ReclaimRemovalKeepsValid` | utils.js:4379-4400 | a reclaim removal keeps layout and count valid if and only if the segment is more than one block |
| `Drives.ReplaceKeepsValid` | utils.js:4405-4475 | swapping a reserved segment for replacements that spell out its used blocks keeps layout and count valid if and only if no replacement is a single block |
| `Drives.RetagFollows` | utils.js:4411-4418 | in that swap a derived segment comes to name the one replacement it lies in, clear of all others, and segments derived elsewhere keep their name |
| `Drives.ReplaceFrees` | utils.js:4405-4475 | the swap frees exactly the unused blocks of the reserved segment |
| `DriveStore.Drive.CalculateAvailableSpace` | utils.js:1073-1090 | the fresh count is the number of uncovered blocks, equal to the cached count if and only if there is no one-block segment |
| `DriveStore.Drive.GetLargestSegment` | utils.js:1093-1122 | the largest free range of the document, zeroed when it is at most one block |
| `DriveStore.Drive.IsSegmentOverlaps` | utils.js:2375-2389 | reports a segment if and only if some stored one meets the guard, and then one that does |
| `DriveStore.Drive.AddSegmentToDisk` | utils.js:2451-2508 | rejects and marks for eviction, or stores with both cached values in step; never rejects what the allocator produced |
| `DriveStore.Drive.ForceDelete` | utils.js:4262-4286 | pulls the segment, credits the count unless derived or one block, forgets the largest range, and keeps the drive valid |
| `DriveStore.Drive.CommitReclaimRemoval` | utils.js:4379-4400 | pulls the segment and credits all its blocks, keeping a valid drive valid |
| `DriveStore.Drive.CommitReclaimReplacement` | utils.js:4405-4475 | drops the original, retags what it covered, appends the replacements, credits the freed blocks, and keeps a valid drive valid |
| `DriveStore.Drive.RecalculateLargestSegment` | utils.js:4512-4524 | the cached largest range becomes the largest free range, nothing else changes |
| `DriveStore.HistoryKeepsAccounts` | utils.js:2451-2508 | after any history of adds, deletions, reclaim commits and recalculations the drive is valid, and without one-block segments the cached count is the number of free blocks |
| `DriveStore.RecalculatedIsLongest` | utils.js:4512-4524 | after any history a recalculation finds a free stretch no other free stretch exceeds |
| `Redo.ApplyKeepsReady` | utils.js:4885-4898 | working off one flag keeps the drive valid and ready for every remaining flag, whichever comes next |
| `Redo.ApplySettles` | utils.js:4885-4898 | what the remaining flags lead to after a step is what they led to before it |
| `Redo.SettledUnique` | utils.js:4849-4852 | the layout with all flags worked off is determined by the flags alone |
| `ReclaimPlan.BuildUsedRangesByReservedUUID` | utils.js:4528-4548 | the map holds, per reservation, the ranges of the derived segments that name it, in document order |
| `ReclaimPlan.RangesNamingSpec` | utils.js:4528-4548 | those ranges cover exactly the blocks of derived segments that name the reservation |
| `ReclaimPlan.MergeContiguousRanges` | utils.js:4550-4570 | the groups are the maximal runs of the covered blocks, for overlapping and touching input alike |
| `ReclaimPlan.IdentifyReclaimableSegments` | utils.js:4717-4794 | the loop computes the plan that the following rows characterise |
| `Reclaim.RemovalsSpec` | utils.js:4733-4741 | the plan removes the segments of exactly the chunks no derived segment names |
| `Reclaim.ReplacementsSpec` | utils.js:4756-4772 | the plan replaces the segments of exactly the partly used chunks, each by its used groups moved to its own offset |
| `Reclaim.DocsShowUse` | utils.js:4717-4731 | the ranges recorded in the volume documents are the blocks in use on the drive |
| `ReclaimFlags.FlagOfChunk` | utils.js:4829-4846 | the flag set on a reserved segment follows the decision on its chunk |
| `ReclaimFlags.RunsOfUse` | utils.js:4720-4721 | under shared gaps the groups of the reference segment, shifted, are the used runs of every segment of the chunk |
| `ReclaimFlags.MarkedReady` | utils.js:4805-4848 | once all flags are set every drive is ready to have them worked off in any order |
| `ReclaimRun.MapFollowsFlags` | utils.js:4857-4860 | the stored uuid map renames a reservation if and only if its drive replaces it, to the same segments |
| `ReclaimRun.VolumeFollowsDrive` | utils.js:4599-4657 | the volume documents and the drives rename a derived segment alike |
| `ReclaimRun.RenamingTwice` | utils.js:4599-4657 | renaming a volume twice is renaming it once, so recovery may repeat it |
| `ReclaimRun.StepKeeps` | utils.js:4805-4952 | every update of the three phases and of a recovery, and a crash at any point, keeps the invariant of the reclaim |
| `ReclaimRun.RunKeeps` | utils.js:4805-4952 | so does every run |
| `ReclaimSafety.BeforeCommitOnlyFlags` | utils.js:4805-4807 | before the commit point only flags differ from the start, and unsetting them restores it exactly |
| `ReclaimSafety.EveryStateIsValid` | utils.js:4805-4902 | in every state of every run each drive is valid, crashed or not |
| `ReclaimSafety.OneOutcome` | utils.js:4849-4905 | all finished runs end with the same layout, counts, chunks and volumes, whatever the order and the crashes |
| `ReclaimSafety.RecoveryFinishes` | modules/sanityAndRecover.js:2750-2791 | from every state past the commit point the flags on the drives and the stored uuid map lead to the end |
| `ReclaimSafety.FinishedLeavesNothing` | utils.js:4936-4947 | a finished reclaim, crashed or not, leaves no flag on any drive and no stored map |
| `ReclaimRecovery.LargestDecides` | utils.js:4512-4524 | a finished reclaim leaves an affected drive with its largest range up to date if the run recalculated it, and forgotten if not |
| `ReclaimRecovery.LastRecoveryDecides` | modules/sanityAndRecover.js:2763-2784 | an affected drive ends up to date exactly when it carried a flag at the last crash past the commit point or was recalculated before |
| `ReclaimRecovery.NoCrashRefreshesAll` | utils.js:4902-4905 | without a crash past the commit point every affected drive ends up to date |
| `ReclaimRecovery.CrashForgets` | modules/sanityAndRecover.js:2763-2784 | every reclaim has a finished run that leaves an affected drive without a known largest range |
| `ReclaimRecovery.CommitIsReachable` | utils.js:4799-4860 | a reclaim with something to do can reach its commit point |
| `ReclaimExample.ExampleForgets` | modules/sanityAndRecover.js:2763-2784 | an input: a drive whose blocks are all free in the end and whose cached largest range says none |
| `ReclaimConsistent.OutcomeIsTight` | utils.js:4660-4664 | afterwards every reserved segment is covered by derived segments to the last block |
| `ReclaimConsistent.OutcomeVolumesStored` | utils.js:4599-4657 | afterwards each recorded segment is on its disk as recorded, and the reservation it names is there |
| `ReclaimConsistent.OutcomeIsConsistent` | utils.js:4660-4664 | afterwards all documents of the group agree again, with shared gaps |
| `ReclaimTight.NothingToReclaimIffTight` | utils.js:4799-4804 | the identification comes up empty if and only if every reserved segment is fully used |
| `ReclaimTight.PlanTiles` | utils.js:4743-4792 | the rebuilt chunks lie end to end from 0 |
| `Chunks.TilesOnce` | utils.js:4778-4792 | in such a tiling every virtual block belongs to exactly one chunk |
| `ReclaimTight.ReclaimIsSound` | utils.js:4665-4955 | a finished reclaim is consistent, tight and tiled, and a second identification finds nothing |
| `ReclaimTight.DerivedSegmentsSurvive` | utils.js:4405-4657 | no used block is freed or moved; each derived segment lies in exactly one reserved segment, the one it names on disk and in its volume |
| `ReservedSpace.GetReservedSegments` | utils.js:2974-3007 | the unused ranges of the unflagged reserved segments of the group, in the order of the drive's list |
| `ReservedSpace.PickIsUnused` | utils.js:3163-3187 | a range picked on a drive lies inside a reserved segment of the group that awaits no reclaim, and clear of every segment that is not reserved |
| `ReservedSpace.FirstLargestIs` | utils.js:3169-3174 | per drive and reserved pRaid the pick is the first of the largest unused ranges |
| `ReservedOffers.UnusedIsOffered` | utils.js:3163-3187 | where a drive has a stretch of unused reserved space, it offers a range of that reserved pRaid at least as long |
| `ReservedOffers.OfferIsLargest` | utils.js:3163-3187 | what a drive offers of a reserved pRaid is unused reserved space of it, and no unused stretch of it on the drive is longer |
| `ReservedSpace.GetLargestReservedChunk` | utils.js:3159-3222 | of the reserved pRaids with exactly one offer for each segment of a pRaid the chunk takes as many as the volume has stripes, or all; one that it leaves out has no offer larger than the largest of any it takes |
| `ReservedSpace.ChunkIsLargest` | utils.js:3191-3219 | the same of any list of offers: sorting by size before the pRaids are arranged puts those with the largest offer first |
| `Sorting.BySizeDescends` | utils.js:3191-3193 | the sort the choices rest on puts larger elements first |
| `Sorting.TiesInOrder` | utils.js:3191-3193 | elements of one size keep their order, as with the stable sort of JavaScript |
| `ReservedSpace.ChunkTakesWholePRaids` | utils.js:3195-3219 | for each reserved pRaid it touches, the chunk takes all its offers, exactly one per segment of a pRaid, side by side |
| `ReservedSpace.ChunkDistinct` | utils.js:3171-3177 | two ranges of the chunk differ in drive or in reserved pRaid |
| `SharedGapsHistory.OfferedAlike` | utils.js:3163-3187 | drives used alike offer the same offset and length of the same reserved segment |
| `SharedGapsHistory.EveryDriveContributes` | utils.js:3206-3219 | when the chunk touches a reserved pRaid that lives on as many drives as a pRaid needs, every one of them contributes its first largest range |
| `SharedGapsHistory.StepKeepsUsedAlike` | utils.js:4720-4721 | reserved allocation, deletion of whole volumes and changes elsewhere keep all drives of a reserved pRaid used alike |
| `SharedGapsHistory.HistoryKeepsUsedAlike` | utils.js:4720-4721 | so does every history of them |
| `SharedGapsHistory.SharedGapsHold` | utils.js:4720-4721 | the assumption of the reclaim holds for chunks of one pRaid whose drives share such a history |
| `SharedGapsHistory.ReservedIsUsedAlike` | utils.js:2779-2786 | valid drives with one fresh reserved segment each, all of one length, are used alike |
| `ReservedRounds.RoundIsHistory` | utils.js:2717-2806 | storing the segments of a reserved chunk is, for each reserved pRaid it touches, one allocation on all of its drives at once |
| `ReservedRounds.RoundKeepsUsedAlike` | utils.js:2717-2806 | so it keeps the drives of that pRaid used alike |
| `ReservedRounds.RoundElsewhere` | utils.js:2717-2806 | and leaves every other reserved pRaid as it is |
| `AllocateBlocks.RoundOfLoopKeepsUsedAlike` | utils.js:2604-2822 | each round of the loop on reserved space, from the lists the drives hold before it to those they hold after it, keeps the drives of a reserved pRaid it touches used alike |
| `ReclaimMoves.PieceUses` | utils.js:4405-4475 | working a segment off on a drive leaves each piece used as its group was, at the same offsets |
| `ReclaimAlike.AlikeIffSameOrder` | utils.js:4379-4475 | two drives used alike, with the same positions worked off in any orders, end alike if and only if their pieces were cut in one order (only if: every group used, no derived pRaid twice on a drive) |
| `ReclaimLists.FitsIsCut` | utils.js:4405-4475 | replacements that spell out the used blocks of a segment are a cut of it at the used groups |
| `ReclaimLists.RunTracks` | utils.js:4805-4898 | along every run, crashes and recoveries included, the list of a drive is the stored one: that of the start with the flags worked off so far, each cut as planned |
| `ReclaimLists.FinishedList` | utils.js:4885-4898 | a finished reclaim has worked every planned flag off exactly once, and the list is what these cuts lead to |
| `ReclaimPools.ReclaimKeepsUsedAlike` | utils.js:4885-4898 | a finished reclaim leaves the drives of a reserved pRaid used alike if and only if all of them were cut in one order (only if: no derived pRaid twice on a drive) |
| `ReclaimSchedule.PlanGivesOneOrder` | utils.js:4849-4898 | a reclaim that is not interrupted cuts all drives of a reserved pRaid in one order |
| `ReclaimCrashes.CrashesHarmlessExactly` | modules/sanityAndRecover.js:2750-2784 | wherever a reclaim crashes, a recovery in list order leaves the drives of a reserved pRaid used alike, if and only if the pRaid has one drive or its split chunks stand in the lists in the order of the chunks |
| `ReclaimCrashes.InOrderIsHarmless` | modules/sanityAndRecover.js:2750-2784 | with the lists in that order an interrupted reclaim and its recovery cut all drives in one order |
| `ReclaimCrashes.HarmfulRun` | modules/sanityAndRecover.js:2750-2784 | without it there is a crash after which two drives are cut in opposite orders |
| `ReclaimBacking.ReclaimKeepsAligned` | utils.js:4774-4792 | after a reclaim in one order each new chunk stands behind one position of all drives of its pRaid again |
| `ReclaimBacking.SplitFallsBehind` | utils.js:4405-4475 | when a chunk before a kept one is split, the lists no longer follow the chunks afterwards |
| `ReservedHistory.HistoryIsConsistent` | utils.js:4720-4721 | from a group without reserved space, over every history of reservations, allocations, deletions, changes elsewhere and reclaims cut in one order, documents that agree share their gaps: the assumption of the next reclaim |
| `ReservedHistory.UninterruptedHappens` | utils.js:4849-4898 | every reclaim without a crash is an event of such a history |
| `ReservedHistory.InterruptedHappens` | modules/sanityAndRecover.js:2750-2784 | so is one with a crash, when the lists of every reserved pRaid follow the chunks |
| `OrderExample.CrashTearsApart` | modules/sanityAndRecover.js:2750-2784 | an input: a good reclaim, a crash after one drive and a recovery in list order leave two drives, used alike before, with their pieces in opposite orders |
| `OrderExample.NextPicks` | utils.js:3159-3187 | the next allocation then takes the piece of the second segment on one drive and that of the first on the other |
| `OrderExample.CrashSpoilsNextReclaim` | utils.js:4720-4721 | something can be allocated then, and whatever is, the documents do not share their gaps any more |
| `ReclaimStripes.GivesUpExactly` | utils.js:4717-4772 | a reclaim gives up a used block of a segment if and only if the segment is used at an offset its chunk's first segment is not |
| `ReclaimStripes.SecondPRaidIsLost` | utils.js:4717-4741 | an input: a chunk of two pRaids, the second in use, the first not, is removed with the blocks in use |
| `AllocationSpec.RoundBlocksToNearestBlockSet` | utils.js:2966-2970 | rounds down to whole block sets, to one block below the first |
| `AllocationSpec.EnoughPlaces` | utils.js:2537-2541 | with enough drives of a block set each, a round has at least a block set to place or places all that is left |
| `AllocationSpec.StripesFitExactly` | utils.js:2688-2693 | every range of at least a block set gives a chunk if and only if the volume is mirrored or its stripes divide a block set |
| `AllocationSpec.ChunkBlocksFit` | utils.js:2688-2693 | a round places no more than each drive offers and no more than is left, in whole block sets unless it is the rest |
| `AllocationSpec.ChunkBlocksMost` | utils.js:2688-2693 | a chunk takes all that is left if it fits, and otherwise the most whole block sets the smallest drive can give, for other than mirrored volumes out of whole stripes |
| `AllocationSpec.RedundancyConserved` | utils.js:2530-2535 | the blocks of a chunk on all its drives are its virtual blocks times the redundancy: mirrors + 1, or data + parity for each data |
| `AllocationSpec.BlockSetsPerSegment` | utils.js:2543-2548 | a block set is 256 blocks, for striped erasure coding 256 for each data segment |
| `AllocationSpec.PlacePrefix` | utils.js:2717-2806 | no segment of a chunk gets in the way of another: each can still be stored after the ones before |
| `Allocation.FullRound` | utils.js:2730-2745 | a full round makes one pRaid per stripe, of consecutive segments |
| `Allocation.FreeRoundFits` | utils.js:2764-2766 | segments cut from cached largest ranges of different drives are all acceptable to their drives |
| `Allocation.ReservedRoundFits` | utils.js:2788-2792 | segments cut from unused reserved ranges are all acceptable, also two on one drive |
| `AllocationHeap.PlaceSegment` | utils.js:2800-2806 | stores one segment on its drive and leaves the other drives alone |
| `AllocationHeap.PlaceRound` | utils.js:2717-2806 | stores the segments of a chunk in turn and groups them into pRaids; never rejected when all can be placed |
| `AllocationHeap.RoundShrinks` | utils.js:2598-2603 | every placed chunk leaves less free space, or less unowned reserved space |
| `AllocateBlocks.EnoughGrows` | utils.js:2688-2703 | for the requests the loop ends on, enough drives always give a chunk of at least two virtual blocks |
| `AllocateBlocks.GetChunk` | utils.js:2613-2656 | asks reserved space until it was short, then free space, of either the drives in use before all; offers enough, or leaves something newly tried, or there is no chance left; what it offers can be placed |
| `AllocateBlocks.GivesUpLast` | utils.js:2613-2664 | a query without a chance left was one over all drives, of free space or, without overflow, of reserved space, and found nothing to place on |
| `AllocateBlocks.PlaceChunk` | utils.js:2717-2821 | on valid drives a chunk of two or more blocks per segment is always stored and leaves less space; each drive's list grows by its segments |
| `AllocateBlocks.Round` | utils.js:2606-2822 | one pass keeps the tiling and the shapes, shrinks the work, the space or what is untried, and records what it stored: on reserved space the cut of a chunk picked from the lists it found; it places the most the answer can give, or tries the next thing |
| `AllocateBlocks.AllocateBlocks` | utils.js:2576-2848 | ends in fixed and MAX mode. A fixed request succeeds if and only if the chunks cover the rounded request, a MAX request if and only if they reach the minimum, and otherwise the last query over all drives had no chance left. The chunks tile the volume, each with its pRaids of equal segments, and exactly they were stored, under new names; no drive rejects a sizable request, and the lists of the drives are the outcome of its recorded rounds |
| `AllocationOrder.InUseIsAskedFirst` | utils.js:2613-2664 | in every run of the loop all drives are asked for free, or for reserved, space only after exactly the drives in use were asked for it |
| `AllocationOrder.ReservedIsAskedFirst` | utils.js:2613-2664 | in every run free space is given to a volume that takes reserved space only after all drives together were short of it |
| `AllocationResults.TinyIsNeverPlaced` | utils.js:2695-2703 | a request that rounds to one virtual block is never placed, whatever the drives offer |
| `AllocationResults.TinyLoopsExactly` | utils.js:2604-2664 | for such a request the loop goes on forever exactly when enough drives keep being found |
| `AllocationResults.SpinsExactly` | utils.js:2604-2703 | for any request and any supply of drives: the loop spins forever exactly when the last query finds enough drives and nothing can be placed on any, and otherwise places something or gives up within five rounds |
| `AllocationResults.TerminatesExactly` | utils.js:2604-2703 | some supply of drives makes the loop spin if and only if the stripes do not fit a request of more than one block set, or the request is one virtual block |
| `AllocationResults.StripesTooWide` | utils.js:2688-2703 | an input: RAID 0 with stripes of 300 blocks and 272 free blocks on each of two drives |
| `Rollback.RollbackRestores` | utils.js:2850-2857 | deleting what was placed, over any number of rounds and in any order, leaves each drive with the segments and the count it had; only the names must have been new |
| `Rollback.RollBack` | utils.js:4117-4134 | pulls every segment from its drive, then recalculates the drives |
| `Rollback.AllocateOrRollBack` | utils.js:2824-2857 | an allocation succeeds exactly when what it placed is enough; after every failed one no drive turned away, each drive is as it was, at most its largest range recalculated |
| `AllocationResults.ExtensionStartsAtEnd` | utils.js:2584 | the extension starts right behind the last block of the volume, in whatever order its chunks are stored |
| `AllocationResults.ExtendedTiles` | utils.js:1914-1921 | the extended volume tiles the sum of both sizes |
| `Selection.SelectDisksForRAID1` | utils.js:3990-4042 | distinct drives, within the cap of each separation group, and as many as needed if and only if the groups can give them; beyond the first of each group no larger drive is passed over, and no other choice within the caps that contains these firsts has a larger smallest drive beyond them |
| `Selection.TakenIsBest` | utils.js:4021-4040 | a drive taken in the second round cannot be bettered: every choice within the caps that contains the firsts has a drive no larger |
| `Selection.SelectionIsMaxMin` | utils.js:3990-4006 | with enough groups no other choice of one drive per group has a larger smallest drive |
| `FaultTolerance.SeparatedSurvives` | utils.js:3251-3268 | losing any one node leaves enough live segments to rebuild a pRaid if and only if no node holds more of it than it tolerates to lose |
| `FaultTolerance.StatusExactly` | utils.js:3251-3268 | online if and only if nothing is lost, not offline if and only if what is left suffices: as many segments as there are data segments, one copy, or all of a stripe |
| `FaultTolerance.StatusTells` | utils.js:3251-3268 | the status reported for the segments of a lost node tells whether the rest suffices |
| `FaultTolerance.ChosenExactly` | utils.js:3270-3278 | what may be chosen, by the fields of the volume: a full level, and erasure coding without a level, ask for nodes of their own; a minimal level, and mirroring without a level that does not ignore separation, for surviving the loss of any one node; the rest for nothing |
| `RequiredTargets.EnoughExactly` | utils.js:3241-3308 | the check for enough targets says yes if and only if the segments of a pRaid can be spread over them as the effective level of the volume asks |
| `RequiredTargets.EnoughButNotChosen` | utils.js:3292-3308 | it says yes although no drives can be chosen exactly for erasure coding without a level, on targets that suffice for the minimal spread but are fewer than the segments |
| `FaultTolerance.ChooseMirrored` | utils.js:4065-4093 | finds the drives of a mirrored pRaid if and only if the groups have enough, and spreads them over nodes within the tolerance |
| `DriveChoice.ChooseDrivesForAllocation` | utils.js:3597-3668 | all drives needed or none, each with free space, spread as the level asks, the first pass first and then the largest that may still be taken; found if and only if enough are in reach of the two passes, which without a domain means that the nodes, each up to its cap, have enough of them |
| `DriveChoice.FirstTakenIsMaximal` | utils.js:3623-3638 | the first pass takes drives apart in node and domain, and no drive it leaves could be added to them |
| `DriveChoice.FirstTakenIsLargest` | utils.js:3623-3638 | a drive the first pass leaves out conflicts with one at least as large |
| `DriveChoice.FindableApart` | utils.js:3623-3638 | where a node gives one drive at most, what can be found is what the first pass takes |
| `DriveChoice.FindableWithoutDomain` | utils.js:3623-3662 | without a domain, what can be found is all drives with free space, counting no node beyond its cap |
| `DriveChoice.ChoiceIsMissed` | utils.js:3623-3638 | an input: of three drives the largest shares its node with the second and its domain with the third, and is all that is found, though the other two would do |
| `DriveChoice.UsableCounts` | utils.js:3597-3660 | a choice that takes from every node as much as the cap allows has as many drives as there are to use |
| `Substitutions.SubstitutionKeepsSpread` | utils.js:260-379 | a substitution on a drive found by query may be made if and only if it keeps the spread; one inside reserved space, on its own node, always keeps it |
| `Substitutions.MaySubstituteExactly` | utils.js:260-348 | where a segment may move, by the fields of the volume: to a node without another segment, to one whose loss the pRaid then still survives, or anywhere |
| `Substitutions.ExcludedIsFull` | utils.js:260-290 | excluded are exactly the nodes whose other segments leave no room for one more |
| `Substitutions.LosingANodeIsSurvived` | utils.js:260-379 | after any sequence of substitutions enough segments to rebuild the pRaid live on when any one node is lost |
| `Substitutions.IgnoreMayLoseAll` | utils.js:263-264 | without separation both copies may end up on one node |
| `Substitutions.NoLevelMayLoseAll` | utils.js:337-348 | an input: an erasure coded volume without a level, chosen apart, with both segments on one node after one substitution |
| `Substitutions.SurvivesExactly` | utils.js:3270-3278 | a redundant pRaid survives the loss of any node after any choice, shuffle and substitutions if and only if the volume keeps its separation, by level and kind of RAID |
| `Substitutions.ShuffledIsSpread` | utils.js:3671-3686 | shuffling the chosen drives keeps the spread |
| `Delta.StepReplays` | utils.js:5684-5786 | whatever operation comes next, short of a second increment, the update generated afterwards still turns the original into the object in memory |
| `Delta.MutatedExactly` | utils.js:5684-5786 | field by field: an operation writes, counts or removes the value it names and leaves the other fields, inner fields, entities and segments |
| `Delta.ReproducesExactly` | utils.js:5830-5855 | the update generated from a recording reproduces the object if and only if no field was incremented twice |
| `Delta.GeneratedUpdateReproduces` | utils.js:5937-5977 | for any run with one kind of operation per key, the generated update, applied to the stored object, gives the object in memory if and only if no field is incremented twice |
| `Delta.Record` | utils.js:5672-5977 | the same for the recorder as an object, from its creation over any operations to the generated query |
| `Delta.GeneratedHasNoConflict` | utils.js:5937-5977 | the generated update never names a path twice |
| `Delta.TwoIncrementsLost` | utils.js:5841-5844 | an input: two increments of one field reach the store as one |
| `Delta.CalcDelta.UpdateTarget` | utils.js:5684-5687 | changes the object and records the same change |
| `Delta.CalcDelta.UpdateObjectInTarget` | utils.js:5689-5696 | changes an inner field and records the whole inner object |
| `Delta.CalcDelta.UpdateField` | utils.js:5698-5708 | changes a field of a disk or NIC and records its value |
| `Delta.CalcDelta.IncField` | utils.js:5710-5723 | increments a field of a disk or NIC and records the increment |
| `Delta.CalcDelta.UnsetFromDisk` | utils.js:5743-5752 | removes a field of a disk and records the removal |
| `Delta.CalcDelta.PushDiskSegmentToDisk` | utils.js:5776-5786 | appends a segment, creating the list if needed, and records it |
| `Delta.CalcDelta.PullDiskSegmentsFromDisk` | utils.js:5767-5774 | filters out segments by uuid and records the uuids |
| `Attachments.PendThenClear` | modules/client.js:2802-2858 | marking and clearing by the same owner is no change at all if and only if the attachment was new, or idle with an action and its name, or marked by somebody else |
| `Attachments.PendAllThenClearAll` | modules/client.js:2895-2920 | a request over several attachments that marks them and gives up leaves the document as it was |
| `Attachments.MarkBelongsToOwner` | modules/client.js:2802-2920 | over any interleaving of marks and clears a mark is never overwritten and goes only when the boot that set it clears it |
| `AttachmentHistory.PendExactly` | modules/client.js:2802-2858 | a mark is put where there is none and changes nothing but the mark and the name |
| `AttachmentHistory.ClearOwnedExactly` | modules/client.js:2895-2920 | a clear takes the mark of its action and boot and no other; an attachment without a wish goes with it |
| `Attachments.SameBootSharesTheMark` | modules/client.js:2810-2820 | a second request of the same boot takes the mark of the first one with it |
| `AttachmentRuns.StepKeepsReferences` | modules/client.js:3011-3229 | every step keeps the last reference of a wanted attachment, including reports that act on a stale read and clears that have no mark |
| `AttachmentHistory.RemoveRefExactly` | modules/client.js:3185-3229 | without a mark and with other than one reference exactly that one goes, as a new version; otherwise nothing changes |
| `AttachmentHistory.AddRefExactly` | modules/client.js:3146-3181 | exactly that reference joins an attached volume others refer to, that nobody is about to detach, in the mode of its reservation; otherwise nothing changes |
| `AttachmentHistory.FinishAttachExactly` | modules/client.js:3075-3106 | the reference, the wish and the reservation are stored and the mark goes, as a new version |
| `AttachmentHistory.FinishDetachExactly` | modules/client.js:1560-1602 | the reference and the mark go; the wish is detaching if and only if nobody else refers to the attachment |
| `AttachmentHistory.PreemptExactly` | modules/client.js:3005-3036 | an attached volume with an older reservation turns to detaching and keeps its references |
| `AttachmentHistory.SetActionExactly` | modules/client.js:1124-1174 | a report changes the wish if and only if the attachment still has the version it was read with, announces it and leaves everything else |
| `AttachmentHistory.ChangeIsAnnounced` | modules/client.js:3011-3229 | whatever a step changes about the wish, the references or the reservation of an attachment that stays, the client version goes up by exactly one |
| `AttachmentHistory.RefHeldExactly` | modules/client.js:1560-1602 | over every interleaving an attachment has a reference in the end if and only if it was there or was added, and no later removal, finished detach or end of the attachment took it |
| `AttachmentRuns.StepKeepsOwned` | modules/client.js:2895-2920 | among requests that hold their attachments exclusively every step keeps that, except exactly the clears that hit the mark of a holder |
| `AttachmentRuns.ExclusiveStays` | modules/client.js:2762-2858 | whatever the others do, a request keeps its attachment to itself if and only if no clear hits its mark |
| `AttachmentRuns.MarkIsExclusive` | modules/client.js:2895-2920 | a request that set its mark has the attachment to itself, unless somebody lost it to a clear before |
| `AttachmentHistory.CrashLeavesItsMark` | modules/client.js:2802-2858 | the mark of a request that crashes stays, and nobody else gets the attachment, whatever they do, until a clear of its own action and boot hits it |
| `AttachmentRuns.OwnedExactly` | modules/client.js:2762-2920 | over a whole run all holders stay exclusive if and only if no clear ever hits the mark of one |
| `AttachmentRuns.WantedIsReferenced` | modules/client.js:3011-3229 | over every interleaving, stray clears included, an attachment wished attaching or reattaching has a reference |
| `AttachmentRuns.RefsFrozen` | modules/client.js:3146-3229 | while a detach request has an attachment to itself nobody else changes its references, and only a clear that hits its mark ends that |
| `AttachmentRuns.DetachIsExact` | modules/client.js:1560-1602 | a detach whose mark no clear hits takes exactly its reference away, and sets the wish to detaching if and only if it was the last, against any concurrent add |
| `AttachmentRuns.ClearUnfreezes` | modules/client.js:1644-1662 | without that condition it fails: after one such clear and an added reference the detach of the last one leaves the attachment attached |
| `AttachmentRuns.StrayClearInput` | modules/client.js:1644-1718 | that failure as a run from an initial state |
| `AttachmentRuns.DetachingIsUnreferenced` | modules/client.js:1560-1602 | over every interleaving without preemptions, stray clears included, an attachment with a wish is to be detached if and only if nobody refers to it |
| `AttachmentRuns.EndsAttachedExactly` | modules/client.js:1560-1602 | from any state, an attachment that was to be detached ends attached if and only if some step of the run attached it again and none detached it after that |
| `AttachmentRuns.DetachRevivesPreempted` | modules/client.js:1566-1573 | a run from an initial state: attached with two references, preempted, and attached again because one of them was detached |
| `ReportRuns.RemovalLosesNothing` | modules/client.js:1036-1152 | over every interleaving without preemptions, a report of a detached volume that goes through removes an attachment only when nobody refers to it and nobody wishes it attached, however old what it read |
| `ReportRuns.ReattachIsDue` | modules/client.js:922-951 | over every interleaving, a report that goes through turns a volume to reattaching only if it reports an older reservation than the volume has by then |
| `ReportRuns.ReattachRun` | modules/client.js:1022-1160 | a run from an initial state: attached, reattaching after a report with an older reservation, and attached again with the same reference and reservation |
| `Tokens.StepMovesForward` | modules/client.js:719-730 | every accepted keepalive, timeout or token adoption moves the pair of token and sequence strictly forward |
| `Tokens.RunMovesForward` | modules/client.js:719-744 | over every run the pair and the attachments version only grow |
| `Tokens.PastIsRejected` | modules/client.js:719-723 | a keepalive the document is past is never accepted again |
| `Tokens.AcceptedOnce` | modules/client.js:719-770 | a keepalive is accepted at most once, however often it is delivered |
| `Tokens.OldTokenNeverAgain` | modules/client.js:219-244 | after a timeout no keepalive with an older token is accepted, after an adopted token none up to the reported one |
| `Tokens.InOrderIsAccepted` | modules/client.js:719-730 | keepalives of the current token with growing sequences are all accepted, and the last sequence is stored |
| `Tokens.StartsOver` | modules/client.js:219-244 | after a timeout the keepalives of the next token are accepted from sequence 1 on |
| `Tokens.AdoptedGoesOn` | modules/client.js:4095-4105 | after an adopted token the keepalives of the one above the reported are accepted from the stored sequence on |
| `Tokens.VersionAdopted` | modules/client.js:736-742 | an accepted keepalive gives its attachments version to a document that still has the first one, if it is above it, and to no other |
| `Tokens.StoredClient.HandleClientKeepalive` | modules/client.js:700-770 | accepts if and only if the token matches and the sequence is newer, and then stores the sequence |
| `Tokens.StoredClient.SetClientOfflineAndIncToken` | modules/client.js:219-244 | next token, next attachments version, sequence zero |
| `Tokens.StoredClient.IncreaseClientTokenFromReportedToken` | modules/client.js:4095-4105 | one above the reported token, if the token is still the one read |
| `Reports.NewestIsStored` | modules/client.js:1124-1174 | after any sequence of reports the newest of each volume is stored, one entry each, and `maxReportID` is the largest id seen |
| `Reports.ReportsConverge` | modules/client.js:1124-1174 | two deliveries of the same reports, reordered and repeated at will, end with the same entries and `maxReportID` |
| `Reports.ClientReports.HandleSingleUpdateAttachment` | modules/client.js:1124-1174 | a report replaces the stored entry if and only if there is none or an older one |

## Left out

- Drives without a GPT: only the branch with first and last usable block is modelled; the metadata segments and `usableBlocks` of `addSegmentToDisk` are not.
- Reinstated twin segments and `wasFromReserved` (utils.js:2360-2372, 4272): no segment of the model is one.
- `removeSegmentsFromDisk`: credits every segment, also derived ones, and is kept out of the accounting.
- Chunk and pRaid metadata of a reclaim (uuid, zone, stripe index, activation) and the target capacity: the chunk model keeps the virtual range and the segments.
- Derived volumes are lists of segments; the nesting in chunks and pRaids carries no information a reclaim uses.
- Failing database writes of the apply phase are logged and skipped by the code and are not modelled; locks appear as serial steps.
- `segmentsInZone`, events, Kafka messages and reservation updates of volumes.
- Other zones: `zonesToIgnore` and the retry in the next zone after a failed allocation.
- Capacities in gigabytes: requests and the smallest volume are given in blocks.
- AllocateBlocks.AllocateBlocks: asks for a request on which the loop ends; `AllocationResults.TerminatesExactly` shows that this leaves out exactly those on which it may not.
- Shared gaps over the life of a group are proved for reserved chunks of one pRaid; for striped ones `ReclaimStripes` says what a reclaim does without them. Rebuilding a segment inside reserved space is not one of the events.
- ReclaimCrashes.CrashesHarmlessExactly: speaks of one crash and one recovery in list order; several crashes of one reclaim, each with its own recovery, are covered by `ReclaimPools.ReclaimKeepsUsedAlike` for whatever orders they lead to.
- The order `reShuffleDrives` puts chosen drives in; that it permutes them is all the results use.
- Protection domains in fault tolerance: the results count nodes. For a mirrored volume with a domain the separation groups are values of the domain and take the place of nodes; that substitutions of such volumes also exclude the domains in use is not modelled.
- Selection.SelectDisksForRAID1: drives are named by their position in the groups; that a protection domain may list one drive in two groups, and the check for it (utils.js:4079-4083), are not modelled.
- Delta.GeneratedHasNoConflict: for fields that do not bear the names the recorder uses itself, `disks` and `nics` of a target, `$inc` and `diskSegments` of a disk or NIC (utils.js:5830-5855, 5937-5977); set through the field operations these would meet the lists and increments in the recording. No caller does it, and `Delta.Applies` asks for it.
- `updateDiskSecondLevel`, disk and NIC pushes and pulls of the delta recorder.
- Snapshots, emulation, unauthorized marks, the stale-detach cleanup, requests that mix marked and unmarked volumes, and the agent token of the attachment protocol.
- `attachments` of a client are updated one volume at a time in `AttachmentRuns`; a request over several is a sequence of such steps there, and a list in `Attachments.PendAllThenClearAll`.

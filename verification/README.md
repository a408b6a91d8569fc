# The cells of SWIFT: a model and its proofs

SWIFT keeps its particles in an octree of cells. A cell is a window (a start and a count) into particle arrays
that all cells share. Worker threads lock cells, split them, grow them in place, drift their particles and ship
them to other ranks. This project models the algorithms that do so and proves what they promise, for every tree,
every array, every interleaving or every run, as the case may be.

| file | part of SWIFT |
|---|---|
| `TreeLock.dfy` | the non-blocking lock/hold protocol of `src/cell_lock.c`, any number of threads on any forest |
| `AtomicUpdate.dfy` | the compare-and-swap loops of `src/atomic.h`, any number of threads |
| `Particles.dfy`, `Octree.dfy`, `Space.dfy` | particles and gparts with their two-way links, cells, the shared arrays and counters |
| `Buckets.dfy`, `Partition.dfy`, `ParticlePhase.dfy`, `GpartPhase.dfy`, `CellSplit.dfy` | `cell_split`: the in-place eight-way partition with link repair |
| `Octants.dfy` | the numbering of the progeny, told once for the split, the mesh, the sub-pair table and the receiver |
| `ExtraSlots.dfy` | `cell_reorder_extra_*`: free slots to the end of a top-level cell |
| `WindowShift.dfy`, `Insertion.dfy`, `LiveTree.dfy` | `src/cell_convert_part.c`: new particles in a live tree |
| `Conversions.dfy`, `Runs.dfy` | the same file: removal, conversion and birth, and any sequence of them |
| `HydroDrift.dfy`, `DriftForest.dfy` | lazy marking (`src/cell_unskip.c`) and the drift walk (`src/cell_drift.c`), for one super-cell and for all of a rank |
| `SplitTable.dfy`, `Neighbours.dfy` | the table of sub-pairs and the recursion over neighbouring cells |
| `SortStore.dfy` | the store for sorted indices (`src/cell.h`) |
| `Multipoles.dfy` | `cell_make_multipoles`, `gravity_P2M`, `gravity_drift` |
| `MeshCompleteness.dfy`, `ConstructionLevel.dfy` | `src/cell_grid.c` |
| `Packing.dfy`, `Mirrors.dfy`, `CellMirrors.dfy`, `ForeignLinks.dfy` | `src/cell_pack.c` and the linking functions of `src/cell.c` |
| `Traffic.dfy`, `UnskipWalk.dfy` | the sends and receives the unskip functions activate, and the walk of `src/engine_unskip.c` that leads to them |
| `FileOffsets.dfy` | `io_write_cell_offsets` |
| `Witnesses.dfy` | small examples of the three facts below |

## Reading the model

- An object the source updates in place is a class here (`Octree.Cell`, `SpaceData.Space`, `SortStore.Sorts`), and
  its arrays are arrays. Loops of the source are loops. The methods are proved against functions and predicates
  on values, and the lemmas are about those.
- A pointer to a gpart is an index into the array of all gparts, or `NULL`. An xpart is part of its part.
- `Couples` forgets where things are stored: a particle together with its gpart. "The couples are kept" means that
  every particle still has the gpart it had, wherever both are now.
- A call of `error()` and the dereference of a null pointer are outcomes (`Aborted`, `Abort`, or a result `false`),
  never preconditions; nothing is said about memory afterwards.
- Numbers are unbounded integers and reals. The truncation of a C cast is written out where it matters
  (`MeshCompleteness.Trunc`).
- The six copies of the tree lock differ in field names only, as do the copies for stars, sinks and black holes
  elsewhere; where they do differ (the pivot plane, inhibited sinks, cleared links) the model has both versions.

Three facts about the code that the proofs bring out:

- A star that is taken out of the calculation, because it left the box (`src/cell_drift.c:718`) or because its birth
  failed for want of a free gpart, stays behind as an inhibited star without a gpart. Until the next rebuild it
  stays where it is whatever happens, and `cell_add_spart` in its leaf, or in one before it, follows its null pointer
  (`ConversionRuns.BlockedForGood`). The sink version skips inhibited sinks and does not.
- The drift walk turns round at an empty cell and clears the flags of that cell only; marks strictly below it stay.
  No mark is left exactly when no marked cell lies below an empty one (`HydroDrift.MarksLeftBehind`).
- The completeness shortcut over progeny agrees with the scan of the 27 parts exactly when it is never taken over
  a missing progeny (`MeshCompleteness.ShortcutAgrees`).

`Witnesses.dfy` has an example of each.

## Model

| member | source | states |
|---|---|---|
| `TreeLock.Exclusion` | src/cell_lock.c:37-89 | after any schedule, while one thread owns a cell no other thread owns that cell, an ancestor or a descendant of it |
| `TreeLock.HoldAccounting` | src/cell_lock.c:56-88 | after any schedule a cell's hold is the number of threads that hold it as an ancestor (climbing, undoing, owning, releasing), never negative, and zero while anybody is past the second look at it with its lock |
| `TreeLock.UnlocksAreOwn` | src/cell_lock.c:37-89 | no unlock ever fails and no thread ever opens a lock it does not have |
| `TreeLock.Quiescence` | src/cell_lock.c:397-408 | when all threads are idle every hold is zero and every lock free |
| `TreeLock.NeverWaits` | src/cell_lock.c:37-89 | every step of a lock or unlock call brings that call closer to its return, whatever the others do |
| `TreeLock.NoSpuriousDefeat` | src/cell_lock.c:40-76 | an attempt fails only because another thread has a hold on the cell or the lock of the cell or of an ancestor |
| `TreeLock.Uncontended` | src/cell_lock.c:37-89 | with all others idle, an attempt that has begun ends in owning the cell it is after |
| `TreeLock.SameCell` | src/cell_lock.c:37-89 | a call for a cell stays a call for that cell until it returns, whatever the others do |
| `TreeLock.WishGranted` | src/cell_lock.c:37-89 | with all others idle, a thread that asks for a cell ends up owning the cell it asked for |
| `TreeLock.UnlockAlone` | src/cell_lock.c:397-408 | unlocking frees the lock of the cell and lowers the hold by one on exactly its ancestors; the thread is idle again and nothing else has changed |
| `TreeLock.UnlockEnds` | src/cell_lock.c:397-408 | whatever the others do in between, an unlock is over after a bounded number of steps of its own |
| `TreeLock.LockAndUnlock` | src/cell_lock.c:37-408 | locking a cell with all others idle and unlocking it gives back the state there was |
| `AtomicUpdate.NothingLost` | src/atomic.h:49-62 | in every interleaving, once all threads are through the shared value is the fold of all their arguments |
| `AtomicUpdate.FewTries` | src/atomic.h:156-169 | no thread needs more compare-and-swap attempts than there are threads |
| `AtomicUpdate.EveryRunEnds` | src/atomic.h:266-284 | n threads are through after at most n reads and n * n attempts, whoever is scheduled |
| `AtomicUpdate.MinMaxAndSumCommute` | src/atomic.h:49-284 | minimum, maximum and sum are such operations |
| `Partition.SameOctant` | src/cell_split.c:109-396 | a gas particle and its gpart choose the same octant if and only if no coordinate lies on a pivot plane |
| `Partition.Classify` | src/cell_split.c:107-120 | the buffer holds every octant and the offsets are those of the eight octants laid out in order |
| `Partition.Scan` | src/cell_split.c:132-136 | the scan for a place stops inside its bucket, at the first element that does not belong there |
| `Buckets.RoomFor` | src/cell_split.c:123-152 | pigeonhole: while an element of a bucket is in hand, the bucket has a place left that is not settled |
| `Buckets.AfterSwap` | src/cell_split.c:131-142 | each swap settles a place for good and keeps the bucket layout, so the chain of swaps ends |
| `ParticlePhase.Chain` | src/cell_split.c:127-149 | the chain of swaps from a place ends with an element of this bucket in hand, and every gpart met on the way knows its particle's new index |
| `ParticlePhase.SortParticles` | src/cell_split.c:107-152 | the window becomes a permutation of itself with each octant in its own stretch, nothing outside it moves, and only the gparts of its particles are told new indices, the right ones |
| `ParticlePhase.PhaseKeepsLinks` | src/cell_split.c:137-148 | after such a phase particles and gparts of that kind are linked both ways again |
| `ParticlePhase.PhaseKeepsOthers` | src/cell_split.c:137-148 | and the links of all other kinds have not been touched |
| `GpartPhase.SortGparts` | src/cell_split.c:391-455 | the same for gparts, whose partners in four arrays are told the new place |
| `GpartPhase.PhaseKeepsLinks` | src/cell_split.c:422-451 | after the gpart phase every kind of particle is linked both ways again |
| `CellSplit.SplitParticles` | src/cell_split.c:107-160 | one phase with its result stored in the progeny: links hold, couples are kept, each progeny's window is its octant's stretch |
| `CellSplit.CellSplit` | src/cell_split.c:55-464 | all five phases: everything is linked both ways, each window holds the couples it held, in every species the progeny tile the parent, and every particle and gpart in the window of progeny k lies in the k-th eighth of the cell: the upper half in x for k from 4, in y for 2, 3, 6 and 7, in z for odd k, with gas on the middle plane in the upper half and everything else on it in the lower |
| `CellSplit.CoupleTogether` | src/cell_split.c:109-396 | after the split a particle and its gpart are in the same progeny if and only if they agree about the octant |
| `CellSplit.OctantBox` | src/cell_split.c:109-120 | for points of the cell the k-th eighth is the box of half the width at its corner, closed below and open above for gas, the other way round within the cell for the rest |
| `Octants.SplitIsSorted` | src/cell_split.c:107-160 | what the split leaves is what the mesh completeness relies on |
| `Octants.InsideOwnProgeny` | src/space_split.c:226-237 | a gas particle inside the cell is inside the progeny whose window it is in |
| `Octants.InsideOrOnTop` | src/space_split.c:226-237 | every other particle and gpart is inside that progeny or on its upper faces |
| `Octants.SameCorners` | src/cell_pack.c:306-321 | the receiver of a foreign tree puts the progeny where the split sends their particles |
| `Octants.SameBits` | src/space_split.c:226-237 | so do the mesh and the sub-pair table |
| `ExtraSlots.ScanStops` | src/cell_split.c:484-496 | pigeonhole: with a free slot in front the scan meets a particle unless the window has fewer than it should |
| `ExtraSlots.ReorderExtra` | src/cell_split.c:474-628 | for parts, sparts and sinks: the scan stays inside the window if and only if there are enough particles; with exactly the right number they end up in front and the free slots behind; all links of all kinds hold, couples are kept, and no other array changes |
| `ExtraSlots.ReorderExtraGparts` | src/cell_split.c:639-689 | the same for gparts and the pointers of their partners |
| `WindowShift.Shift` | src/cell_convert_part.c:44-140 | the recursive shift makes every cell above the leaf one longer, moves every cell after it up by one and no other cell, and marks exactly the grown cells as unsorted |
| `WindowShift.Climb` | src/cell_convert_part.c:168-190 | the climb finds the top-level cell and records the way down to the leaf |
| `WindowShift.SetTimes` | src/cell_convert_part.c:239-246 | the second climb sets the drift time of exactly the leaf and the cells above it |
| `WindowShift.AllStillTiled` | src/cell_convert_part.c:44-72 | after the shift every cell is still tiled by its progeny, in every species |
| `WindowShift.LaterIsAfter` | src/cell_convert_part.c:52-57 | the cells that move are those whose windows begin at or after the end of the leaf |
| `WindowShift.HeldAfter` | src/cell_convert_part.c:156-277 | the leaf and the cells above it hold what they held with the new element at its place, every other cell holds exactly what it held |
| `WindowShift.DeltasCount` | src/cell_convert_part.c:58-71 | after any number of insertions a cell has moved up by the number of insertions into leaves before it and grown by those into its own, and the top-level cell has not moved |
| `Insertion.InsertKeepsLinks` | src/cell_convert_part.c:216-232 | moving particles up by one and lowering the index in each of their gparts keeps the links of that kind |
| `Insertion.InsertKeepsOthers` | src/cell_convert_part.c:216-232 | and those of all other kinds |
| `Insertion.InsertKeepsCouples` | src/cell_convert_part.c:216-232 | every particle keeps its gpart, the new one has none |
| `Insertion.InsertGpartKeepsLinks` | src/cell_convert_part.c:496-519 | moving gparts up by one and raising the pointer of each of their partners keeps all links but that of the new gpart |
| `Insertion.InsertGpartKeepsCouples` | src/cell_convert_part.c:496-519 | every particle keeps its gpart |
| `LiveTree.AddParticle` | src/cell_convert_part.c:156-418 | a request for a star or sink ends as `Fate` says (abort on a foreign, undrifted or split cell or on a moved star without a gpart, no room), and otherwise leaves exactly the state with the new particle in front of the leaf, one extra slot less, links updated, windows shifted, and the leaf and the cells above it counted as drifted to now |
| `LiveTree.FateMeans` | src/cell_convert_part.c:156-418 | a request succeeds exactly if the cell is local, drifted and a leaf, the top-level cell has a free slot, and every particle to be moved has a gpart, inhibited sinks apart; a full cell is no room for a star and an abort for a sink |
| `LiveTree.AddGpart` | src/cell_convert_part.c:434-561 | the same for gparts |
| `LiveTree.NewRecord` | src/cell_convert_part.c:250-275 | the new particle is a zeroed record at the given place with the given clock and no gpart |
| `LiveTree.NewGravRecord` | src/cell_convert_part.c:525-561 | so is the new gpart |
| `LiveTree.ParticleAdded` | src/cell_convert_part.c:156-418 | in that state links and counters are right, all cells are tiled, the new particle is the first of its leaf, every other leaf has the couples it had, extra slots plus particles are as many as before and the top-level cell is within its total |
| `LiveTree.GpartAdded` | src/cell_convert_part.c:434-561 | the same for gparts, the new one not yet filled in |
| `LiveTree.AddKeepsGood` | src/cell_convert_part.c:156-418 | adding a star or sink keeps the links, the inhibited counters and the free slots |
| `LiveTree.TellGparts` | src/cell_convert_part.c:222-231 | the links can be updated if and only if no moved particle lacks a gpart, inhibited sinks apart, and then all of them are |
| `LiveTree.NewParticle` | src/cell_convert_part.c:156-418 | one insertion keeps the whole invariant of a top-level cell, every other leaf keeps its content, and the windows of other species stay |
| `LiveTree.NewGpart` | src/cell_convert_part.c:434-561 | the same for gparts, the new one still to be filled in |
| `Conversions.Remove` | src/cell_convert_part.c:574-755 | removing a part, spart, bpart or sink inhibits it and its gpart, cuts the link, counts both, and keeps the invariant |
| `Conversions.RemovedIsOut` | src/cell_convert_part.c:574-755 | a removed particle is inhibited and has no gpart, its gpart is inhibited and has no partner, both counters are one higher, and no other particle or gpart has changed; removing it again changes nothing |
| `Conversions.RemoveGpart` | src/cell_convert_part.c:617-640 | a background particle is an error, an inhibited gpart is left alone, any other is inhibited and counted; the invariant holds afterwards if and only if it was inhibited already or has no partner |
| `Conversions.GpartRemoved` | src/cell_convert_part.c:617-640 | removing a gpart is in order if and only if it has no partner |
| `Conversions.ConvertToGpart` | src/cell_convert_part.c:775-854 | the particle is inhibited and unlinked, its gpart lives on as dark matter with the particle's ID; without a gpart it is an error |
| `Conversions.ConvertPart` | src/cell_convert_part.c:874-930 | gas to star or sink: succeeds exactly when the insertion does, and then ends in the converted state with the invariant kept; only the new star or sink is added in front of its leaf, only the gas particle is dissolved, and every other cell holds the couples it held |
| `Conversions.ConvertedIsSame` | src/cell_convert_part.c:874-911 | the star or sink has the ID, gpart and offset of the gas particle and the place, velocity and mass of that gpart, a star also its h; only the gpart's kind, clock and way back change, and no other array |
| `Conversions.ConvertedContent` | src/cell_convert_part.c:874-911 | of all couples only that of the gas particle is dissolved and that of the new star or sink added, although every moved particle and its gpart were rewritten |
| `Conversions.Spawn` | src/cell_convert_part.c:944-1162 | a birth from gas or a sink ends as `BirthFate` says: it succeeds, or has no star slot and changes nothing, or has no gpart slot and takes the new star out again; the invariant is kept in all three cases, and every other cell holds the couples and gparts it held |
| `Conversions.SpawnedContent` | src/cell_convert_part.c:944-1030 | a birth adds one couple to the stars and one gpart, and every other particle keeps the gpart it had |
| `Conversions.SpawnedIsSame` | src/cell_convert_part.c:975-1010 | the newborn star has its parent's place, velocity, offset, h and mass, the new ID and the new gpart, which is a copy of the parent's but for kind, clock and way back; parent and parent's gpart are as they were, the gpart at most one place further on |
| `ConversionRuns.Do` | src/cell_convert_part.c:574-1162 | one removal, conversion or birth ends the run exactly when an error is due, and otherwise keeps the invariant and every taken out star in its place |
| `ConversionRuns.DoAll` | src/cell_convert_part.c:574-1162 | any sequence of them, up to a call of error(), keeps links, counters, free slots and tilings, and every taken out star stays where it was |
| `ConversionRuns.RemovedIsStranded` | src/cell_convert_part.c:656-687 | a star that is taken out stays behind inhibited and without a gpart |
| `ConversionRuns.FailedBirthStrands` | src/cell_convert_part.c:968-973 | so does the star of a birth without a gpart |
| `Witnesses.NoGpartForStar` | src/cell_convert_part.c:968-973 | a state in order in which a birth takes its star out again |
| `ConversionRuns.StrandedBlocks` | src/cell_convert_part.c:216-232 | a request for a star in front of such a star finds the top-level cell full or follows the null pointer |
| `ConversionRuns.BlockedForGood` | src/cell_convert_part.c:156-232 | and so does every later request in that leaf or one before it, whatever was removed, converted or born in between |
| `HydroDrift.AdvanceAdditive` | src/drift.h:177-216 | drifting a particle in two goes is drifting it in one: position, offset, and the velocity predicted with the hydro and gravity kick clocks |
| `HydroDrift.AdvanceDrifts` | src/drift.h:177-216 | what a drift does to place, offset, predicted velocity and h, coordinate by coordinate |
| `HydroDrift.ActivateDriftPart` | src/cell_unskip.c:406-438 | despite the early exits exactly the cell is marked, exactly its ancestors up to the super-cell are told, and the super-cell's drift is active |
| `HydroDrift.SetTiOldPart` | src/cell_drift.c:81-89 | the time of every cell below is set |
| `HydroDrift.DriftLeaf` | src/cell_drift.c:258-395 | each live particle of the window moves by its velocity times the difference of the clock, its offset loses what its place gains, its predicted velocity is kicked, its h is brought between the limits, nothing else of it changes, and no other particle does; h_max and dx_max bound the live particles and each is that of one of them, or zero |
| `HydroDrift.DriftPart` | src/cell_drift.c:162-408 | exactly the leaves at or below a marked (or empty) cell are brought to now from their own old times, marks go except below empty cells, h_max and dx_max bound the particles in every cell of the subtree, and those of the cell are the largest of its progeny's where the walk went down, attained where it drifted, as they were elsewhere |
| `HydroDrift.MarksLeftBehind` | src/cell_drift.c:191-199 | the walk leaves no mark if and only if no marked cell lies strictly below an empty one |
| `Witnesses.MarkBelowEmpty` | src/cell_drift.c:191-199 | a marked cell below an empty one, and a walk that leaves the mark |
| `HydroDrift.FaithfulKept` | src/cell_drift.c:239-396 | lazy drifting refines eager drifting: each particle stays where an eager code would have had it at its leaf's time |
| `HydroDrift.TimeStep` | src/cell_unskip.c:406-438 | any activations of non-empty cells of a super-cell, then the drift if active: all marked subtrees are at the current time, unmarked leaves have not moved, and no mark is left |
| `HydroDrift.Simulate` | src/cell_drift.c:162-408 | any run of such steps and one forced drift end exactly where drifting everything at once would have ended: each live particle has moved by its velocity times the whole difference of the clock |
| `DriftForest.StepAll` | src/runner_drift.c:41-52 | one step of all super-cells over the same array of particles: each is served as if it were alone, and no particle outside them changes |
| `DriftForest.SimulateRank` | src/engine_drift.c:39-78 | any run of such steps of a whole rank and one forced drift end there too, for every particle of every super-cell |
| `SplitTable.TableComplete` | src/cell.c:62-145 | for each direction the table lists each pair of touching progeny once and no pair that does not touch |
| `SplitTable.TableSids` | src/cell.c:62-145 | the sid of each entry is the one the two progeny have, that is, their direction up to sign |
| `Neighbours.SidIsDirection` | src/space_getsid.h:46-81 | after the swap the second cell lies in the direction the sid stands for |
| `Neighbours.AncestorsTouch` | src/cell_unskip.c:918-958 | the ancestors of touching cells are the same cell or touch |
| `Neighbours.TouchIsMeeting` | src/space_getsid.h:46-81 | two cells touch if and only if one of them and some periodic image of the other have a point in common |
| `Neighbours.PairOnce` | src/cell_unskip.c:941-958 | the recursion over two touching cells deals with each touching pair across them exactly once, wherever it stops |
| `Neighbours.SelfOnce` | src/cell_unskip.c:918-933 | so does the recursion that starts with one cell, for pairs below it |
| `Neighbours.AllAndOnly` | src/cell_unskip.c:918-958 | if nothing stops it early it reaches each touching pair of same-depth cells once and no other pair |
| `SortStore.Sorts.Malloc` | src/cell.h:1248-1307 | the store grows by the wanted directions and every array already there is still found, with what it held |
| `SortStore.Sorts.Get` | src/cell.h:1335-1357 | the getter leads to the array of its direction, inside the store |
| `SortStore.Sorts.Put` | src/cell.h:1335-1357 | writing through the getter changes one entry of one array |
| `SortStore.Sorts.CountUp` | src/cell_convert_part.c:61-71 | a star insertion changes the stride of a cell above the leaf and leaves its store empty |
| `SortStore.SameCountSameMask` | src/cell.h:1256-1264 | comparing numbers of bits is enough to see whether a new direction is wanted |
| `SortStore.Separate` | src/cell.h:1349-1356 | two directions in use have disjoint arrays |
| `SortStore.WrongDirection` | src/cell.h:1338-1356 | the place computed for a direction not in use is that of another one, or the end of the store |
| `SortStore.GrownAfter` | src/cell.h:1273-1286 | after the copying loop the new store holds what the old one held |
| `Multipoles.P2M` | src/multipole.h:994-1094 | mass, centre and mean velocity of a leaf are those of its gparts, the radius is the distance of the farthest of them, and the range of velocities is their smallest and largest, or zero |
| `Multipoles.MakeMultipoles` | src/cell.c:922-1044 | so they are at every level; there the radius still reaches every gpart below, and it is the smaller of two limits: the largest of the progeny's radii with the distance of their centres added, and the distance of the farthest corner |
| `Multipoles.Triangle` | src/cell.c:996-1004 | the triangle inequality behind the first estimate |
| `Multipoles.FarthestCorner` | src/cell.c:1007-1019 | the second limit is the distance of a corner of the box, and no point of the box is further away |
| `Multipoles.DriftKeepsSound` | src/multipole.h:67-110 | a drifted multipole is right for the drifted gparts, although it is not rebuilt from them |
| `Multipoles.DriftIsTight` | src/multipole.h:95-109 | the radius grows by the distance that some velocity within the range covers relative to the mean one, and mass, velocity and range stay |
| `Multipoles.DriftsKeepSound` | src/multipole.h:67-110 | after any number of drifts |
| `MeshCompleteness.ScanParticles` | src/cell_grid.c:119-138 | the bit mask loop with its early exit finds whether all 27 parts hold gas |
| `MeshCompleteness.ThirdIsPlace` | src/cell_grid.c:122-124 | where the thirds of a cell are: each begins where the one before ends, and the first reaches below the cell |
| `MeshCompleteness.EightComplete` | src/cell_grid.c:82-104 | eight complete progeny make a complete cell, truncation of slightly negative values included |
| `MeshCompleteness.MissingIncomplete` | src/cell_grid.c:82-104 | a cell with a missing progeny is not complete |
| `MeshCompleteness.GapIsWrong` | src/cell_grid.c:82-104 | where the shortcut is taken over a missing progeny it is wrong |
| `MeshCompleteness.ShortcutAgrees` | src/cell_grid.c:77-139 | the shortcut agrees with the scan in every cell if and only if it is never taken over a missing progeny |
| `MeshCompleteness.UpdateSelfCompleteness` | src/cell_grid.c:77-139 | the flag of the cell becomes right, flags already valid stay, and unvisited progeny keep theirs |
| `Witnesses.WronglyComplete` | src/cell_grid.c:82-104 | a cell with all of its gas in one octant is taken for complete by the shortcut and is not |
| `ConstructionLevel.SetLevel` | src/cell_grid.c:374-411 | a cell's pointer is null exactly if it is split, has more gas than the threshold and only complete progeny, and at the top is complete itself; otherwise it and everything below point to it |
| `ConstructionLevel.OneCarrier` | src/cell_grid.c:374-411 | exactly one cell on each way from the top to a leaf carries a mesh, and the leaf points to it |
| `ConstructionLevel.PointerTells` | src/cell_grid.c:374-411 | a cell's pointer is null exactly above that cell |
| `Packing.Pack` | src/cell_pack.c:39-110 | the array holds the cells depth first with the offset of every progeny, uses as many slots as the tree has cells, and is untouched elsewhere |
| `Packing.Unpack` | src/cell_pack.c:241-343 | from that array the receiver builds the same cells with the same packed fields, each in its octant |
| `Packing.RoundTrip` | src/cell_pack.c:241-343 | the rebuilt tree is the tree that was sent if and only if the sender's cells are where their octants are |
| `Packing.Send` | src/cell_pack.c:39-343 | packing and unpacking such a tree gives it back |
| `Packing.PackField` | src/cell_pack.c:120-143 | tags, end steps, multipoles and counts: one entry per cell, depth first, nothing else touched |
| `Packing.UnpackField` | src/cell_pack.c:353-528 | the entries go to the cells in the same order |
| `Packing.SentIsReceived` | src/cell_pack.c:446-528 | what is packed from one tree arrives in the corresponding cells of another of the same shape |
| `Packing.KidSlots` | src/cell.c:152-163 | the slots of the progeny follow one another without overlap |
| `Mirrors.LinkSparts` | src/cell.c:238-261 | linking lays the windows of the progeny out one after the other from the given place |
| `Mirrors.DeltasMirror` | src/cell_pack.c:646-720 | unpacking the packed deltas puts every window of the mirror where its original is |
| `Mirrors.MirrorFollows` | src/cell_pack.c:646-720 | linked at the rebuild and updated at any later time, every mirror cell has the count of its original and the same place relative to the top |
| `CellMirrors.InsertionsArrive` | src/cell_pack.c:646-720 | after any sequence of star insertions into a top-level cell, the deltas sent put every window of the mirror where that of the cell is |
| `CellMirrors.DeltasSent` | src/cell_pack.c:651-665 | the delta sent for a cell is the number of insertions into leaves before it, so it is not negative, and it is zero for the top-level cell |
| `Mirrors.UnpackGridExtra` | src/cell_pack.c:389-435 | from the three-valued labels the receiver recovers every pointer to the construction level |
| `CellMirrors.LevelsRecovered` | src/cell_grid.c:374-411 | the pointers that are set are pointers that can be recovered so |
| `ForeignLinks.CountForTasks` | src/cell.c:468-496 | the count is the number of particles in the highest receiving cells |
| `ForeignLinks.LinkForeign` | src/cell.c:339-375 | linking uses exactly that many slots, one receiving cell after the other, and leaves the cells above them alone |
| `ForeignLinks.Disjoint` | src/cell.c:339-375 | no slot is handed out twice and none lies outside |
| `Traffic.HydroPair` | src/cell_unskip.c:1757-1988 | an active end receives the gas of the other, and the results of the first loops where both are active, or either with symmetric interactions; the limiter and new stars are told of active ends; nothing moves if neither is active; this is all, and exactly the local gas these need is drifted |
| `Traffic.GravityPair` | src/cell_unskip.c:2117-2175 | an active end, local or foreign, receives the gparts of the other and nothing else moves but the counts of new stars; what is sent is drifted and nothing else is |
| `Traffic.StarsPair` | src/cell_unskip.c:2324-2398 | an end with stars to do receives the gas of the other and gives it its stars for feedback, and exactly what is read is drifted |
| `Traffic.BlackHolesPair` | src/cell_unskip.c:2669-2761 | the same for black holes, where a cell without the particles need not be drifted |
| `Traffic.RadiationPair` | src/cell_unskip.c:3158-3271 | an active end receives the gradients of the other, and both or symmetric ends the transport, without drifts |
| `Traffic.DueServes` | src/cell_unskip.c:1757-3271 | what the branches call due is, for all five kinds of physics, what the two ends need |
| `Traffic.UnskipCell` | src/cell_unskip.c:1757-3271 | over the links of one cell exactly what is due is switched on |
| `UnskipWalk.Walk` | src/engine_unskip.c:80-276 | the walk comes to the links of exactly the cells that it neither passes over itself nor below a cell it turns back at |
| `UnskipWalk.ComesTo` | src/engine_unskip.c:80-276 | in a sound tree that is every cell not passed over itself |
| `UnskipWalk.LiveNotPassed` | src/engine_unskip.c:80-276 | and a cell with something to do is not passed over |
| `UnskipWalk.NeighbourNotPassed` | src/engine_unskip.c:82-92 | with symmetric interactions an inactive cell with gas is not passed over either |
| `UnskipWalk.Unskip` | src/engine_unskip.c:404-422 | over all top-level cells that are listed as active, every pair task of the rank is served as its ends need and no exchange is switched on that is not part of such a service: turning back and leaving cells off the list starves nobody |
| `Traffic.SendsMeetReceives` | src/cell_unskip.c:1793-1988 | whatever the options and the orientation, one rank sends a cell to another exactly when the other waits for it |
| `FileOffsets.LocalOffsets` | src/common_io_cells.c:370-487 | a rank's counts and offsets, zero for foreign cells |
| `FileOffsets.CellOffsets` | src/common_io_cells.c:370-520 | the bitwise or of all ranks gives every cell its own count and offset |
| `FileOffsets.Apart` | src/common_io_cells.c:439-461 | the stretches of two cells do not overlap and lie within the file |
| `FileOffsets.Covered` | src/common_io_cells.c:439-461 | every place of the file belongs to some cell |

## Left out

- HydroDrift.AdvanceAdditive: of the prediction of h only the clamping to h_min and h_max is modelled. The factor exp(h_dt * dt / h) of `hydro_predict_extra` is recomputed from the h of the moment, so h, density and internal energy are not additive in the code either.
- HydroDrift.Advance: a periodic box is assumed (no particle leaves it), positions are not wrapped; x_diff_sort is treated as x_diff is and not repeated.
- HydroDrift.DriftLeaf: the limit on motion is kept squared, as the loop computes it; h_max_active, dx_max_sort, the black hole, rt and light-cone work done in the same loop are not modelled.
- HydroDrift.ActivateDriftPart: the same climb for gparts, sparts, limiter, synchronisation and sorts is not repeated.
- DriftForest.StepAll: drift tasks of different super-cells run one after the other; that they may run at the same time is not modelled.
- DriftForest.SimulateRank: the forced drift is called for each super-cell; the code calls it for the top-level cells above them, whose walk goes down to the super-cells.
- CellSplit.CellSplit: the checks under SWIFT_DEBUG_CHECKS, and the sorting buffers' own sizes, which the caller provides.
- Partition.Classify: the bucket counters start from zero in each phase, as they do in the code, and the overflow of 32-bit counters is not modelled.
- ExtraSlots.ReorderExtra: the debug check at the end of the range stands for what happens when the scan leaves the window.
- LiveTree.AddParticle: the star-formation lock around it and depth_h; the counters are unbounded. Of the errors, "Adding spart on a foreign node", "Undrifted cell!" and that for a split cell are modelled, the checks under SWIFT_DEBUG_CHECKS are not.
- LiveTree.NewRecord: the place comes from the caller; the code takes the middle of the cell. The same goes for the new gpart.
- Conversions.Remove: the check that the cell is local; all cells of a local top-level cell are.
- ConversionRuns.DoAll: one local top-level cell; time-step bookkeeping and the physics copied between records are not modelled.
- SortStore.Sorts: a 13-bit mask is a sequence of 13 booleans; allocation does not fail.
- SortStore.Sorts.Get: the pointer is the place in the store.
- Multipoles.MakeMultipoles: terms of order two and higher, softening and power; a split cell without any gpart divides by zero in the code and is excluded, as are massless gparts. The tree is a value and so is the tree of multipoles.
- Multipoles.DriftKeepsSound: gparts move at constant velocity and are not kicked between two drifts; rounding is not modelled.
- Neighbours.PairOnce: the recursion is told as a count of the pair tasks it ends in, on integer coordinates and a full octree; a periodic box is at least three cells wide in each direction, which `src/space_regrid.c:130-143` enforces.
- Packing.Pack, Packing.Unpack and the other tree functions of `src/cell_pack.c` work on trees that are values: pointers, parents and the pool of cells are not modelled.
- Mirrors.UnpackGridExtra: a pointer is told by the depth of the cell it leads to, which is on the way up.
- Mirrors.LinkSparts: `cell_link_parts` does not set the place at the rebuild; the model has one function for all species.
- UnskipWalk.Unskip: MPI itself, task creation and the flags for existing tasks; the links of one kind of physics at a time. That the trees are sound (tasks are created from the top down, counts add up, the next time step of a cell is the earliest of its progeny) is required, not derived.
- Traffic.SendsMeetReceives: a pair task is known to both ranks with the same cells, activity and counts. All calls that activate a send or receive are in the five branches modelled; sink tasks and the other link lists contain none. The packing tasks of the limiter are not modelled.
- FileOffsets.CellOffsets: one particle type; the bitwise or is any operation that keeps the other value when one is zero; MPI_Exscan is taken to give the sum over lower ranks.
- AtomicUpdate.NothingLost: floats are compared as values, not as bit patterns, so NaN and signed zero are outside.
- TreeLock.Exclusion: memory is sequentially consistent, as the atomic built-ins used provide.
- MeshCompleteness.UpdateSelfCompleteness: flags are trusted when not forced, which is how the code uses them; `cell_grid_set_pair_completeness` is not modelled, because its self recursion does not cover all pairs.
- `cell_activate_subcell_grav_tasks`: depends on a multipole acceptance test outside these files.
- `cell_need_rebuild_*`: a pairwise test on neighbours only.
- `cell_sanitize`, timestep collection, light cones, the debug cell IDs, HDF5 and all physics kernels.
- `src/barrier.h`: right only without spurious wake-ups, so nothing is claimed.

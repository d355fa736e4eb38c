# cxlalloc, modelled and proved in Dafny

cxlalloc is a memory allocator for memory shared between processes and hosts: any number of threads allocate and free
blocks in one heap without locks, and a thread that crashed in the middle of an operation is repaired afterwards. This
project models its algorithms and proves what they are for. All statements are for every run, every interleaving and
every number of threads unless they say otherwise.

- **The slab heap** (`Heap`, `HeapInvariant`, `HeapSteps`, `HeapRuns`, `HeapTheorems`, `HeapTags`, `HeapVersions`,
  `HeapSightings`, `HeapLive`, `HeapRequests`, `HeapReturns`, `HeapFrees`, `HeapProgress`, `HeapValid`). Slabs move between a bump pointer, each thread's unsized and sized stacks, a shared stack and the hands
  of threads, all linked through one `next` field per slab. The heap is a transition system in which every access to
  shared memory is a step, and versions are chosen as the code chooses them. One inductive invariant gives that no slab
  is lost or shared, that the counter of remote frees decides rightly who claims a drained slab, that live blocks never
  overlap, and that no step panics. There is one kind of step that breaks it, a pop that takes effect with an outdated
  link; a run is in order throughout if and only if it has no such step, and it has none if the head is always written
  with fresh tags. Up to there the shared stack refines an atomic sequence and the heap refines an allocator of distinct
  blocks. Requests are followed from call to return: an allocation gives one block of the class asked for, a free releases
  its block once, and a thread that runs alone always finishes. `HeapReach` and `HeapWitness` build runs, from empty memory, to the states in which something goes wrong.
  `Chains` is about linked chains, `SlabStacks` has the stacks as objects with the loops of the source, `Sizes` has size
  classes and block addresses.
- **Detection and recovery** (`DetectableCas`, `DetectExact`, `Announcements`, `Recovery`). After a crash, `detect`
  asserts that the announcement of a compare-and-swap is in place, and tells from tags and a table of sightings whether
  it took effect. It is shown exactly when it panics, exactly when it is right, and that reading the table entry by entry
  does not matter. Given a right answer, recovery of a pop, a bump, a push or a remote free is shown to put things where
  they belong once, or exactly when it does.
- **The huge allocator**. Threads claim slots through a racy hint, hand out ranges of them, and take ranges back only
  when no hazard array protects them. `Huge`, `HugeInvariant` and `HugeRuns` have it with a descriptor written, a list
  walked and a hazard array searched in one step each. `HugeStores` has the stores that overwrite a descriptor and the
  loads of a walk one by one, and `HugeRefines` and `HugeLookups` prove that this is a refinement of `Huge` exactly as
  long as no lookup takes the wrong descriptor, with the exact condition for that. `HazardScan` does the same for the
  search of a hazard array. `Claims` and `HugeSlots` are about claiming, `HugeFocus` and `HugeCrash` about rebuilding the
  free set after a restart, `HugeRequests` follows requests from call to return, `Hazards` is the array as an object, and `HugeWitness` and `HugeTorn` have runs.
- **Supporting structures**: the two-level `Bitset`, the extent arena `DaxArena`, and the combining protocol
  (`Combining`, `CombiningRuns`, `CombiningRounds`, `CombiningProgress`, `CombiningOrder`).

Where the code does less than its comments or callers suggest, the model follows the code and the exact condition is
proved, with a run to a state in which it fails:

- The tag on the head of the shared stack does not keep a pop from taking effect with an outdated link: storing a slab's
  counter leaves a tag of version zero, `help` on that tag sets the thread's own entry back, and the next update repeats
  a version (cxlalloc/src/cas.rs:41-55, 68-72, 129-137). The pop then leaves a slab on the shared stack that somebody has
  in use (`HeapRuns.StepKeeps`, `HeapTheorems.GlobalRefines`, `HeapTags.FreshRunsKeep`, `HeapVersions.InTurnIsFresh`;
  run: `HeapWitness.SlabInTwoPlaces`).
- `sized_to_unsized` does not count down when it takes a slab out of the middle of a chain, although the comment on
  `Local` says that `len` is the length of the chain (cxlalloc/src/slab/stack.rs:22). From then on `is_valid` is false
  for that thread, and a validating build stops there (`HeapValid.ValidAlong`, `HeapValid.ChecksPassIff`; run:
  `HeapWitness.ValidationFails`).
- `recover_push` does not redo `own` or `steal`: a crash right before them leaves a slab on the unsized stack of a thread
  that does not own it (`Recovery.PushRepairs`; runs: `HeapWitness.PopNotRepaired`, `HeapWitness.FreeNotRepaired`). In
  validating builds `link` panics when it is repeated after the first owner has been written (`Recovery.RecoverBump`;
  run: `HeapWitness.BumpNotRepaired`). On a slab further down the stack `recover_push` closes a cycle
  (`SlabStacks.RecoverPushCycles`).
- Undoing an interrupted push on the shared stack puts the batch back with its last link as it is. Once that link has
  been written, the undone stack runs on into the shared one (`Recovery.RecoverPushed`; run:
  `HeapWitness.PushNotRepaired`).
- `detect` asserts that the announcement is in place (cxlalloc/src/cas.rs:111), and a thread that meets a tag of its own
  records over it: then recovery panics, also after two updates of one cell by one thread (`DetectExact.RightIff`,
  `DetectExact.AnnouncementLostIff`, `HeapSightings.AnnouncementLostIff`, `Recovery.RecoverPop`; runs:
  `DetectExact.DetectPanics`, `HeapWitness.PopPanics`, `HeapWitness.PushPanics`, `HeapWitness.BumpPanics`).
- The table of sightings has one entry for each pair of threads, not for each cell: `detect` can miss an update when
  another cell still carries a tag of the same thread (`DetectableCas.DetectExactIff`; run:
  `DetectableCas.DetectFails`), and a thread can use a version twice on one cell long before versions wrap around
  (`Announcements.DifferentIff`; run: `DetectableCas.VersionReused`).
- A descriptor of the huge allocator is overwritten in place by one store per field while others may walk the list
  (cxlalloc/src/huge.rs:141-144, 289-297). Between the stores of its offset and its size it can cover bytes of a range
  further down the list, and a free or a mapping of those finds the wrong descriptor (`HugeLookups.FindWrongIff`,
  `HugeRefines.FindsHolderIff`; runs: `HugeTorn.FreesAnother`, `HugeTorn.FreesGrown`). A thread that stops there cannot
  be restarted (`HugeCrash.RestartsIff`; run: `HugeCrash.FocusPanics`).
- A search of a hazard array misses an offset that its owner moves into a hole behind the search, and `reuse` then gives
  back a range that is mapped (`HazardScan.ContainsIff`, `HugeRuns.MissedKeepsIff`; run: `HazardScan.MissesHeld`).
- `focus` rebuilds a free set that includes ranges of descriptors that are freed but not given back, and the next
  allocation can hand such a range out (`HugeFocus.FocusKeepsIff`, `HugeFocus.FocusHandsOutIff`; run:
  `HugeWitness.HandsOutMapped`).
- The combining protocol returns an old result if a record is copied with a thread's number before its result. The
  source does not fix the order in which the fields of a record are laid out or copied
  (extern/memento/src/ds/comb.rs:49-53, 239; `CombiningOrder.RightIff`).
- `BitSet::unset` clears the sparse bits of all lower rows (`Bitset.BitSet.Unset`).
- `DaxArena::allocate` may place an extent inside another when asked for more than the arena's alignment
  (`DaxArena.ApartIff`; three requests: `DaxArena.Overlaps`).
- `Large::new` panics on sizes up to 512 (`Sizes.LargeNewTight`); callers only pass larger ones.

A lemma about the heap whose hypothesis is the invariant `Inv` holds in every state of every run up to the first pop
with an outdated link (`HeapRuns.RunsKeepUpTo`). A lemma about the huge allocator whose hypothesis is the invariant of
`Huge` holds of `Abs` of every state of every run of `HugeStores` up to the first torn lookup (`HugeLookups.RunsRefine`).

## Model

| member | source | states |
|---|---|---|
| `Chains.TraceIsAll` | cxlalloc/src/slab.rs:76-82 | tracing a null-terminated chain meets exactly its slabs, in order, and ends |
| `Chains.StackUnique` | cxlalloc/src/slab/stack.rs:22-33 | a head and the `next` fields determine the chain |
| `Chains.PredecessorFound` | cxlalloc/src/heap.rs:654-661 | the walk for the slab before a given one finds it on any chain the slab is on, other than as the head |
| `Chains.StackRemove` | cxlalloc/src/heap.rs:654-665 | linking past a slab leaves the chain without that slab and otherwise as it was |
| `HeapRuns.StepKeeps` | cxlalloc/src/heap.rs:202-470 | every step of every thread succeeds, and keeps the invariant on owners, bitsets, counters, chains and logs if and only if it is not a pop that takes effect with an outdated link |
| `HeapRuns.RunsKeep` | cxlalloc/src/heap.rs:202-470 | every state of every run of any number of threads without such a pop satisfies the invariant |
| `HeapRuns.RunsKeepIff` | cxlalloc/src/slab/stack.rs:130-153 | a run satisfies the invariant throughout if and only if it has no such pop |
| `HeapRuns.RunsGoOn` | cxlalloc/src/heap.rs:202-470 | no such run panics or reads out of bounds, with ownership and double-free validation on or off |
| `HeapValid.ChecksPassIff` | cxlalloc/src/heap.rs:252-425 | a run without outdated pops passes every `is_valid` check of a validating build if and only if nobody in it takes a slab out of the middle of a sized chain |
| `HeapTags.FreshRunsKeep` | cxlalloc/src/cas.rs:57-108 | if every write of the shared head carries a tag that no pop in progress remembers, every state of the run satisfies the invariant and no pop is outdated |
| `HeapTags.FreshIsCurrent` | cxlalloc/src/cas.rs:57-108 | fresh tags rule out pops with an outdated link |
| `HeapVersions.InTurnIsFresh` | cxlalloc/src/cas.rs:57-72 | if every announcement of a run is made with the entry that the thread's last one left, and none wraps around, every write of the head carries a fresh tag |
| `HeapVersions.InTurnRunsKeep` | cxlalloc/src/cas.rs:57-72 | and every state of the run satisfies the invariant |
| `HeapWitness.OutdatedReached` | cxlalloc/src/cas.rs:41-137 | two threads, one block to a slab: a run at whose end the head is what a pop remembers and the link behind it is not |
| `HeapWitness.SlabInTwoPlaces` | cxlalloc/src/slab/stack.rs:130-153 | one step further, a slab with a block in use is detached and on the shared stack |
| `HeapTheorems.ExactlyOnePlace` | cxlalloc/src/heap.rs:202-470 | judged by heads, links, bitsets, counters and owners, each slab below the bump pointer is in exactly one place: one unsized chain, one sized chain, detached from its owner, disowned, the shared stack or in flight in one operation |
| `HeapTheorems.SizedExactly` | cxlalloc/src/heap.rs:559-601 | a sized chain holds exactly the slabs its thread owns, of that class, with a free block, that are not on the unsized chain, shared or in flight |
| `HeapTheorems.LengthsBound` | cxlalloc/src/slab/stack.rs:22-73 | the recorded length is the chain length for unsized stacks and at least that for sized ones |
| `HeapTheorems.CounterCounts` | cxlalloc/src/heap.rs:371-407 | the remote counter is the number of free bits plus the number of live blocks, which are disjoint |
| `HeapTheorems.LastFreeClaims` | cxlalloc/src/heap.rs:371-428 | the free that takes the counter to zero claims a slab without free bit, other live block, link or other operation in progress |
| `HeapTheorems.GlobalRefines` | cxlalloc/src/slab/stack.rs:103-153 | push prepends its batch, pop takes the first slab and leaves the rest, and nothing else changes the shared stack, if and only if a pop that takes effect has read the link that is still there |
| `HeapTheorems.BumpMoves` | cxlalloc/src/heap.rs:488-512 | the bump pointer moves only for the winning thread, by a batch, and that thread gets exactly that range |
| `HeapTheorems.BumpsTile` | cxlalloc/src/heap.rs:488-512 | the ranges handed out along any run follow one another without gap or overlap up to the pointer |
| `HeapValid.ValidIff` | cxlalloc/src/heap.rs:559-601 | in every reachable state `is_valid` of a thread holds exactly when no sized length exceeds its chain |
| `HeapValid.ValidAlong` | cxlalloc/src/heap.rs:559-601 | along any run without outdated pops, `is_valid` of a thread holds exactly until the thread first takes a slab out of the middle of a sized chain |
| `HeapValid.SlackCounts` | cxlalloc/src/heap.rs:643-668 | the excess of a sized length over its chain is the number of slabs taken out of its middle so far |
| `HeapWitness.ValidationFails` | cxlalloc/src/heap.rs:643-668 | a run of one thread after which every slab is where it should be and `is_valid` is false |
| `HeapValid.UnsizeSlack` | cxlalloc/src/heap.rs:643-668 | removing a slab from a sized chain makes the length exceed the chain by one more exactly when the slab is not the head |
| `HeapValid.SlackSteps` | cxlalloc/src/heap.rs:202-470 | no other step changes the excess, so that it is never made up for |
| `HeapLive.LiveInside` | cxlalloc/src/data.rs:84-119 | every address of a live block lies in its slab and leads back to slab and block |
| `HeapLive.LiveApart` | cxlalloc/src/heap.rs:202-239 | no two live blocks of any slabs and classes share an address |
| `HeapLive.RunsApart` | cxlalloc/src/size/small.rs:40-60 | along any run of the small or the large heap without outdated pops, live blocks lie in their slabs and share no address |
| `HeapLive.HeapRefines` | cxlalloc/src/heap.rs:202-428 | every step hands out a block that was not live, takes back one its holder gave to a free, or leaves the live blocks and their addresses alone |
| `HeapRequests.AllocServes` | cxlalloc/src/heap.rs:202-312 | from the call of an allocation of class `c` on, over any interleaving, the thread has had no event or that of one block of a slab of class `c`; when it is idle again it has had exactly one and the application has the block, unless the class has no blocks |
| `HeapRequests.AllocSize` | cxlalloc/src/heap.rs:202-239 | the block handed out has as many bytes as the class that was asked for |
| `HeapRequests.SourcesInTurn` | cxlalloc/src/heap.rs:227-287 | an allocation goes to the unsized stack only if the stack of its class was empty at the call, to the shared stack only if the unsized stack was empty too, and to the bump pointer only after it has found the shared stack empty |
| `HeapRequests.RefillFills` | cxlalloc/src/heap.rs:603-640 | a slab taken for a class has exactly the blocks of the class free, and none out |
| `HeapRequests.DisownedIff` | cxlalloc/src/heap.rs:290-312 | an allocation that takes the last free block of a slab leaves the slab without owner exactly when a block of it was no longer out at the load |
| `HeapReturns.FreeServes` | cxlalloc/src/heap.rs:329-470 | from the call of a free on, over any interleaving, the thread has had no event or the release of its block; when it is idle again it has had exactly one, and its unsized stack has one slab more, less a batch if that was one too many, exactly when the slab had become empty |
| `HeapReturns.ReleasesWhere` | cxlalloc/src/heap.rs:329-407 | the release sets the block's bit and leaves the counter if the thread owns the slab, and takes one off the counter and leaves the bits if not |
| `HeapReturns.FreeKeepsCache` | cxlalloc/src/heap.rs:430-434 | after a free the unsized stack is no longer than before or than the cache |
| `HeapProgress.AloneFinishes` | cxlalloc/src/heap.rs:202-470 | from any state of any run without outdated pops, a thread that runs alone is idle after at most as many steps as its rank |
| `HeapProgress.OthersLeaveRank` | cxlalloc/src/cas.rs:57-108 | another thread adds to that number only by writing the head, the bump pointer or a counter |
| `Sizes.SmallCounts` | cxlalloc/src/size/small.rs:40-60 | the loop fills the table with as many blocks of each class as the slab has room and the bitset has bits for, and no more |
| `Sizes.SmallMaximal` | cxlalloc/src/size/small.rs:40-60 | one more block of any class but the smallest would not fit in the slab, the smallest uses up the bits, and the largest class is the largest small size |
| `Sizes.SmallFits` | cxlalloc/src/size/small.rs:40-60 | blocks of every small class fit in a slab and their bits in the bitset, and only class zero has none |
| `Sizes.SmallNewTight` | cxlalloc/src/size/small.rs:28-34 | a size up to the maximum gets the least class that holds it, larger ones none |
| `Sizes.LargeFits` | cxlalloc/src/size/large.rs:27-45 | blocks of every large class fill the slab exactly and their bits fit in the bitset |
| `Sizes.LargeNewTight` | cxlalloc/src/size/large.rs:28-36 | a size gets the least class that holds it; too large exactly above the maximum, a panic exactly up to 512 |
| `Sizes.BlockRoundTrip` | cxlalloc/src/data.rs:85-118 | slab and block are recovered from any address inside a block |
| `Sizes.BlocksApart` | cxlalloc/src/data.rs:85-100 | different blocks of one slab, and blocks of different slabs, do not overlap |
| `SlabStacks.Slabs.Link` | cxlalloc/src/slab.rs:50-74 | the range becomes one chain in order, owned by the caller, that goes on to the given head; no other slab changes; validation fails exactly when a slab of the range has an owner |
| `SlabStacks.Slabs.Count` | cxlalloc/src/slab/stack.rs:83-85 | counting a chain gives its length |
| `SlabStacks.WalkNoDup` | cxlalloc/src/slab/stack.rs:22-23 | a walk that ends has met no slab twice |
| `SlabStacks.LocalStack.IsValid` | cxlalloc/src/slab/stack.rs:24-33 | true exactly when the chain ends, has no cycle and has the recorded length; it terminates on cycles |
| `SlabStacks.LocalStack.Pop` | cxlalloc/src/slab/stack.rs:50-57 | takes the first slab, or nothing from an empty stack |
| `SlabStacks.LocalStack.Push` | cxlalloc/src/slab/stack.rs:59-73 | puts the slab in front and changes only its link |
| `SlabStacks.LocalStack.RecoverPush` | cxlalloc/src/slab/stack.rs:75-85 | the slab is on the stack once whether or not it was before, and the length is the chain's |
| `SlabStacks.RecoverPushCycles` | cxlalloc/src/slab/stack.rs:75-85 | on a slab further down the stack the repaired push leaves no chain that ends |
| `SlabStacks.Owned.Unlink` | cxlalloc/src/heap.rs:646-665 | takes the slab off its chain as the heap model's step does; the length goes down only at the head |
| `SlabStacks.Owned.SizedToUnsized` | cxlalloc/src/heap.rs:643-668 | the slab leaves the chain of its class and heads the unsized one; the stacks of all other classes are untouched |
| `DetectableCas.CountMeans` | cxlalloc/src/cas.rs:119-126 | more than one entry shows the version exactly when somebody other than the writer recorded it |
| `DetectableCas.DetectIsExact` | cxlalloc/src/cas.rs:30-137 | from a fresh announcement on, over all interleavings of loads and updates on all cells and stores to other cells, and wherever the thread stops, `detect` says yes exactly when the compare-and-swap succeeded, if no other cell carries the thread's tag and as long as the announcement is in place |
| `DetectableCas.DetectCanFail` | cxlalloc/src/cas.rs:110-137 | with a tag of the thread on another cell, some continuation makes `detect` wrong |
| `DetectableCas.DetectExactIff` | cxlalloc/src/cas.rs:110-137 | on continuations that leave the announcement in place, and while another thread is idle, `detect` is right on every one if and only if no other cell carries a tag of the thread |
| `DetectExact.RightIff` | cxlalloc/src/cas.rs:110-137 | `detect` is right and does not panic on every continuation if and only if no cell at all carries a tag of the thread |
| `DetectExact.DetectPanics` | cxlalloc/src/cas.rs:110-111 | from the initial state, a second update of the same cell is enough for it to panic |
| `DetectExact.AnnouncementLostIff` | cxlalloc/src/cas.rs:110-137 | on any continuation, `detect` panics exactly when the thread has met a tag of its own since |
| `DetectExact.ScanIsExact` | cxlalloc/src/cas.rs:110-126 | the same exactness when the cell and the table are read entry by entry and others go on between the reads |
| `DetectableCas.DetectFails` | cxlalloc/src/cas.rs:57-137 | from the initial state, one update of another cell is enough for that |
| `DetectableCas.StoreHides` | cxlalloc/src/cas.rs:41-55 | a store to the cell itself, begun before the compare-and-swap, makes `detect` miss it |
| `DetectableCas.VersionReused` | cxlalloc/src/cas.rs:68-72 | update, update elsewhere, look back, update again puts the same tag on a cell twice |
| `Announcements.DifferentIff` | cxlalloc/src/cas.rs:57-72 | along any run, the versions a thread announces are pairwise different if and only if there are no more of them than versions and the thread makes each with the entry that the one before left |
| `HeapSightings.EntrySince` | cxlalloc/src/cas.rs:30-137 | along any run of the heap a thread's version is the one after its entry at its last announcement, and its entry is that version or that of the last tag of its own that it has met since on the head, the bump pointer or a counter |
| `HeapSightings.EntryBefore` | cxlalloc/src/cas.rs:129-137 | before its first announcement the entry is zero or that of the last such tag |
| `HeapSightings.AnnouncementLostIff` | cxlalloc/src/cas.rs:57-137 | after a crash anywhere in an update, recovery panics on the announcement exactly when the last tag of its own that the thread has met since is of another version |
| `Recovery.RunsLog` | cxlalloc/src/heap.rs:371-428 | in every reachable state a thread's log says what its operation is at; `last` is that of the compare-and-swap that succeeded |
| `Recovery.PushRepairs` | cxlalloc/src/slab/stack.rs:75-85 | repairing a push restores the whole invariant exactly when the slab had been given to the thread |
| `Recovery.RecoverPop` | cxlalloc/src/recover.rs:55-62 | after a crash at any point of a pop, recovery panics exactly when the announcement is gone; otherwise the slab is alone on the unsized stack if the pop took effect and the stack is empty if not, and the invariant holds exactly when a popped slab had its owner |
| `Recovery.RecoverRemote` | cxlalloc/src/recover.rs:106-126 | after a crash at any point of a remote free, recovery panics exactly when the announcement is gone; otherwise the free starts over with the block still counted, or is done; a slab whose last block it was is on the unsized stack once |
| `HeapFrees.FreesOnce` | cxlalloc/src/heap.rs:371-428 | whatever the other threads do, a remote free releases no block but its own, and exactly once by the time it is over |
| `HeapFrees.RecoveredFreesOnce` | cxlalloc/src/recover.rs:113-117 | so does a free that recovery starts over, on every continuation |
| `Recovery.RecoverPushed` | cxlalloc/src/recover.rs:79-103 | after a crash at any point of a push on the shared stack, recovery panics exactly when the log names a version and the announcement of it is gone; otherwise the batch and the rest are one stack again if and only if the last link of the batch is still the one to the rest; the invariant holds if and only if, besides, owners are not cleared |
| `HeapWitness.PopNotRepaired` | cxlalloc/src/recover.rs:55-62 | a run of the validating build to a crash in a pop that recovery goes through and does not make up for |
| `HeapWitness.PopPanics` | cxlalloc/src/cas.rs:110-111 | a run of one thread to a crash in a pop of its own slab, on which recovery panics |
| `HeapWitness.PushPanics` | cxlalloc/src/cas.rs:110-111 | a run of one thread to a crash in a push on its own slab, on which recovery panics |
| `HeapWitness.BumpPanics` | cxlalloc/src/cas.rs:110-111 | a run of one thread to a crash in its second bump in a row, on which recovery panics |
| `HeapWitness.FreeNotRepaired` | cxlalloc/src/recover.rs:106-126 | a run, validating or not, to a crash in a remote free that recovery goes through and does not make up for |
| `HeapWitness.BumpNotRepaired` | cxlalloc/src/recover.rs:64-78 | a run of the validating build to a crash in a bump on which recovery panics |
| `HeapWitness.PushNotRepaired` | cxlalloc/src/recover.rs:94-103 | a run to a crash in a push that recovery goes through and does not make up for |
| `Recovery.OwnedOnce` | cxlalloc/src/slab/local.rs:29-33 | repeating `link` meets an owned slab exactly when the first owner had been written |
| `Recovery.RecoverBump` | cxlalloc/src/recover.rs:64-78 | after a crash at any point of a bump, recovery panics exactly when the announcement is gone or a validating build meets an owner; otherwise the whole range is the unsized stack if the bump took effect and the stack is empty otherwise |
| `Claims.BelowCovers` | cxlalloc/src/huge.rs:376-384 | below the end of the claims, the last claim starting at or below a slot covers it |
| `Claims.BelowBeyond` | cxlalloc/src/huge.rs:376-384 | beyond the end, looking down finds the last claim although it does not cover the slot |
| `HugeSlots.RunsTile` | cxlalloc/src/huge.rs:343-374 | in every run of racing claimers the claims tile a prefix of the slots and the hint and all cursors are on claim boundaries |
| `HugeSlots.ClaimRefines` | cxlalloc/src/huge.rs:343-374 | a claim takes effect atomically, at the end of the claims before it |
| `HugeSlots.ClaimsSize` | cxlalloc/src/huge.rs:344-374 | from start to end a claim for a size appends nothing, or once as many slots as the size needs and no more; by the time the claimer is idle again it has, and if it gives up there was no room; no slot below the hint is tried |
| `HugeSlots.HintIsEnd` | cxlalloc/src/huge.rs:360-364 | the hint that is published is the end of the claims with the new one |
| `HugeSlots.GivesUp` | cxlalloc/src/huge.rs:353-373 | a claimer gives up only when no room is left |
| `HugeSlots.Find` | cxlalloc/src/huge.rs:376-384 | the owner of the covering claim for every slot below the end, the last claimer's beyond it, none outside the array |
| `Huge.FirstFit` | cxlalloc/src/huge.rs:472-476 | the answer is free and every lower place is not |
| `HugeInvariant.FindInHolds` | cxlalloc/src/huge.rs:289-297 | the first descriptor containing a held offset is the one that holds it, never an outdated one |
| `HugeInvariant.FindHolds` | cxlalloc/src/huge.rs:289-297 | where every descriptor is whole, `find` returns the live or freed descriptor covering an offset |
| `HugeRuns.StepKeeps` | cxlalloc/src/huge.rs:103-287 | with descriptors written and lists walked at once, every step keeps the invariant on claims, free sets, descriptor order and hazards |
| `HugeRuns.StepGoesOn` | cxlalloc/src/huge.rs:103-287 | there, a step panics exactly when it claims and the region is used up or inserts into a full hazard array: `find` finds, hazards are unique, covering succeeds |
| `HugeRuns.RunsKeep` | cxlalloc/src/huge.rs:103-287 | there, every state of every run started clean satisfies the invariant |
| `HugeRefines.StepRefines` | cxlalloc/src/huge.rs:141-297 | with a store per field and loads one by one, every step but a torn lookup is one step of the model above or none on the abstract state, and keeps everything |
| `HugeRefines.FindsHolderIff` | cxlalloc/src/huge.rs:518-520 | a walk takes the holder of the offset and passes every other descriptor, unless what it read of another one covers the offset and offset and size do not belong together: they were read between the stores of an overwrite that makes the range smaller, or the size has changed since the offset was read |
| `HugeRefines.StepGoesOn` | cxlalloc/src/huge.rs:103-297 | and panics exactly when it claims and the region is used up or inserts into a full hazard array |
| `HugeLookups.FindWrongIff` | cxlalloc/src/huge.rs:289-297 | a search of the list as it is in memory answers wrongly if and only if a descriptor before the holder is between the stores of its offset and size and covers the offset; never when the old size is at most the new one |
| `HugeLookups.LookAlone` | cxlalloc/src/huge.rs:289-297 | the loads of a walk one by one give what that search gives, if nobody else does anything |
| `HugeLookups.RunsKeep` | cxlalloc/src/huge.rs:103-297 | every state of every run without a torn lookup satisfies the invariant |
| `HugeLookups.RunsRefine` | cxlalloc/src/huge.rs:103-297 | and is, seen abstractly, a state of a run with descriptors written and lists walked at once |
| `HugeLookups.OneSizeRuns` | cxlalloc/src/huge.rs:103-297 | no lookup is torn on a run on which all allocations are of one size |
| `HugeTorn.FreesAnother` | cxlalloc/src/huge.rs:141-191 | a run on which freeing a range frees another one, read between the stores of its offset and size, that is just being handed out; the range that was to be freed stays live |
| `HugeTorn.FreesGrown` | cxlalloc/src/huge.rs:289-297 | a run on which nothing is being stored when the lookup looks, and the size grows between its two loads |
| `HugeRuns.ClaimedIsPartitioned` | cxlalloc/src/huge.rs:472-506 | what a thread has claimed is the disjoint union of its free set and the ranges of its live and freed descriptors |
| `HugeRuns.HeldApart` | cxlalloc/src/huge.rs:472-506 | live and freed ranges of all threads are pairwise disjoint |
| `HugeRuns.ReuseSpares` | cxlalloc/src/huge.rs:247-287 | `reuse` gives back a range only when no thread's hazard array has its offset, although it looks into them one by one |
| `HugeRuns.MissedKeepsIff` | cxlalloc/src/huge.rs:258-284 | had all its looks said no, `reuse` would give the range back, and the invariant would be kept exactly when no hazard array has its offset |
| `HazardScan.LostIff` | cxlalloc/src/huge.rs:395-433 | over all interleavings of the owner's stores and the loads of a search, an offset that is there all the time is no longer where the search has still to look if and only if the owner has copied it behind the search and cleared the old place |
| `HazardScan.ContainsIff` | cxlalloc/src/huge.rs:427-433 | the search finds it exactly when that has not happened |
| `HazardScan.NoRemovalNoLoss` | cxlalloc/src/huge.rs:395-433 | it does not happen while the owner removes nothing |
| `HazardScan.MissesHeld` | cxlalloc/src/huge.rs:406-433 | a run from the empty array on which it happens |
| `HugeRuns.HazardsStay` | cxlalloc/src/huge.rs:65-75 | a hazard on a live range goes away only by its holder's own free, never by `refresh` |
| `HugeRuns.ClaimSuffices` | cxlalloc/src/huge.rs:113-115 | after one claim the size fits, so that the loop of `allocate` ends |
| `HugeRequests.AllocServes` | cxlalloc/src/huge.rs:103-167 | from its call on, over any interleaving, an allocation is looking for a range of its size or has one; when the thread rests again it has got a live range of exactly that size that its hazard array protects |
| `HugeRequests.AllocTakesFree` | cxlalloc/src/huge.rs:472-488 | the range is the lowest that was free, and is taken out of the free set; a descriptor used for it was outdated or is new |
| `HugeRequests.FreeServes` | cxlalloc/src/huge.rs:169-191 | from its call on, a free of an offset is freeing the descriptor that holds it; when the thread rests again that descriptor is free, otherwise as it was, and under no hazard of the thread |
| `HugeRequests.MapProtects` | cxlalloc/src/huge.rs:213-228 | mapping an offset puts the offset of its holder, and no other, into the thread's hazards |
| `HugeRequests.RefreshSheds` | cxlalloc/src/huge.rs:65-75 | after `refresh` the thread has no hazard on the offset that the freed descriptor had when it was seen, whatever happens to the descriptor meanwhile |
| `HugeRequests.AloneRests` | cxlalloc/src/huge.rs:103-287 | a thread that runs alone rests again after finitely many steps, unless it panics |
| `HugeFocus.Allocator.Cover` | cxlalloc/src/huge.rs:490-497 | takes the range out, and the assertion holds exactly when all of it was free |
| `HugeFocus.Allocator.Allocate` | cxlalloc/src/huge.rs:472-488 | takes the lowest range that fits and fails only when none does |
| `HugeFocus.Allocator.Focus` | cxlalloc/src/huge.rs:78-101 | from any memory, the rebuild succeeds exactly when every live descriptor's range is claimed and apart from those of the live ones before it, and yields the claimed slots less the live ranges |
| `HugeFocus.FocusGoesOn` | cxlalloc/src/huge.rs:78-101 | in every reachable state with whole descriptors it succeeds |
| `HugeCrash.RestartsIff` | cxlalloc/src/huge.rs:78-101 | after a stop between any two stores it succeeds if and only if the descriptor being overwritten, as it is in memory, does not clash with the thread's claims and other live ranges |
| `HugeCrash.FocusPanics` | cxlalloc/src/huge.rs:78-144 | a run to a stop after which it fails |
| `HugeFocus.FocusRestores` | cxlalloc/src/huge.rs:78-101 | the rebuilt set is the one the thread had plus the ranges of its freed descriptors |
| `HugeFocus.FocusKeepsIff` | cxlalloc/src/huge.rs:78-101 | the rebuilt set satisfies the invariant exactly when the thread has no freed descriptor that was not given back |
| `HugeFocus.FocusHandsOutIff` | cxlalloc/src/huge.rs:78-101 | the next allocation hands out bytes of a freed descriptor that was not given back if and only if its range was not free before the rebuild |
| `HugeWitness.Waiting` | cxlalloc/src/huge.rs:247-287 | a run to a freed descriptor whose offset another thread's hazard array has |
| `HugeWitness.HandsOutMapped` | cxlalloc/src/huge.rs:78-160 | after it, a rebuild and an allocation hand out the range that the other thread has mapped |
| `Hazards.HazardArray.Contains` | cxlalloc/src/huge.rs:427-433 | membership in the set of offsets |
| `Hazards.HazardArray.Insert` | cxlalloc/src/huge.rs:395-404 | adds the offset; fails exactly when it is there or the array is full; entries stay unique |
| `Hazards.HazardArray.SwapRemove` | cxlalloc/src/huge.rs:406-425 | removes exactly that offset and reports whether it was there; entries stay unique |
| `CombiningRuns.StepKeeps` | extern/memento/src/ds/comb.rs:153-325 | if results are copied before numbers, in any such order, no step panics and each keeps the invariant on requests, records, also half copied ones, history and lock |
| `CombiningRuns.RunsKeep` | extern/memento/src/ds/comb.rs:153-325 | every state of every crash-free run satisfies the invariant |
| `CombiningOrder.ReturnsRightAlong` | extern/memento/src/ds/comb.rs:235-324 | on all these runs every thread that returns, returns the result of its own request |
| `CombiningOrder.RightIff` | extern/memento/src/ds/comb.rs:239-239 | for two threads and any order in which all fields of a record are copied, that is so on every run if and only if every result comes before its number |
| `CombiningRuns.ExecutedOnce` | extern/memento/src/ds/comb.rs:241-263 | a thread's requests are executed in turn, none twice |
| `CombiningRuns.ReturnsItsResult` | extern/memento/src/ds/comb.rs:284-324 | a thread about to return has had its request executed exactly once with its argument, and returns the result of that execution |
| `CombiningRuns.ReturnsIssued` | extern/memento/src/ds/comb.rs:190-205 | a thread that issued `x` and is about to return has had one execution for it, between issue and return and with argument `x`, and returns what the operation gave for `x` in its turn |
| `CombiningRounds.RoundsEnd` | extern/memento/src/ds/comb.rs:241-263 | at the end of a round a combiner starts another exactly when something has been executed since this one started and it has rounds left |
| `CombiningProgress.AloneReturns` | extern/memento/src/ds/comb.rs:190-325 | a thread that runs alone gets its answer, from every reachable state in which nobody else has the lock |
| `CombiningRuns.WritesUnpublished` | extern/memento/src/ds/comb.rs:235-284 | no step writes the published record, whose data is the result of the history it reflects |
| `CombiningRuns.WaitingSees` | extern/memento/src/ds/comb.rs:298-314 | a waiting thread never looks through a null pointer |
| `Bitset.BitSet.Fill` | cxlalloc/src/bitset.rs:94-125 | exactly the first `n` bits are on, and both levels and the count agree |
| `Bitset.BitSet.Peek` | cxlalloc/src/bitset.rs:128-135 | the least member |
| `Bitset.BitSet.Set` | cxlalloc/src/bitset.rs:138-151 | adds the bit and keeps both levels and the count in agreement |
| `Bitset.UnsetAgrees` | cxlalloc/src/bitset.rs:165-165 | after the mask of `unset` both levels agree exactly when all lower rows are empty |
| `Bitset.UnsetLosesRow` | cxlalloc/src/bitset.rs:165-165 | with one bit in each of two rows, unsetting the upper one hides the lower row |
| `Bitset.BitSet.Unset` | cxlalloc/src/bitset.rs:154-167 | removes the bit and keeps the count; valid afterwards exactly when all lower rows were empty |
| `Bitset.BitSet.TakeLowest` | cxlalloc/src/heap.rs:214-215 | peek then unset removes the least member and always stays valid |
| `Bitset.LooseRoundTrip` | cxlalloc/src/bitset.rs:218-231 | packing and unpacking a bit are inverse |
| `DaxArena.AlignedIsMod` | cxlalloc-preload/src/dax_arena.rs:364-368 | the model's alignment is divisibility |
| `DaxArena.MaskIsDown` | cxlalloc-preload/src/dax_arena.rs:367-367 | clearing bits with the mask of a power of two rounds down to a multiple of it |
| `DaxArena.JumpShrinks` | cxlalloc-preload/src/dax_arena.rs:186-207 | each hop leaves fewer extents ahead, so that the search ends |
| `DaxArena.SearchLowest` | cxlalloc-preload/src/dax_arena.rs:185-207 | for any alignment, the answer is aligned with no aligned gap below it, and there is no answer only when no aligned gap is in bounds |
| `DaxArena.SearchFits` | cxlalloc-preload/src/dax_arena.rs:185-207 | for the arena's alignment, an answer in bounds is a gap |
| `DaxArena.TrapCatches` | cxlalloc-preload/src/dax_arena.rs:186-195 | for every larger alignment and every base the arena may have, extents for which the search answers an offset inside one of them |
| `DaxArena.ApartIff` | cxlalloc-preload/src/dax_arena.rs:166-226 | the search keeps extents apart in every sound arena if and only if the requested alignment is at most the arena's or the arena ends before an extent astride the first aligned address above its base would |
| `DaxArena.Overlaps` | cxlalloc-preload/src/dax_arena.rs:166-226 | in all other arenas, at most three requests to a new arena, with a table of any size from three on, give two extents that overlap |
| `DaxArena.Arena.Scan` | cxlalloc-preload/src/dax_arena.rs:185-207 | the loop computes the search |
| `DaxArena.Arena.Reserve` | cxlalloc-preload/src/dax_arena.rs:178-222 | takes a free entry and the range found; fails only when the table is full or there is no room, and for the arena's alignment exactly then |
| `DaxArena.Arena.Allocate` | cxlalloc-preload/src/dax_arena.rs:166-226 | exactly one extent is added, aligned, in bounds and with no aligned gap below it; errors leave the table alone and mean what they say |
| `DaxArena.Arena.Deallocate` | cxlalloc-preload/src/dax_arena.rs:228-240 | removes exactly the extent at the pointer, and fails exactly when there is none |
| `DaxArena.Arena.AllocationSize` | cxlalloc-preload/src/dax_arena.rs:242-250 | the requested length of the extent at the pointer, if there is one |

## Left out

- HeapRuns.RunsGoOn: does not include the `is_valid` validation at the end of operations (cxlalloc/src/heap.rs:252, 286, 362, 425); `HeapValid.ChecksPassIff` says exactly when it holds.
- HeapTags.FreshRunsKeep: freshness of tags is a hypothesis on the run; `HeapVersions.InTurnIsFresh` derives it, and nothing in the code ensures either. The model has the feature `recover-cas` on; without it every version is the same.
- DetectableCas.DetectIsExact: stores to the watched cell are excluded; `DetectableCas.StoreHides` says why.
- DetectableCas.DetectExactIff: leaves out continuations on which the announcement is lost, on which `detect` panics; `DetectExact.RightIff` is the statement with them.
- Recovery.RecoverPop: where `detect` does not panic, takes its answer to be right, and the bump batch and an empty unsized stack to be as they were when the operation logged.
- Recovery.RecoverRemote: states where the slab ends up, not that its owner field is set; when it is not, the lemma says so.
- HugeInvariant.FindHolds: holds where no descriptor is being overwritten; `HugeLookups.FindWrongIff` is about the others.
- HugeRuns.StepKeeps: writes a descriptor and walks a list in one step, as do `HugeRuns.RunsKeep` and `HugeRuns.StepGoesOn`; `HugeRefines.StepRefines`, `HugeLookups.RunsKeep` and `HugeRefines.StepGoesOn` are about stores and loads one by one.
- HugeRefines.StepRefines: the offset of a descriptor is loaded once in a comparison, stores take effect in the order in which they are written, and a new descriptor is written before it is in the list. What a lookup does after it has taken the wrong descriptor is not followed further than in `HugeTorn`.
- HugeRuns.ReuseSpares: the search of one hazard array is one step; `HazardScan.ContainsIff` says when a search that takes its time answers the same.
- CombiningRuns.StepKeeps: asks for an order of copying with results before numbers, which the source does not fix; `CombiningOrder.RightIff` says that it is needed.
- SlabStacks.LocalStack.RecoverPush: leaves out a slab further down the stack, on which the source does not return; `SlabStacks.RecoverPushCycles` is about that case.
- Recovery branches `UnsizedToSized` and `Detach`, and those the source marks as not written yet; crashes between the writes to a thread's own memory that make up one step of the model, such as the last link and the log of a push.
- Weak memory, cache flushes and fences, the hardware compare-and-swap path: accesses are sequentially consistent, and what is logged is persistent in order.
- The end of the address space for slabs: the bump pointer is unbounded.
- The running index of huge descriptors.
- A lookup for the size of a huge allocation, which reads what a lookup for a free reads.
- Mapping and unmapping memory, regions, signal handling, NUMA, shared-memory files, devices and the mutex of the arena, whose operations are single steps.
- Recovery of the combining protocol, the packing of its lock word, and the rest of memento.
- Statistics, logging, libc interposition, benchmarks and tests.

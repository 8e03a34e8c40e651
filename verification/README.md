# TF-RMM verification model

TF-RMM is the Realm Management Monitor of the Arm Confidential Compute Architecture. Its hard logic is a set of
commands that yield and interleave over shared tables, granule states and reference counts. This project models
four of its components in Dafny and proves what they keep in every interleaving. `dafny verify dfyconfig.toml`
checks everything.

## How it is built

Each component is a machine of indivisible actions over a value type `St`: a predicate `Enabled`, a function
`Step`, an invariant `Inv` that every action keeps, and theorems over whole runs (`Possible`, `After`). A section
of C code under a lock is one action, and so is every load and every compare-and-swap of a lock-free word.
Interrupts, which commands count as they find them, the answers of EL3, of the device assignment app and of the tracking metadata are free choices.
Commands whose code is a loop are methods of or on a class that holds the machine's state; they change it by
actions only, so the invariant holds at every yield.

**Stage 2 tables** (`Stage2*`, `Unmap*`, `Rtt*`, `AddrList`). A table is named by the path of indices that leads
to it, a slot by its table and index. Slots hold descriptors with RIPAS, permissions, output address and the drain
marker of the stateful operation that owns them. Tables hold reference counts, pages hold granule states, and `tlb`
is an adversarial cache: any walker may cache any valid leaf at any moment, for the CPU and for the SMMU.
`Stage2Inv.Inv` ties them together; its core is that every cached translation is justified by a valid leaf, by a
slot that is being broken, or by a marker whose invalidation is still due. `RttUnmap`, `RttMap`, `RttTables` and
`RttRipas` hold the loops of the commands on a class `Engine`; `RttEntries` and `Stage2Entries` have those that rewrite one entry.

**Granule delegation** (`Granules`, `GranuleProofs`, `GranuleTheorems`, `GranuleCursor`, `GranuleAnswers`, `GranuleSro`). Tracked state,
physical address space (PAS) and "holds data written in Realm use" per granule; EL3 moves any number of granules per
call. The request to EL3 and the publication of the granules it moved, which the operation owns, are one action.

**Realm and REC lifecycle** (`Lifecycle*`). The packed state-and-count word, REC references, and the two phases of
PSCI CPU_ON, for any number of processing elements.

**Device assignment** (`VdevRanges`, `VdevSlots`, `PdevComm`, `Device*`). Address range algorithms, the paged slot
table, the PDEV communication object with its history, and PDEVs, streams and VDEVs with their counters, the shared
app and the freshness sequence numbers.

## Properties that fail, and when they hold

- The assertion at runtime/rmi/granule_sro.c:1086 asks that every iteration of an undelegation moves the cursor.
  `NoStrictProgress` is a run on which it does not: a skipped Non-secure prefix followed by BUSY without
  progress. `StrictProgressIff` says that this is the only way. The result contract holds in all cases.
- The cursor that ends a range delegation or undelegation is meant to cover pages in the target state from the
  address the Host asked for (runtime/rmi/granule_sro.c:1043-1056, 1092-1105). The skipped prefix is looked up under
  one lock per granule and not held, so others may take its pages before the last call. `SkippedPageUsed` and
  `SkippedPageDelegated` are such runs from boot. `CursorIff` and `TruthfulIff` say exactly when the final cursor is
  truthful, per page and for the whole range; `TruthfulCursor` says it page by page over runs: only a page that
  somebody else itself used, claimed or delegated can be wrong. The methods of `GranuleSro.Monitor` let others run
  before every lookup and between scrubbed pages, and their contracts are stated per page in the same way.
- The comment at runtime/rmi/rtt_unmap.c:1315-1317 relies on the leaf table staying in place between the calls of
  an unmap. `StampedTablePinned` proves this when at least one slot was stamped; `EmptySweepNotPinned` says that the
  table can be destroyed exactly when it counts nothing, which an operation that stamped nothing does not prevent.
  `EmptySweepExample` and `EmptySweepYields` reach such a yield.
- A stream operation that both ends have carried out waits for STREAM_COMPLETE (runtime/rmi/pdev_comm.c:112-120).
  STREAM_DISCONNECT does not look at the operation field of its PDEVs (runtime/rmi/pdev.c:2069-2090), so a root port
  shared by two streams can lose the completion of one when the other is disconnected: `ForgottenExample`.
  `OnlyDisconnectForgets` says that nothing else does, and `CompletedOnce` counts every operation.

## Model

| member | source | states |
|---|---|---|
| Stage2Theorems.StepKeepsInv | runtime/rmi/rtt_unmap.c:445-1046 | every action of every command, walker and bystander keeps tree shape, counts, markers, ownership of pages and justification of cached translations |
| Stage2Theorems.InitHolds | runtime/rmi/realm.c:736-938 | a new Realm satisfies the invariant |
| Stage2Theorems.RunKeepsInv | runtime/rmi/rtt_unmap.c:1322-1371 | the invariant holds after any run, however commands and continuations interleave |
| Stage2Theorems.StaleSafety | runtime/rmi/rtt_unmap.c:914-968 | in every reachable state a cached translation is justified by a valid leaf or by an invalidation still due, and the page it reaches is DATA, MAPPED or PARTIAL |
| Stage2Theorems.ReachablePageInUse | runtime/rmi/rtt_unmap.c:852-886 | a page a walker can reach is no table and belongs to no operation other than an unmap that has not started to drain |
| Stage2Theorems.ReturnedPageUnreachable | runtime/rmi/rtt_unmap.c:676-749 | no cached translation reaches a page that a draining unmap still holds, so none reaches it when it becomes DELEGATED |
| Stage2Theorems.ClearedSlotUncached | runtime/rmi/rtt_unmap.c:980-998 | when an unmap clears a marker nothing is cached through the slot |
| Stage2Theorems.NeverTwoSizes | runtime/rmi/rtt.c:634-789 | no address is cached at block and at page size in any reachable state |
| Stage2Theorems.RefcountExact | runtime/rmi/rtt.c:265-458 | the reference count of every table is the number of its slots that hold a table, a granule or a marker, in every reachable state |
| Stage2Theorems.FullCountIsFull | runtime/rmi/rtt.c:649-761 | a count of 512, as fold tests it, means that every slot counts |
| Stage2Tree.ZeroCountIsBare | runtime/rmi/rtt.c:908-940 | a count of 0, as destroy tests it, means that every slot is a leaf that counts nothing |
| Stage2Theorems.OwnedSlotStays | runtime/rmi/rtt_unmap.c:482-496 | over any run in which operation h takes no step, a slot with the marker of h, its table and the operation stay as they are |
| Stage2Theorems.OpStays | runtime/rmi/rtt_unmap.c:1322-1371 | what an operation remembers between its calls is changed by nobody else |
| Stage2Map.MapSucceeds | runtime/rmi/rtt_map.c:444-536 | from stamp to finish, whatever runs in between, the slot gets the requested block with its old RIPAS and permissions over pages that are all zeroed DATA or MAPPED of one coherency type |
| Stage2Map.MapFails | runtime/rmi/rtt_map.c:320-366 | from stamp to the end of a rollback, whatever runs in between: the slot is what it was, its table counts one less, every page the operation gave up became DELEGATED in that very step, and it holds none |
| Stage2Map.FinishedPage | runtime/rmi/rtt_map.c:1594-1672 | an operation that can finish has every page of its block in its final state |
| Stage2Map.OwnedPrefix | runtime/rmi/rtt_map.c:444-536 | at every yield `pending_off` describes exactly what the operation owns and nobody else does |
| Stage2Map.MapProgress | runtime/rmi/rtt_map.c:320-402 | every action of a map operation decreases one measure, forward and in rollback |
| Stage2Meaning.RestructuringKeepsMeaning | runtime/rmi/rtt.c:192-480 | create and fold, at every one of their steps, keep what every address means: assigned or not, RIPAS, permissions, output page |
| Stage2Meaning.FoldUndoesCreate | runtime/rmi/rtt.c:544-802 | folding a table just created over an invalid entry restores every slot, count and granule state |
| Stage2Meaning.FoldUndoesCreateOverBlock | runtime/rmi/rtt.c:544-802 | the same over a valid block, with its break and invalidation |
| Stage2Meaning.DescendOffset | lib/s2tt/src/s2tt.c:476-555 | walking down from a block adds the offset of the address to its output address |
| Stage2Meaning.RunKeepsAlign | runtime/rmi/rtt_map.c:581-644 | in every run every block entry is aligned to its size and no larger than a block may be |
| AddrList.AddAllNames | lib/addr_list/src/addr_list.c:103-154 | a list built block by block names exactly the multiset of added blocks, whatever ranges they joined |
| AddrList.List.Add | lib/addr_list/src/addr_list.c:103-154 | adds an aligned block to the first range it continues or to a new one, and fails without change exactly when it is unaligned or nothing fits |
| AddrList.List.SortByAddr | lib/addr_list/src/addr_list.c:173-194 | sorts the ranges in place and names the same multiset of blocks |
| AddrList.ExpandPermuted | lib/addr_list/src/addr_list.c:173-194 | reordering ranges does not change the multiset of blocks they name |
| RttUnmap.SweepTable | runtime/rmi/rtt_unmap.c:445-665 | fails, without change, exactly when the first slot is past the range or a table or an obstacle, and otherwise reaches exactly as far as the request allows; then exactly the live slots it passed are stamped, no other slot changed, the operation owns exactly their pages, and a coarse unit is the only block |
| RttUnmap.SweepSlot | runtime/rmi/rtt_unmap.c:470-665 | the sweep stops at a slot exactly when the request stops there, with an error exactly at the first slot; it ends after a slot exactly when this is a coarse unit; it takes the live slots and passes over the others |
| UnmapSweep.FirstStopsIff | runtime/rmi/rtt_unmap.c:445-560 | nothing can be unmapped exactly when the first slot is past the range, is a table, or is live with another flavour, larger than a tracking region, untracked, or only a part of a coarse unit |
| UnmapSweep.ReachesOnce | runtime/rmi/rtt_unmap.c:445-665 | how far a sweep goes is determined by the tables and the request |
| UnmapSweep.JudgeMeans | runtime/rmi/rtt_unmap.c:470-620 | what the sweep decides at a slot, from the few things it remembers, is what the request says about all blocks freed before it |
| RttUnmap.TakeSlot | runtime/rmi/rtt_unmap.c:622-656 | the output address is queued and the slot stamped, or neither when the list is full |
| UnmapSweep.SweepLists | runtime/rmi/rtt_unmap.c:622-656 | the list of a sweep is exactly the multiset of freed output addresses |
| UnmapSweep.UnmapUndoesMapIff | runtime/rmi/rtt_unmap.c:323-377 | a mapped entry has the requested address and the old RIPAS and permissions, less execution for devices; unmapping it restores the entry exactly when its RIPAS was neither RAM nor DEV and no execute permission was dropped |
| UnmapSweep.UnmapForgets | runtime/rmi/rtt_unmap.c:323-377 | EMPTY stays EMPTY, everything else becomes DESTROYED and cannot become RAM again without the consent that the destroyed flag gives |
| UnmapSweep.UnitTaken | runtime/rmi/rtt_unmap.c:240-254 | a coarse unit is the first and only block of its sweep |
| UnmapDrain.FreedApart | runtime/rmi/rtt_unmap.c:764-827 | the blocks freed by a sweep do not overlap, so no page is returned twice |
| RttUnmap.TlbiPending | runtime/rmi/rtt_unmap.c:914-968 | the scan, restarted after any yield, ends only when no slot of the operation owes an invalidation, and yields exactly at the first interrupt it finds; it changes nothing but tlbi bits and what is cached |
| RttUnmap.InvalidateSlot | runtime/rmi/rtt_unmap.c:852-886 | one slot is invalidated and its tlbi bit cleared only after CPU and SMMU are done; it yields exactly when it finds an interrupt pending |
| RttUnmap.FinishInvalidation | runtime/rmi/rtt_unmap.c:833-886 | waits for the outstanding SMMU commands, and at a yield leaves everything in place to resume |
| UnmapInvalidate.ScanComplete | runtime/rmi/rtt_unmap.c:914-968 | after a full scan the drain may start |
| RttUnmap.DrainFine | runtime/rmi/rtt_unmap.c:712-749 | returns the rest of one block page by page, and at a yield the cursor splits the block exactly into returned and owned pages |
| RttUnmap.DrainCoarse | runtime/rmi/rtt_unmap.c:676-700 | scrubs a coarse unit page by page and returns it as a whole |
| RttUnmap.DrainPending | runtime/rmi/rtt_unmap.c:764-827 | returns exactly the pages it gives up to DELEGATED; it yields exactly at the first interrupt it finds, and otherwise nothing is left |
| RttUnmap.ClearMarks | runtime/rmi/rtt_unmap.c:980-998 | every marker of the operation is removed and its table loses one reference for each |
| RttUnmap.DrainAndClear | runtime/rmi/rtt_unmap.c:1029-1046 | from any point, when it does not yield: all owned pages DELEGATED, all stamped slots plain, references dropped, nothing else changed |
| RttUnmap.RunUnmap | runtime/rmi/rtt_unmap.c:1173-1301 | fails, without change, exactly when the request stops at its first slot; otherwise a completed unmap clears exactly the live slots up to the unique end that the request reaches, returns exactly their pages, and lists exactly their addresses, in one run when SINGLE; it is incomplete exactly when an interrupt was found, and can then be resumed |
| RttUnmap.ContinueUnmap | runtime/rmi/rtt_unmap.c:1322-1371 | a continuation ends the operation completely, or is interrupted and leaves it resumable with the same stamped slots |
| RttUnmap.UnmapCtx.StaysResumable | runtime/rmi/rtt_unmap.c:1322-1371 | whatever others do between two calls, the saved cursor still describes the operation |
| UnmapClear.SweepReleased | runtime/rmi/rtt_unmap.c:1173-1301 | a sweep followed by its deferred work, with nobody else acting in between, unmaps exactly the range |
| Stage2Unmap.UnmapSucceeds | runtime/rmi/rtt_unmap.c:1173-1371 | from the first action of an unmap to the last, whatever runs in between: a slot it sweeps is unmarked later, in a step that leaves there the unmapped form of the entry the sweep found and drops one reference; a page it takes comes from a slot it sweeps and becomes DELEGATED in the very step that gives it up; in the end it holds no page and no marker |
| Stage2Unmap.UnmapReleases | runtime/rmi/rtt_unmap.c:1029-1046 | the same from any point of any run from a new Realm at which an unmap is in flight, for all it has stamped and holds by then |
| Stage2Unmap.RunStamped | runtime/rmi/rtt_unmap.c:620-650 | in every run a slot that an unmap has stamped holds its marker over the unmapped form of the entry found there |
| UnmapClear.StampedTablePinned | runtime/rmi/rtt_unmap.c:648-650 | the table of an operation that stamped a slot exists and can be neither folded nor destroyed |
| UnmapClear.EmptySweepNotPinned | runtime/rmi/rtt_unmap.c:1315-1371 | the table of an unfinished operation can be destroyed exactly when its count is zero, and then the operation stamped nothing and is left without a table |
| UnmapClear.EmptySweepExample | runtime/rmi/rtt_unmap.c:1315-1371 | a run from a new Realm that reaches an unfinished unmap whose table is gone |
| RttUnmap.EmptySweepYields | runtime/rmi/rtt_unmap.c:914-962 | interrupted before the first entry, a command that stamped nothing yields in the state in which it began, to be continued |
| RttMap.MapBlock | runtime/rmi/rtt_map.c:581-644 | works on a slot exactly when it is unassigned, of a RIPAS that suits the command and owned by nobody, and otherwise changes nothing; installs the block exactly when every page can be had: DELEGATED, of one type, its tracking settled and its unit whole; when it cannot, slot, counts and granules are exactly what they were; it yields, resumable, exactly at an interrupt |
| RttMap.DrainMap | runtime/rmi/rtt_map.c:444-536 | a call completes the block only if all the rest can be had, abandons it only if not, and yields exactly at an interrupt, with some of it held |
| RttMap.TakeNext | runtime/rmi/rtt_map.c:455-530 | turns to rollback exactly when the next page is not DELEGATED, is of another type, or its unit is not whole or not settled; otherwise takes exactly that page or unit |
| RttMap.ZeroCoarse | runtime/rmi/rtt_map.c:378-402 | zeroes at least one page per call, makes the unit DATA only when all of it is zero, and stops before exactly at an interrupt |
| RttMap.Rollback | runtime/rmi/rtt_map.c:320-366 | returns the owned pages last first, yielding only with pages left and exactly at an interrupt, and restores the slot at the end |
| RttMap.StampAbandoned | runtime/rmi/rtt_map.c:320-366 | stamp followed by a full rollback is the identity on slots, counts and granules |
| RttMap.StampCompleted | runtime/rmi/rtt_map.c:444-536 | stamp followed by completion maps exactly the requested block |
| RttMap.StaysResumable | runtime/rmi/rtt_map.c:1064-1153 | whatever others do between two calls, a map operation can be continued |
| RttTables.Uniform | runtime/rmi/rtt.c:649-761 | the scan of a table answers whether it folds to the given entry |
| RttTables.AnyMarked | runtime/rmi/rtt.c:634-648 | the scan answers whether some slot carries a drain marker |
| RttTables.FoldTarget | runtime/rmi/rtt.c:649-761 | finds an entry the table folds to exactly when there is one |
| RttTables.FoldsToCount | runtime/rmi/rtt.c:649-761 | a table that folds to a granule counts 512, one that folds to anything else 0 |
| RttTables.Fold | runtime/rmi/rtt.c:544-802 | succeeds exactly when the table folds, replaces it by the folded entry and returns its granule; otherwise changes nothing |
| RttTables.Destroy | runtime/rmi/rtt.c:826-978 | succeeds exactly when no slot counts; then the entry is unassigned DESTROYED with default permissions, or unassigned NS, the table granule is DELEGATED, and nothing else changed; otherwise nothing changed |
| RttTables.ZeroCountIff | runtime/rmi/rtt.c:908-940 | the count of a table is 0 exactly when all its slots are leaves that count nothing |
| RttTables.Create | runtime/rmi/rtt.c:192-480 | refuses a marked slot or a granule that is not DELEGATED without change; otherwise plants a table that says the same as the entry |
| RttRipas.UpdateExact | runtime/rmi/rtt.c:1122-1204 | an accepted update sets exactly the requested RIPAS and changes neither output address, permissions nor marker |
| RttRipas.UpdateIff | runtime/rmi/rtt.c:1122-1204 | an entry is accepted exactly when it has a RIPAS and no marker and, for RAM, is no device and was not destroyed or the Realm has agreed; one that has the RIPAS already stays as it is |
| RttRipas.SetRange | runtime/rmi/rtt.c:1389-1481 | stops exactly at the first slot that reaches past the range, is a table or refuses, and fails exactly when that is at once; every page up to the returned top has the requested RIPAS, no page beyond it and no output address changed, and nothing DESTROYED became RAM unless the Realm agreed |
| RttRipas.SetRipasCommand | runtime/rmi/rtt.c:1483-1597 | the same for the whole command; an unaligned base is accepted exactly when its entry has the RIPAS already, and then nothing changes |
| RttRipas.SlotSpeaksForPages | runtime/rmi/rtt.c:1389-1481 | the RIPAS of a slot is the RIPAS of every page below it, and their output pages follow from that of the slot |
| RttEntries.MapUnprot | runtime/rmi/rtt_map.c:1252-1298 | succeeds exactly when the entry is unassigned NS and owned by nobody or maps the block already; then it does, and nothing else changed; otherwise nothing changed |
| RttEntries.MapInitial | runtime/rmi/rtt_map.c:905-1036 | maps initial data exactly when the entry is unassigned and owned by nobody, the granule DELEGATED and the source readable, and tells the four failures apart; entry, count and granule are then exactly the new ones, and a failure changes nothing |
| Stage2Entries.SetApMeans | runtime/rmi/rtt.c:1599-1779 | setting permissions changes those of exactly the addresses below the entry and nothing else about them; devices never become executable |
| Stage2Entries.DevValidateMeans | runtime/rmi/rtt.c:2538-2661 | validating device memory turns exactly the addresses below the entry from EMPTY to DEV with the given attributes |
| Stage2Entries.UnprotMapMeans | runtime/rmi/rtt_map.c:1252-1298 | an unprotected mapping maps exactly the addresses below the entry, one after the other, with the given attributes |
| Stage2Entries.MapInitMeans | runtime/rmi/rtt_map.c:905-1036 | mapping initial data makes exactly one address RAM, with its permissions, over a page that becomes DATA and keeps what was copied there |
| GranuleProofs.StepKeepsInv | runtime/rmi/granule_sro.c:503-830 | every action keeps agreement of state and PAS, exclusive ownership of PARTIAL ranges and cleanliness |
| GranuleTheorems.StateMatchesPas | runtime/rmi/granule_sro.c:171-344 | in every reachable state NS means NS PAS, DELEGATED means Realm PAS, and a PARTIAL granule has one owner whose offsets tell its PAS |
| GranuleTheorems.ScrubbedBeforeExposed | runtime/rmi/granule_sro.c:711-830 | no conventional granule outside Realm PAS holds data written in Realm use, in any reachable state |
| GranuleTheorems.RollbackNeedsNoScrub | runtime/rmi/granule_sro.c:613-649 | what a delegation owns was never written in Realm use |
| GranuleTheorems.DelegateReply | runtime/rmi/granule_sro.c:171-344 | the first request: SUCCESS moved everything below x1, an error changed nothing, INCOMPLETE exactly when an operation is left |
| GranuleTheorems.ContinueReply | runtime/rmi/granule_sro.c:503-603 | what holds after a continuation: SUCCESS with everything owned below x1 DELEGATED, an error with the range back in NS state and PAS |
| GranuleTheorems.RollbackReply | runtime/rmi/granule_sro.c:613-649 | a rollback never succeeds, and ends with the range in NS state and PAS |
| GranuleTheorems.UndelegateReply | runtime/rmi/granule_sro.c:748-830 | an undelegation: SUCCESS with everything below x1 NS, an error with the range DELEGATED in Realm PAS |
| GranuleAnswers.StartAnswer | runtime/rmi/granule_sro.c:62-125 | the first request fails exactly when EL3 moved nothing and holds nothing, is to be rolled back exactly when EL3 refused with part of a unit moved, and otherwise succeeds or goes on |
| GranuleAnswers.ContinueAnswer | runtime/rmi/granule_sro.c:503-603 | a continuation turns to rollback exactly when EL3 refused with part of a unit moved, fails exactly when EL3 refused and the cursor has not moved, and succeeds exactly when EL3 holds nothing and all has moved or, tracked finely, the cursor has |
| GranuleAnswers.RollbackAnswer | runtime/rmi/granule_sro.c:613-649 | a rollback ends, with the error, exactly when everything was moved back and EL3 holds nothing |
| GranuleAnswers.UndelegateAnswer | runtime/rmi/granule_sro.c:748-830 | an undelegation fails exactly when EL3 is busy on the first call with the cursor unmoved, and succeeds exactly when EL3 holds nothing and the cursor has moved, past the whole unit if there is one |
| GranuleAnswers.WillingEndsWell | runtime/rmi/granule_sro.c:503-649 | in every run, a delegation that EL3 never refuses is never rolled back, and if it ends it ends with SUCCESS |
| GranuleCursor.CursorIff | runtime/rmi/granule_sro.c:538-602 | the SUCCESS that ends a delegation or undelegation is truthful about a page below x1 exactly when the page, if passed by an earlier call or skipped, still was in the target state |
| GranuleCursor.TruthfulIff | runtime/rmi/granule_sro.c:774-865 | all of the range from the address asked for up to x1 is in the target state exactly when every page passed before still was |
| GranuleCursor.TruthfulCursor | runtime/rmi/granule_sro.c:503-603 | over any run between the first and the last call, a page below x1 is in the target state after SUCCESS unless that very page was used, claimed or delegated by somebody else |
| GranuleCursor.Survives | runtime/rmi/granule_sro.c:171-344 | over any run a DELEGATED page stays so unless it is put to use or claimed, an NS page unless it is delegated |
| GranuleCursor.SkippedPageUsed | runtime/rmi/granule_sro.c:1106-1165 | a run from boot that ends a delegation with SUCCESS past a page that is in use |
| GranuleCursor.SkippedPageDelegated | runtime/rmi/granule_sro.c:1057-1089 | a run from boot that ends an undelegation with SUCCESS past a page that is DELEGATED |
| GranuleCursor.RefusalIsInvisible | runtime/rmi/granule_sro.c:748-830 | an undelegation that EL3 refuses without progress, with anything in between, leaves the state that the same run without it leaves, but for scrubbed contents |
| GranuleTheorems.ContinuationProgress | runtime/rmi/granule_sro.c:538-830 | every continuation in which EL3 moves something or a page is scrubbed decreases a lexicographic measure |
| GranuleTheorems.StrictProgressIff | runtime/rmi/granule_sro.c:1057-1089 | a SUCCESS moves the cursor past the skipped prefix unless EL3 was BUSY behind a prefix, and only then not |
| GranuleCursor.NoStrictProgress | runtime/rmi/granule_sro.c:1057-1089 | a run from boot in which the cursor stays at the end of the skipped prefix |
| GranuleSro.WithinRegion | runtime/rmi/granule_sro.c:986-1047 | everything below the region top lies in the tracking region of the address |
| GranuleSro.Monitor.Find | runtime/rmi/granule_sro.c:986-1047 | granules are unusable exactly when their region is one unit that is not aligned, does not fit or is in neither state, or when the granule itself is in neither state; what is found is all in the state it is reported in |
| GranuleSro.Monitor.DelegateStart | runtime/rmi/granule_sro.c:1106-1165 | with others running before every lookup: SUCCESS returns addr < x1 <= region top with every page of [addr, x1) that nobody else took DELEGATED; a request is answered as EL3 decides; without one, the call stops before the region top only at granules that are unusable or that EL3 declines; INCOMPLETE exactly when an operation is kept, whose prefix is as truthful |
| GranuleSro.Monitor.DelegateContinue | runtime/rmi/granule_sro.c:503-649 | fails, succeeds, goes on or turns to rollback exactly as the answer of EL3 calls for; SUCCESS is truthful about a page exactly when it still was as the operation had left it; an error leaves the range NS; an operation that goes on keeps this for every page, both ways |
| GranuleSro.Monitor.SanitizeRun | runtime/rmi/granule_sro.c:711-729 | with others running between pages: scrubs in order, at least one page, changes nothing else of the operation, stops exactly at an interrupt, and otherwise all pages are clean or need no scrubbing |
| GranuleSro.Monitor.UndelegateRun | runtime/rmi/granule_sro.c:840-865 | with others running while pages are scrubbed: EL3 is asked exactly when no interrupt is found, and decides the reply; SUCCESS, INCOMPLETE and errors are truthful about every page that nobody else took |
| GranuleSro.Monitor.UndelegateUnit | runtime/rmi/granule_sro.c:840-984 | one unit or run of granules, claimed and worked on for one call: an error exactly tells that EL3 was busy, and then nothing shows |
| GranuleSro.Monitor.UndelegateStart | runtime/rmi/granule_sro.c:1057-1089 | with others running before every lookup and while pages are scrubbed: SUCCESS returns addr < x1 <= region top with every page of [addr, x1) that nobody else took NS; the call stops short only at unusable granules or when EL3 is busy; after an error everything is as if the command had not been called, but for scrubbed contents |
| LifecycleProofs.StepKeepsInv | runtime/include/realm.h:165-269 | every load, compare-and-swap and locked section keeps the count, the single runner, the requests and what lock holders have seen |
| LifecycleTheorems.WordIsExact | runtime/include/realm.h:170-269 | in every run the word packs the state with the exact number of processing elements between increment and decrement: no update is lost |
| LifecycleTheorems.StepMovesState | runtime/include/realm.h:193-226 | a step keeps the state or moves it NEW to ACTIVE, ACTIVE to SYSTEM_OFF, or to ZOMBIE with nobody inside |
| LifecycleTheorems.StateMonotone | runtime/rmi/realm.c:40-68 | over any run the state of a Realm never goes back |
| LifecycleTheorems.ZombieIsFinal | runtime/rmi/realm.c:977-1011 | once ZOMBIE, over any run nobody is or gets inside |
| LifecycleTheorems.TerminateIff | runtime/rmi/realm.c:977-1011 | terminate makes the Realm a ZOMBIE exactly when nobody is inside |
| LifecycleRaces.RetryMeansProgress | runtime/include/realm.h:193-254 | a compare-and-swap of the word that fails, with anything in between, was overtaken by a change of the same word since the load |
| LifecycleRaces.WordChangers | runtime/include/realm.h:193-269 | only a compare-and-swap that goes through or a decrement changes the word |
| LifecycleRaces.ActivateTakesEffect | runtime/include/realm.h:193-226 | the compare-and-swap of an activation that is not tried again has put the Realm in ACTIVE, kept its count and released the lock; one that is tried again changed nothing |
| LifecycleRaces.OffTakesEffect | runtime/include/realm.h:193-226 | the same for SYSTEM_OFF |
| LifecycleRaces.EnterThenLeave | runtime/rmi/run.c:340-422 | from every state in which a REC may be entered, entering and leaving is possible and is the identity |
| LifecycleTrips.ActivateRuns | runtime/rmi/realm.c:40-68 | activating a NEW Realm with nobody in the way makes it ACTIVE and changes nothing else |
| LifecycleTrips.TerminateRuns | runtime/rmi/realm.c:977-1011 | terminating with nobody in the way makes a ZOMBIE exactly when nobody is inside, and otherwise is the identity |
| LifecycleTrips.OffRuns | runtime/rsi/psci.c:279-311 | SYSTEM_OFF with nobody in the way puts the Realm in SYSTEM_OFF, keeps its count and lets the REC exit |
| LifecycleTheorems.EntersOnlyActive | runtime/include/realm.h:234-254 | a processing element gets inside only while the Realm is ACTIVE, and it still is afterwards |
| LifecycleTheorems.NeverStuck | runtime/include/realm.h:257-269 | a processing element in the middle of a command can take its next step; the count it decrements is positive |
| LifecycleTheorems.SingleRunner | runtime/rmi/run.c:340-382 | in every run a REC is entered by at most one processing element |
| LifecycleTheorems.RunnerIsFit | runtime/rmi/run.c:409-422 | a REC that runs is on, waits for nothing, has had every request answered, and its Realm is ACTIVE or SYSTEM_OFF |
| LifecycleTheorems.SwitchedOnWhenAsked | runtime/rsi/psci.c:402-523 | whatever step switches a REC on, it does so for a waiting REC of its own Realm that asked for its MPIDR, while neither is entered, even if addresses were reused between the locked sections |
| LifecycleTheorems.CompletionIff | runtime/rsi/psci.c:402-523 | a completion switches the target on exactly when the caller waits for it, it is off and not entered, and the Host does not deny; the caller is answered exactly when it waits and the request fits or is denied, and is told which of the three happened; no other REC is touched |
| LifecycleTheorems.DenialSwitchesNothing | runtime/rmi/rec.c:802-863 | a denial without the target makes no REC runnable and tells the caller that it was denied |
| LifecycleRaces.HostDecides | runtime/rmi/rec.c:758-913 | whatever others do between the locked sections of a completion: if the caller then still waits for the REC it named and that is off, a granted request switches it on and a denied one does not, and the caller is told so |
| LifecycleRaces.CpuOnAsks | runtime/rsi/psci.c:120-187 | CPU_ON leaves the caller waiting for the REC that its Realm lists under the MPIDR |
| LifecycleTrips.CpuOnRuns | runtime/rsi/psci.c:120-187 | for every running REC that asks for one that is off: it can leave, the Host can complete, and then the target is on exactly if the request was not denied and the caller has its answer |
| LifecycleTrips.OffUntilAsked | runtime/rsi/psci.c:66-93 | CPU_OFF turns the running REC off, changes nothing else, and nobody can enter it then |
| LifecycleTrips.StaysOff | runtime/rmi/run.c:340-422 | in every run a REC that is off stays off, and nobody enters it, until a request for it is granted or it is destroyed |
| LifecycleTrips.MpidrUnique | runtime/rmi/rec.c:356-380 | in every run the MPIDR of a REC leads to it, and no two RECs of a Realm have the same |
| LifecycleTrips.CreatedIsFound | runtime/rmi/rec.c:356-380 | a REC that is created is the one its Realm lists under its MPIDR; all other RECs and listings stay |
| LifecycleTrips.RecComesAndGoes | runtime/rmi/rec.c:644-746 | creating a REC, destroying it and giving up its MPIDR is the identity |
| LifecycleTheorems.AnsweredOnce | runtime/rmi/rec.c:758-913 | a completion answers only a pending request and ends the wait |
| LifecycleTheorems.DenialAnswers | runtime/rmi/rec.c:802-863 | a denied request of a waiting REC is answered, also when the target is gone or is the caller itself |
| LifecycleTheorems.RequestsBalance | runtime/rsi/psci.c:120-187 | in every run each request has been answered once or is the one that is pending |
| VdevRanges.RangesValid | runtime/rmi/vdev.c:73-88 | true exactly when all ranges are non-empty and pairwise in order |
| VdevRanges.RangesOverlap | runtime/rmi/vdev.c:90-117 | on valid ranges, true exactly when some address lies in both lists |
| VdevRanges.WithinStream | runtime/rmi/vdev.c:361-406 | for ranges in any order, overlapping or malformed, true exactly when every address of the VDEV range lies in some stream range; as many passes as ranges suffice |
| VdevRanges.RangesInStreams | runtime/rmi/vdev.c:408-441 | true exactly when every range is covered by one taken stream |
| VdevSlots.SlotTable.FindFree | runtime/rmi/vdev.c:224-247 | the paged search finds the first free slot of the flat table, or none exactly when all are active |
| VdevSlots.SlotTable.Overlap | runtime/rmi/vdev.c:168-222 | the paged check answers whether some active slot shares an address with the ranges |
| VdevSlots.SlotTable.Write | runtime/rmi/vdev.c:249-280 | writing a paged slot updates exactly that entry of the flat table |
| VdevSlots.SlotTable.Reserve | runtime/rmi/vdev.c:534-628 | takes a free slot exactly when there is room and no clash, and keeps active slots disjoint and the count exact |
| VdevSlots.SlotTable.Release | runtime/rmi/vdev.c:1251-1281 | frees the slot and keeps the rest |
| PdevComm.StreamOpsConserved | runtime/rmi/pdev_comm.c:31-146 | over any history of a PDEV, each stream operation begun was ended by STREAM_COMPLETE, was lost, or is the one still owed |
| PdevComm.ExactlyOnceIff | runtime/rmi/pdev_comm.c:31-146 | each is ended exactly once or owed if and only if no event came that makes a PDEV forget the one it owes, such as beginning another |
| PdevComm.OverwrittenExample | runtime/rmi/pdev_comm.c:31-40 | a history in which two operations begin and only one can be ended |
| PdevComm.StopsUnwound | runtime/rmi/pdev_comm.c:52-109 | a PDEV becomes STOPPED exactly when an exchange for a STOP ends with the app unwound |
| PdevComm.StoppedWasAsked | runtime/rmi/pdev_comm.c:52-109 | over any history, a STOPPED PDEV was asked to stop before an exchange that ended so |
| PdevComm.ReadyHasKey | runtime/rmi/pdev_comm.c:42-80 | over any history, a PDEV other than a root port is READY only after its key was set |
| PdevComm.PdevObject.Begin | runtime/rmi/pdev_comm.c:31-40 | the PDEV owes exactly the operation begun, and loses one exactly when it owed one before |
| PdevComm.PdevObject.BeginKey | runtime/rmi/pdev_comm.c:42-50 | the exchange that follows makes the PDEV READY if it succeeds |
| PdevComm.PdevObject.Complete | runtime/rmi/pdev_comm.c:52-109 | the channel stays busy exactly while the exchange is blocked or an unwind is owed; the PDEV is STOPPED exactly after a STOP that ended unwound; when it is READY; a stream operation that ends waits for STREAM_COMPLETE |
| PdevComm.PdevObject.Abort | runtime/rmi/pdev_comm.c:121-135 | leaves ERROR and an idle channel; a stream operation in progress or over stays owed and can be ended at once |
| PdevComm.PdevObject.StreamDone | runtime/rmi/pdev_comm.c:138-146 | afterwards nothing is owed: every operation begun so far was ended or lost |
| DeviceStreams.CommandIsEvent | runtime/rmi/pdev.c:1081-1172 | every command acts on the communication of a PDEV as one of these handlers, within what it asserts, or not at all |
| DeviceStreams.FollowsStory | runtime/rmi/pdev.c:1081-1172 | in every run a PDEV is what the events since its creation make it |
| DeviceStreams.ReadyAndStopped | runtime/rmi/pdev.c:1499-1553 | in every run a READY endpoint had its key set and a STOPPED PDEV was asked to stop and unwound, since it was created |
| DeviceStreams.OnlyDisconnectForgets | runtime/rmi/pdev.c:2069-2090 | in every run a command makes a PDEV forget a stream operation it owes exactly when it is a STREAM_DISCONNECT whose root port has an uncollected completion |
| DeviceStreams.CompletedOnce | runtime/rmi/pdev.c:2211-2275 | in every run, of the stream operations begun on a PDEV since its creation, each was ended by STREAM_COMPLETE, was forgotten in that way, or is the one it owes |
| DeviceStreams.BringUp | runtime/rmi/pdev_comm.c:60-80 | from any state a new device of any kind can be set up, and nothing else changes |
| DeviceStreams.ForgottenExample | runtime/rmi/pdev.c:2069-2090 | a run from boot after which a stream that both ends have connected can be neither completed nor disconnected |
| DeviceProofs.StepKeepsInv | runtime/rmi/pdev.c:1081-1172 | every device command keeps counters, slots, app ownership, stop safety and sequence numbers |
| DeviceTheorems.CountersExact | runtime/rmi/pdev.c:1952-1957 | in every run the stream counter counts the taken streams that name the PDEV, and num_vdevs its VDEVs and its active slots |
| DeviceTheorems.StoppedIsQuiet | runtime/rmi/pdev.c:1499-1553 | a stopped PDEV has no stream, no VDEV, no active slot and no yielded app; one that stops has all but the last |
| DeviceTheorems.NothingJoinsWhileStopping | runtime/rmi/vdev.c:534-560 | no VDEV is created on a PDEV and no stream command touches it while a STOP is pending |
| DeviceTheorems.NothingDangles | runtime/rmi/pdev.c:1624-1717 | in every run what a VDEV, a taken stream or a yielded app refers to exists |
| DeviceTheorems.DestroyIsSound | runtime/rmi/vdev.c:1251-1281 | the slot of every VDEV is active and the count of its PDEV positive |
| DeviceTheorems.ReleaseIsSound | runtime/rmi/pdev.c:2105-2113 | a taken stream is counted at both ends, so releasing it never underflows |
| DeviceTheorems.CompletionIsSound | runtime/rmi/vdev.c:949-1000 | the operation a VDEV communicates for suits its state, as the completion asserts |
| DeviceTheorems.VdevRangesDisjoint | runtime/rmi/vdev.c:206-222 | in every run no address belongs to two VDEVs of a PDEV |
| DeviceTheorems.FreeSlotIff | runtime/rmi/vdev.c:534-550 | in every run there is a free slot exactly when num_vdevs is below the maximum |
| DeviceTheorems.FreshnessGrows | runtime/rmi/vdev.c:964-998 | the sequence numbers of a live VDEV move exactly when a lock, measurement or report completes: its own forward, a lock resets the other two, nothing else moves |
| DeviceTheorems.NoOverflow | runtime/rmi/vdev.c:925-939 | the check before communicating keeps every sequence number within 64 bits in every run |
| DeviceTheorems.LockIsNext | runtime/rmi/vdev.c:964-974 | a lock takes the next number of the Realm, ahead of every VDEV there |
| DeviceTheorems.LocksDiffer | runtime/include/realm.h:139-144 | no two locks in a run of a Realm give the same number, across any destruction and creation of VDEVs |
| DeviceTheorems.QuotedIsHeld | runtime/rmi/rtt.c:2590-2610 | if the numbers a Realm quotes match those of a locked or started VDEV, it is the VDEV they were read from, and ever since it was locked or started with these numbers |
| DeviceVdevs.QuotedIsCurrent | runtime/rmi/rtt.c:2590-2610 | and then no command since has destroyed, unlocked, locked, measured, reported or failed that VDEV |
| DeviceVdevs.StateMoves | runtime/rmi/vdev.c:949-1004 | in every step a VDEV moves as its state machine says: an exchange that succeeds completes the operation it was for, one that fails with the app unwound and an abort leave it in error, and nothing else moves it |
| DeviceVdevs.VdevTrip | runtime/rmi/vdev.c:949-1004 | from UNLOCKED a VDEV can be locked, reported, started, measured and unlocked again; only its numbers have moved, to the next lock of the Realm |
| DeviceVdevs.StreamEndDecides | runtime/rmi/pdev.c:2211-2275 | STREAM_COMPLETE keeps a stream exactly when both ends carried out a connection, gave up a disconnection without an error, or refreshed; otherwise it releases it at both ends |
| DeviceTrips.AppMoves | runtime/rmi/vdev.c:925-1004 | in every step the app of a PDEV is with whoever left an operation open in it: nobody runs an exchange in the middle of the operation of another, and one that is dropped leaves the app free |
| DeviceTrips.VdevComesAndGoes | runtime/rmi/vdev.c:534-628 | creating a VDEV, setting it up and destroying it is the identity, on slots, counts, app and numbers |
| DeviceTrips.PdevComesAndGoes | runtime/rmi/pdev.c:1499-1717 | a device of any kind that was set up can be stopped and destroyed, which leaves everything as it was |

## Left out

- Auxiliary tables, planes and per-plane permission cookies; the model has the primary tree only.
- Overlay permission encodings, MEC, cache maintenance, buffer mapping and the bit layout of entries and return codes.
- RTT_SET_RIPAS with auxiliary references, which stops with an error after part of the range.
- The split of a map or unmap request into one leaf table at a time, and the walk that finds the table.
- RTT_SET_S2AP and RTT_DEV_VALIDATE as commands over a range; their effect on one entry is an action of the machine.
- REC contents, register state, exits and every PSCI call other than CPU_ON, CPU_OFF and SYSTEM_OFF.
- RMI_REALM_DESTROY and reuse of Realm identifiers.
- More than 2^62 - 1 processing elements; fewer is a precondition of every run, which the source asserts.
- VDEV DMA state, attestation, SPDM and TDISP messages, the device assignment app and the SMMU driver beyond their outcomes.
- Validation of inputs that only rejects malformed addresses, and the order in which error codes are preferred.
- SRO handle allocation, donation and reclaim of memory; an operation is kept exactly when a reply is INCOMPLETE.
- Lifecycle commands and the handlers of pdev.c and vdev.c other than the range, slot and communication code are actions on values, not methods on objects; locking order and aliasing of mapped pages are not captured.
- LifecycleTheorems.TerminateIff: speaks of the final compare-and-swap; the error code for an occupied Realm is not modelled.
- Liveness: progress is stated as decreasing measures, not as termination under a scheduler.

# Vault synchronization, verified

A Dafny model of a password-vault application's synchronization core, with proofs. It covers four
parts of the system.

- **The three-way vault merge.** A KDBX vault is a rooted tree of groups and entries with ordered
  children, tombstones, named fields, attachments and history. `MergeBuilder` merges LOCAL and REMOTE
  over BASE into a whole tree or a set of conflicts. The main theorems are an exact account of what is
  live afterwards, although remotely deleted groups are removed recursively from a copy of LOCAL that
  moves and additions have already changed; and, for every input, an exact account of which outcome
  comes out and of which conflicts are reported (`Vault`, `Validator`, `ThreeWay`, `TreeOps`,
  `TreeLemmas`, `MergeSpec`, `MergeLemmas` for the merged tree; `Divergence` for what conflicts mean;
  `Settling`, `Removal`, `ConflictLemmas`, `Forest`, `MergeFit` and `Stages` for runs with and without
  them; `Merge`, `VaultSync`, `BrokenInvariant`). What equality and merge mean value by value, and which
  edits must and which cannot conflict, is in `MergeLaws`.
- **The synchronization protocol.** Any number of devices, each with any number of running calls, share
  one compare-and-swap object (`If-Match` and `If-None-Match: *`, sections 13.1.1 and 13.1.2 of RFC 9110).
  Calls interleave at every await; writes may be lost, late, repeated or answered misleadingly; the user
  may save, and a device may crash, between any two steps. The protocol is proved for any notion of equal
  vaults and of a permitted merge, and then instantiated with the real ones (`SyncProtocol`, `SyncInvariant`, `SyncSteps`,
  `SyncLaws`, `DeviceLaws`, `ChoiceLaws`, `RejectedWrite`, `ConflictAuthority`); what one call does when nothing
  interferes is in `QuietLaws`. One commit with crashes inside it and inside its
  recoveries is followed step by step (`CommitRecovery`, `SyncEngine`, `CrashLaws`), is shown to be the
  same computation as the protocol's steps (`EngineRefinement`), and rests on a file-system model of the
  store (`BaseStore`, with the exact conditions under which it is believed in `StoreLaws`).
- **The document in memory.** Moves, trash, restore, permanent deletion, bulk operations, tracked edits,
  the history limit and the dirty counter (`DocumentSpec`, `DocumentLaws`, `BinLaws`, `RestoreLaws`,
  `HistoryPolicy`, `KdbxDocument`). For every call, when it is refused and how the document differs
  after it is told without its specification function (`Placement`, `EditLaws`).
- **Two self-contained pieces.** The gateway's object store with its table of weak lock references
  (`Gateway`) and the PNG check for custom icons (`Png`).

Code that works by changing state is modelled by classes and methods with loops, each proved against a
specification function or predicate; the laws are lemmas about those specifications. Digests are
injective, random identifiers are fresh parameters, clocks are parameters, and ciphertext is a document
under a key with a salt, or bytes that do not open.

## What the proofs show about the code

- Three 4.1 vaults that no shortcut decides are merged if and only if no conflict listed in `Divergence`
  is justified, no entry is stranded, and the result fits; conflicts come out if and only if one is
  justified and no entry goes with a deleted group, and they are then exactly the justified ones
  (`VaultSync.MergeDivergent`). In all other cases the code breaks its own invariant instead of
  reporting a conflict, and valid inputs that do not diverge at all reach that:
  - An entry that REMOTE moves out of a group it also deletes is stranded, because groups are removed
    before entries are merged (`BrokenInvariant.StrandedBreaks`). Nothing is lost silently.
  - An identity can be live twice, or live and a tombstone of another input; neither is checked before
    the end (`BrokenInvariant.TwiceLiveBreaks`).
  - A group that REMOTE adds with an icon that LOCAL deletes keeps an icon that is not there
    (`BrokenInvariant.MissingIconBreaks`). The same holds for an object that LOCAL adds with an icon
    that REMOTE deletes, if the library leaves references standing when it removes an icon.
  - If copying a group record copies its child lists, every added REMOTE group that lists anything
    ends up listing it twice, so the whole merge fails (`MergeFit.CarriedListsFail`).
- The final walk over the hierarchy never reports anything: the passes keep the parents free of cycles,
  in runs with conflicts too (`Merge.MergeBuilder.ValidateFinalHierarchy`).
- The comment at `crates/sync-engine/src/engine.rs:315-317` says that a rejected compare-and-swap proves the
  candidate was not committed. With a provider that answers after a read-back
  (`crates/sync-provider-s3/src/lib.rs:205-216`) it does not: `RejectedWrite.RejectedAfterCommit` gives a
  run, and by `RejectedWrite.CommittedIffDelivered` no answer says more than whether the request was
  delivered. Every protocol theorem holds without that claim.
- Crash atomicity with a write still in flight holds if and only if the write lands while the journal
  is still there, or the remote already held the candidate, or LOCAL and BASE already were as the
  candidate wants them (`CrashLaws.LateDelivery`, with the failing runs in
  `CrashLaws.LateDeliverySplits`); `SyncLaws.NoLostUpdate` still holds there.
- The child-order detector fires if and only if LOCAL's order is not the pick, or REMOTE's reorder went
  away with children that LOCAL dropped (`ThreeWay.ChildOrderExact`).
- A successful bulk restore equals its single restores if and only if its ids are distinct, or the bin is
  the root (`RestoreLaws.BatchRestoreExact`).
- A bulk deletion that names an entry twice is refused as a whole, because the second deletion does not
  find it; a bulk move or trash takes the first mention and a bulk restore moves again at every mention
  (`EditLaws.EveryCallExactly`).
- The recycle-bin walk up the parents carries no cycle guard; its loop is proved to end on every rooted
  tree, which every modelled operation keeps (`KdbxDocument.GroupIsInRecycleBin`).

## Model

| member | source | states |
|---|---|---|
| Validator.DatabaseValidForSync | crates/kdbx/src/sync.rs:239-319 | on every finite database, cyclic parents included, it ends and answers true if and only if the vault is `Valid`: distinct ids disjoint from tombstones, every group reaches the root, parents and child lists inverse, icons resolve |
| Validator.ClimbToRoot | crates/kdbx/src/sync.rs:263-277 | the climb with a visited set answers true exactly when some number of parent steps reaches the root |
| Validator.GroupCount | crates/kdbx/src/sync.rs:281-318 | the counting argument for groups: if as many distinct children are listed as there are non-root groups, every non-root group is listed by its parent |
| Validator.EntryCount | crates/kdbx/src/sync.rs:291-318 | the same for entries |
| ThreeWay.ChooseThreeWay | crates/kdbx/src/sync.rs:1209-1219 | a value is returned exactly when the sides agree or only one changed, and it is then the changed one |
| ThreeWay.ChooseSymmetric | crates/kdbx/src/sync.rs:1209-1219 | swapping LOCAL and REMOTE does not change the pick |
| ThreeWay.MergeNamedMap | crates/kdbx/src/sync.rs:1221-1255 | exactly the names edited differently on both sides clash; every other name, present or absent on any side, has its three-way pick |
| ThreeWay.PicksMapUnique | crates/kdbx/src/sync.rs:1221-1255 | the pointwise pick determines the merged map, in either argument order |
| ThreeWay.ChildOrderSound | crates/kdbx/src/sync.rs:1392-1428 | when the detector is silent, LOCAL's order of the common children is the three-way pick of the three orders |
| ThreeWay.ChildOrderExact | crates/kdbx/src/sync.rs:1392-1428 | the detector fires if and only if LOCAL's order is not the pick or REMOTE's reorder went away with children LOCAL dropped; the two exclude each other, and the second cannot arise while LOCAL has every child BASE and REMOTE share |
| ThreeWay.ChildOrderDetectorConservative | crates/kdbx/src/sync.rs:1392-1428 | the second case does arise, whenever LOCAL dropped one of two swapped children |
| ThreeWay.MergeHistory | crates/kdbx/src/sync.rs:1502-1571 | conflicts exactly when REMOTE attachments would have to be carried over or diverged histories have attachments; else the merged history is the changed side's, or, if both changed, LOCAL's followed in order by the first occurrence of every REMOTE revision LOCAL lacks, so that exactly the revisions of either side are represented |
| ThreeWay.MergedHistoryExactly | crates/kdbx/src/sync.rs:1502-1571 | when the merged history exists, and what it is where one side, the other, both or neither changed theirs |
| ThreeWay.BothHistoriesRepresented | crates/kdbx/src/sync.rs:1537-1571 | if both histories changed, the merged one represents a revision if and only if LOCAL's or REMOTE's does |
| ThreeWay.RebuildHistory | crates/kdbx/src/sync.rs:1566-1570 | reversing and pushing to the front restores the order of the items |
| ThreeWay.UnionRepresents | crates/kdbx/src/sync.rs:1502-1571 | every item of either side is represented in the union, and nothing else is |
| ThreeWay.NovelIsFirstOccurrences | crates/kdbx/src/sync.rs:1537-1565 | the appended items are, in order, exactly the REMOTE items equivalent to no LOCAL and no earlier REMOTE item |
| TreeOps.BelowIsSubtree | crates/kdbx/src/sync.rs:547-553 | what recursive removal collects downwards is exactly the set of groups whose ancestors include the removed group |
| TreeLemmas.MovedGroupValid | crates/kdbx/src/lib.rs:442-473 | an accepted group move keeps a rooted tree with inverse lists |
| TreeLemmas.RemovedGroupValid | crates/kdbx/src/sync.rs:547-553 | recursive removal keeps a rooted tree and takes exactly the subtree |
| Merge.MergeBuilder.JudgeGroup | crates/kdbx/src/sync.rs:470-516 | one group: it is queued for addition exactly if REMOTE added it under a free identity, queued for deletion exactly if REMOTE deleted it with a tombstone and LOCAL left it alone, and otherwise exactly the justified conflicts about it are reported |
| Merge.MergeBuilder.MergeExistingGroup | crates/kdbx/src/sync.rs:557-623 | a group of all three inputs gets the pick of parent, properties and icon, and every justified conflict about it is reported, its refused move included |
| Stages.RefusedExactly | crates/kdbx/src/sync.rs:608-621 | in every run, conflicts or not, a move is refused exactly if its target is missing from LOCAL, or lies below the group once the groups with smaller identities went as far as they could, or the group is LOCAL's root |
| Settling.PlaceSettles | crates/kdbx/src/sync.rs:608-621 | and the candidate's parents stay those of that settled tree |
| Merge.MergeBuilder.AddRemoteGroups | crates/kdbx/src/sync.rs:518-545 | the sweeps end, exactly the additions that find their place are then in, and every justified conflict about an addition is reported |
| ConflictLemmas.StuckBlocked | crates/kdbx/src/sync.rs:540-545 | a sweep without progress leaves only groups above which, through additions, stands one that LOCAL deleted, whose identity is taken or that has no parent |
| ConflictLemmas.AddedIsArriving | crates/kdbx/src/sync.rs:518-545 | what the sweeps add is exactly what is not blocked |
| ConflictLemmas.AdditionsReported | crates/kdbx/src/sync.rs:526-543 | additions without a parent and blocked ones are exactly those with a conflict, each under its kind |
| Merge.MergeBuilder.DropRemoteDeleted | crates/kdbx/src/sync.rs:547-553 | recursive removal leaves none of the queued deletions and takes only groups to which the child lists lead from one; without conflicts, exactly the remotely deleted groups |
| Removal.LeftStands | crates/kdbx/src/sync.rs:547-553 | in every run what is left is exactly every group that stands, and of the entries of all three inputs exactly those not taken, both told by the inputs |
| TreeOps.BelowClosed | crates/kdbx/src/sync.rs:547-553 | the bounded descent of a removal finds everything below, on any child lists |
| Merge.MergeBuilder.MergeExistingEntry | crates/kdbx/src/sync.rs:694-795 | an entry of all three inputs gets the pick of parent, fields, attachments, properties, icon and history; it fails exactly if the group passes removed it, and otherwise every justified conflict about it is reported |
| Merge.MergeBuilder.AddRemoteEntry | crates/kdbx/src/sync.rs:675-692 | an added entry stands unchanged under its REMOTE parent, or exactly one conflict says that it has attachments, or else an icon missing from the merged table, or else a home that does not stand |
| Merge.MergeBuilder.MergeEntries | crates/kdbx/src/sync.rs:625-673 | over all entries: it fails if and only if an entry of all three inputs is gone; otherwise every justified conflict about an entry is reported, and without conflicts the live set is the rule's |
| Merge.MergeBuilder.MergeIcons | crates/kdbx/src/sync.rs:402-468 | with or without conflicts the icon table becomes LOCAL's picks without what REMOTE alone deleted, and every justified conflict about an icon is reported |
| Merge.MergeBuilder.MergeHeader | crates/kdbx/src/sync.rs:339-400 | different roots, colliding identities and clashes in metadata or icons are all reported |
| Merge.MergeBuilder.MergeTombstones | crates/kdbx/src/sync.rs:797-813 | the tombstones are the union of the three inputs', each with the latest stamp that any input gives |
| Merge.MergeBuilder.ValidateFinalHierarchy | crates/kdbx/src/sync.rs:815-844 | on the candidates that the passes leave it adds no conflict, in any run |
| Stages.StillAcyclic | crates/kdbx/src/sync.rs:815-844 | because every such candidate's parents are free of cycles, with or without conflicts |
| Merge.MergeBuilder.Run | crates/kdbx/src/sync.rs:339-349 | every run fails if and only if an entry goes with a deleted group, which without divergence means that one is stranded; otherwise the conflicts are exactly the justified ones, and without any the merge of the inputs is built, valid exactly if they fit |
| ConflictLemmas.EqualInputsAgree | crates/kdbx/src/sync.rs:339-349 | three equal valid inputs do not diverge, and no conflict of any kind is justified there |
| MergeFit.ValidExactly | crates/kdbx/src/sync.rs:331-333 | the last validation of a merge without conflicts passes if and only if no copied list repeats, identities fit together and icons resolve, all told by the inputs |
| MergeFit.IconTableMerged | crates/kdbx/src/sync.rs:402-468 | without a divergence the icon table holds exactly the live icons, each at its three-way pick, and lacks none that a side changed |
| MergeFit.CarriedListsFail | crates/kdbx/src/sync.rs:533-538 | if copying a group carries its lists, one added group that lists anything makes the result invalid |
| MergeLemmas.OnlyDeletedBelowDeleted | crates/kdbx/src/sync.rs:470-555 | the heart of the live-set theorem: below a remotely deleted group, after all moves and additions, there are only remotely deleted groups |
| VaultSync.MergeDivergent | crates/kdbx/src/sync.rs:216-236 | every outcome if and only if its condition on the inputs: `Merged` without divergence and stranding and with a fit, conflicts with divergence and nothing taken, a broken invariant else; the document is valid, has exactly the groups and entries (L∩R)∪(L\B)∪(R\B), all tombstones with their latest stamps, every pointwise pick of properties, times, remembered parents, settings and icons, and lacks nothing that a side edited; the conflicts are exactly the justified ones |
| BrokenInvariant.StrandedBreaks | crates/kdbx/src/sync.rs:547-553 | valid inputs without divergence that no shortcut decides, and only a broken invariant may come out: an entry is stranded |
| BrokenInvariant.TwiceLiveBreaks | crates/kdbx/src/sync.rs:331-333 | the same, because one identity is live as a group and as an entry |
| BrokenInvariant.MissingIconBreaks | crates/kdbx/src/sync.rs:533-538 | the same, because an added group's icon was deleted |
| BrokenInvariant.SomeInputsMerge | crates/kdbx/src/sync.rs:334-336 | valid inputs that no shortcut decides and that merge |
| VaultSync.MergeDocuments | crates/vault-sync/src/lib.rs:96-131 | each outcome if and only if its case: versions differ, an input is invalid, the sides are equal, one side equals BASE, the version is unsupported, the inputs merge, they conflict, or the invariant breaks; a merge is a valid vault with the merged tree and tables |
| VaultSync.SemanticEquivalence | crates/kdbx/src/sync.rs:1109-1174 | semantic equality is an equivalence, so the order of the comparisons does not matter; what it compares is `MergeLaws.SemanticEqualityExactly` |
| MergeLaws.SemanticEqualityExactly | crates/kdbx/src/sync.rs:1071-1174 | two documents are equal if and only if they agree on version, settings, tombstones, root, icons, groups and entry ids, and every entry on its place, each field, attachment, property, time, icon and each revision of its history |
| MergeLaws.NothingGivenUp | crates/vault-sync/src/lib.rs:109-117 | a side that a shortcut gives up differs in no value from what is kept or from BASE, and two sides that are merged both differ from BASE and from each other |
| VaultSync.BothOrdersAgree | crates/kdbx/src/sync.rs:557-623 | if both argument orders merge, they agree on live objects, tombstones, parents, fields, attachments, properties and icons |
| VaultSync.EditsSurvive | crates/kdbx/src/sync.rs:694-795 | a field or parent that one side changed has that side's value in every merge |
| MergeLaws.EntryValuesSurvive | crates/kdbx/src/sync.rs:694-795 | every property, time and icon of an entry that one side changed is as that side has it, and one that nobody changed is as it was |
| MergeLaws.GroupValuesSurvive | crates/kdbx/src/sync.rs:557-623 | the same for a group's place, properties, times and icon |
| MergeLaws.TablesSurvive | crates/kdbx/src/sync.rs:381-468 | the same for settings and icons; a tombstone's stamp is no earlier than any input's |
| MergeLaws.AttachmentsSurvive | crates/kdbx/src/sync.rs:694-795 | an attachment that one side changed, added or removed is as that side has it |
| MergeLaws.RevisionsSurvive | crates/kdbx/src/sync.rs:1502-1571 | in every merge an entry's history is the limit's share of the merge of the three histories, told by the values of the revisions |
| MergeLaws.AdditionsSurvive | crates/kdbx/src/sync.rs:518-545 | what one side added stands where that side put it, with every value |
| MergeLaws.NoEditIsDeleted | crates/kdbx/src/sync.rs:470-516 | what a merge lacks of BASE was deleted with a tombstone on one side and left alone on the other |
| MergeLaws.GroupEditsConflict | crates/kdbx/src/sync.rs:557-623 | a group that both sides moved, renamed or otherwise changed against each other makes the inputs diverge |
| MergeLaws.EntryEditsConflict | crates/kdbx/src/sync.rs:694-795 | the same for an entry's place, each field and attachment, tags, icon, expiry and remembered group |
| MergeLaws.GroupPresenceConflicts | crates/kdbx/src/sync.rs:470-516 | a group deleted here and changed there, gone without a tombstone, introduced twice or introduced and deleted makes the inputs diverge |
| MergeLaws.EntryPresenceConflicts | crates/kdbx/src/sync.rs:625-673 | the same for entries |
| MergeLaws.IconPresenceConflicts | crates/kdbx/src/sync.rs:402-468 | the same for icons |
| MergeLaws.NewEntryConflicts | crates/kdbx/src/sync.rs:675-692 | a new REMOTE entry with attachments, or in a group that LOCAL deleted, makes the inputs diverge |
| MergeLaws.HeaderEditsConflict | crates/kdbx/src/sync.rs:339-400 | different roots and settings changed against each other make the inputs diverge |
| MergeLaws.OneSidedEntryAgrees | crates/kdbx/src/sync.rs:694-795 | an entry that one side left alone is in no conflict about its values, whatever the other side did |
| MergeLaws.OneSidedGroupAgrees | crates/kdbx/src/sync.rs:557-623 | the same for a group |
| MergeLaws.OneSidedPresenceAgrees | crates/kdbx/src/sync.rs:625-673 | a tombstoned deletion of what the other side left alone, and an entry that only one side has, are no conflicts of presence |
| MergeLaws.OneSidedIconAgrees | crates/kdbx/src/sync.rs:694-795 | an entry's icon that one side left alone is in no conflict while all have the chosen icon |
| MergeLaws.OneSidedMoveAgrees | crates/kdbx/src/sync.rs:694-795 | REMOTE's move of an entry that LOCAL left in place, to a group LOCAL has, is in no conflict while REMOTE deleted no group |
| MergeLaws.OneSidedHeaderAgrees | crates/kdbx/src/sync.rs:381-400 | settings that one side left alone do not clash |
| HistoryPolicy.PruneAllEntryHistory | crates/kdbx/src/history_policy.rs:97-131 | every history becomes its newest-first prefix of the limit's length and nothing else changes |
| HistoryPolicy.PrunedValid | crates/kdbx/src/history_policy.rs:84-131 | pruning keeps a valid vault |
| DocumentLaws.EveryEditKept | crates/kdbx/src/recycle_bin.rs:88-287 | every modelled call, successful or not, keeps a valid vault, loses no identity from live ∪ tombstoned and adds at most the bin's |
| DocumentLaws.RunKeepsVault | crates/kdbx/src/lib.rs:365-508 | the same over every run of calls |
| DocumentLaws.CleanMeansUnchanged | crates/kdbx/src/lib.rs:204-206 | a document that reports no change since a revision is the document of that revision, whatever ran in between and even after the counter saturated |
| DocumentLaws.DirtyExactly | crates/kdbx/src/lib.rs:741-747 | over every run the counter counts exactly the calls that change something, up to saturation, and a change is reported if and only if there was one |
| DocumentLaws.RunMonotone | crates/kdbx/src/lib.rs:741-747 | the counter never falls and the saturated flag never clears |
| DocumentLaws.UpdateFieldsHistory | crates/kdbx/src/entry_mutations.rs:35-190 | one tracked edit adds at most one history item, the prior state, and leaves a newest-first prefix within the limit |
| DocumentLaws.RunWithinLimit | crates/kdbx/src/history_policy.rs:47-131 | once within the limit in force, every history stays within it over every run, changes of the limit included |
| DocumentLaws.DeletedGroupSets | crates/kdbx/src/lib.rs:482-508 | deleting a group removes exactly its subtree's groups and entries and tombstones each of them |
| EditLaws.EveryCallExactly | crates/kdbx/src/recycle_bin.rs:88-287 | for each of the sixteen calls on any valid tree: each error, the no-op and the change if and only if their case, told by the vault before; and after a change exactly what differs |
| EditLaws.MoveEntryExactly | crates/kdbx/src/lib.rs:365-387 | after a move the entry is last in the destination's list, remembers its old group and the time, and every other entry, group and list is as before |
| EditLaws.MoveEntriesExactly | crates/kdbx/src/bulk.rs:15-59 | after a batch every named entry is in the destination and its list; those that were elsewhere remember where, come last in the order of first mention, and nothing else has moved or changed |
| EditLaws.MoveGroupExactly | crates/kdbx/src/lib.rs:442-473 | refused if and only if the group is the root or the destination lies in it; else the group is last below the destination with all that is in it |
| EditLaws.TrashEntryExactly | crates/kdbx/src/recycle_bin.rs:88-113 | a no-op if and only if the entry is recycled; else the entry is in the bin, which is the old one or a new empty group last below the root |
| EditLaws.TrashEntriesExactly | crates/kdbx/src/bulk.rs:61-104 | exactly the named entries that were not recycled go to the bin itself |
| EditLaws.TrashGroupExactly | crates/kdbx/src/recycle_bin.rs:172-195 | refused if and only if it is the root, the bin is off, or the bin lies in it; else the group is last in the bin |
| EditLaws.RestoreEntryExactly | crates/kdbx/src/recycle_bin.rs:115-151 | succeeds if and only if the entry is recycled, and puts it into the group it remembers if that is there and outside the bin, else into the root |
| EditLaws.RestoreEntriesExactly | crates/kdbx/src/bulk.rs:106-153 | the same for each of a batch, judged before the batch; an entry named again remembers its new group and counts by its last mention |
| EditLaws.RestoreGroupExactly | crates/kdbx/src/recycle_bin.rs:197-229 | the same for a group strictly inside the bin |
| EditLaws.DeleteEntryExactly | crates/kdbx/src/lib.rs:349-358 | exactly the entry is gone and tombstoned with the time; all else keeps its place and order |
| EditLaws.DeleteRecycledEntriesExactly | crates/kdbx/src/bulk.rs:160-195 | succeeds if and only if the ids are distinct and all recycled; exactly they are gone and tombstoned |
| EditLaws.DeleteGroupExactly | crates/kdbx/src/lib.rs:482-508 | exactly the subtree and its entries are gone and tombstoned, the parent's list loses the group, and the vault forgets a bin that was inside |
| EditLaws.UpdateFieldsExactly | crates/kdbx/src/entry_mutations.rs:35-190 | a no-op if and only if every request asks for what is there; else every field is as asked, the prior state is the newest revision as far as the limit leaves room, and nothing else differs |
| EditLaws.SetHistoryMaxExactly | crates/kdbx/src/history_policy.rs:47-65 | refused if and only if the limit is above ten thousand; afterwards the limit in force is the one asked for and every history is cut to it |
| BinLaws.RestoreGroupNeverRefused | crates/kdbx/src/recycle_bin.rs:197-229 | restore of a group succeeds if and only if the group lies strictly inside the bin; it never meets a cycle |
| BinLaws.RecycledDeleteConfined | crates/kdbx/src/recycle_bin.rs:231-241 | a recycled group's deletion removes only ids inside the bin, tombstones all of them and leaves the bin |
| BinLaws.RecycledEntryDeleteConfined | crates/kdbx/src/recycle_bin.rs:155-170 | the same for a recycled entry |
| BinLaws.RestoreUndoesTrash | crates/kdbx/src/recycle_bin.rs:88-151 | restore after a trash that moved the entry puts every entry and every group back where it was, also when the trash had to create the bin |
| RestoreLaws.RestoreGoesBack | crates/kdbx/src/recycle_bin.rs:115-151 | trash an entry, run any calls that do not move, restore or delete it, and if it is still there: restore succeeds and puts it back into its old group if that is still there and outside the bin, and into the root otherwise |
| BinLaws.BatchTrashIsSequence | crates/kdbx/src/bulk.rs:61-104 | a bulk trash that does not fail leaves exactly the vault of the single trashes one after another, bin creation included |
| RestoreLaws.BatchRestoreExact | crates/kdbx/src/bulk.rs:106-153 | for a bulk restore that succeeds: every single restore of the sequence succeeds, and both end in the same vault, if and only if the ids are distinct or the bin is the root |
| KdbxDocument.GroupIsInRecycleBin | crates/kdbx/src/recycle_bin.rs:272-287 | the cursor loop ends and answers whether the group lies in the bin's subtree |
| KdbxDocument.GroupSubtreeIds | crates/kdbx/src/lib.rs:785-802 | the worklist ends and lists exactly the subtree, each group once |
| KdbxDocument.TrashEntriesOn | crates/kdbx/src/bulk.rs:61-104 | the loop over a copy computes the batch's specification, errors included |
| KdbxDocument.RestoreEntriesOn | crates/kdbx/src/bulk.rs:106-153 | the same for restore, with destinations judged before anything moves |
| KdbxDocument.MoveEntriesOn | crates/kdbx/src/bulk.rs:15-59 | the loop over a copy computes the batch's specification, errors included, which `EditLaws.MoveEntriesExactly` ties to where every entry ends |
| KdbxDocument.CollectChanges | crates/kdbx/src/entry_mutations.rs:72-94 | the loop over the requested fields keeps exactly those that really change, each with the protection it has or gets, told field by field |
| KdbxDocument.UpdateFieldsOn | crates/kdbx/src/entry_mutations.rs:35-190 | fails exactly on a missing entry; afterwards, or already before if nothing is changed, every field is as its own request demands; the edit is the tracked one of `DocumentLaws.UpdateFieldsHistory` |
| KdbxDocument.Document.Perform | crates/kdbx/src/lib.rs:741-747 | each call replaces database and counter together as the run specification says, or leaves both, and keeps the document valid |
| SyncLaws.NoLostUpdate | crates/sync-engine/src/engine.rs:68-111 | in every run, every remote generation after the first was decided over exactly the generation it overwrote, as a fast-forward, a contract-abiding merge or an explicit choice |
| SyncLaws.RemoteWrittenByCommitsOnly | crates/sync-engine/src/engine.rs:290-301 | the remote changes only by the conditional delivery of a write some commit sent from real inputs; recovery never writes it, and a choice is sent only with its re-checks |
| SyncLaws.MergedGenerationKeepsEdits | crates/sync-engine/src/engine.rs:189-238 | end to end: a merged generation is a valid vault with the exact live set and holds every field edit of the generation it overwrote and of the merging device |
| SyncLaws.MergeKeepsItsPromise | crates/sync-engine/src/engine.rs:189-238 | what the protocol assumes of a merge outcome follows from what the document merge ensures |
| SyncSteps.DeliverExtends | crates/sync-provider-core/src/lib.rs:166-179 | a compare-and-swap that lands extends the chain: its REMOTE input is the current generation |
| SyncSteps.DoKeeps | crates/sync-engine/src/engine.rs:49-335 | every step of every call, every delivery, save, new session, stop and crash keeps the protocol invariant |
| SyncInvariant.ClaimsSurvive | crates/sync-engine/src/engine.rs:273-335 | whatever a call relies on at any point stays true whatever others do meanwhile |
| DeviceLaws.LocalSafety | crates/sync-engine/src/engine.rs:323-331 | in every run LOCAL changes only by a save, or by a commit or recovery step while it still equals the candidate's LOCAL input and after the remote held the candidate |
| DeviceLaws.BaseInvariant | crates/sync-engine/src/engine.rs:190-193 | every BASE ever stored is a pair the remote held together, and LOCAL held those bytes or an equal vault |
| DeviceLaws.JournalMeansWhatItSays | crates/sync-engine/src/recovery.rs:38-77 | a journal names a real decision over real inputs, and its phase implies the matching past remote and local contents |
| DeviceLaws.TokenTakenOnce | crates/sync-engine/src/conflict_authority.rs:52-61 | in every run no token is taken twice |
| DeviceLaws.OnlyLatestTaken | crates/sync-engine/src/conflict_authority.rs:25-61 | a newer conflict closes an older token for good |
| DeviceLaws.PendingSurvives | crates/sync-engine/src/engine.rs:115-132 | a pending conflict survives everything but a new sync, a crash, a newer conflict and its own take: a wrong token or credential never costs it |
| DeviceLaws.NewSyncClosesConflict | crates/sync-engine/src/engine.rs:55-55 | a new sync and a restart close the pending conflict: in every run its token is never taken after |
| DeviceLaws.ChoiceRechecked | crates/sync-engine/src/engine.rs:132-173 | a plan carries evidence if and only if it is a choice of either side, and then BASE, LOCAL and remote were each seen again as captured, after the take |
| DeviceLaws.ResolvePreparesChoices | crates/sync-engine/src/engine.rs:132-173 | every plan that resolve prepares is such a choice; which one is `ChoiceLaws.ChoiceDecidesPlan` |
| ChoiceLaws.ChoiceCarried | crates/sync-engine/src/engine.rs:115-173 | in every run and at every point of a resolve it still carries the choice it was started with, about the very conflict it took |
| ChoiceLaws.ChoiceDecidesPlan | crates/sync-engine/src/engine.rs:144-173 | keeping LOCAL plans to replace the captured remote generation by the captured LOCAL bytes; keeping REMOTE plans to take the captured remote bytes as already committed |
| ChoiceLaws.KeepRemoteNeverWrites | crates/sync-engine/src/engine.rs:159-172 | no step of a resolve that keeps REMOTE sends a write, and no write ever sent carries such a choice |
| ChoiceLaws.KeepRemoteApplies | crates/sync-engine/src/engine.rs:159-172 | when such a resolve returns, LOCAL has been the captured remote bytes, BASE the captured generation, and the journal is gone |
| ChoiceLaws.ChoiceSettlesLocal | crates/sync-engine/src/engine.rs:323-331 | the step that settles LOCAL leaves LOCAL with exactly the chosen side's captured bytes |
| ChoiceLaws.KeepLocalWrites | crates/sync-engine/src/engine.rs:145-157 | a resolve that keeps LOCAL sends one write: the captured LOCAL bytes on the condition of the captured revision |
| QuietLaws.SyncAloneExactly | crates/sync-engine/src/engine.rs:49-238 | an undisturbed sync without a journal fails, uploads one write, takes over the remote vault, moves BASE or leaves a conflict, each exactly in its case, and nothing else changes |
| QuietLaws.ResolveAloneExactly | crates/sync-engine/src/engine.rs:115-173 | an undisturbed resolve: a wrong credential or token costs nothing; else the conflict is used up, and the choice is carried out if and only if nothing has changed since the capture; keeping REMOTE ends with LOCAL and BASE the captured remote |
| QuietLaws.AnswerExactly | crates/sync-engine/src/engine.rs:303-335 | a confirmed write ends with LOCAL and BASE the candidate and no journal, a refused one with everything as before the call |
| QuietLaws.FinishedAs | crates/sync-engine/src/engine.rs:323-335 | what LOCAL, BASE, journal and pending conflict are at the end of a commit |
| DeviceLaws.LocalEditsSurvive | crates/sync-engine/src/engine.rs:189-238 | whenever a commit or a recovery replaces LOCAL, by a merge over it, by REMOTE while LOCAL meant BASE, or by an explicit choice with evidence |
| RejectedWrite.CommittedIffDelivered | crates/sync-engine/src/engine.rs:313-321 | wherever a commit waits for its answer, whatever that is, the candidate has been the remote's content by this decision if and only if the request had been delivered |
| RejectedWrite.RejectedAfterCommit | crates/sync-engine/src/engine.rs:313-321 | a run in which it had: the write lands, another device overwrites it, the rejection is heard, the journal is forgotten, and LOCAL is not the candidate |
| ConflictAuthority.AlwaysSound | crates/sync-engine/src/conflict_authority.rs:19-61 | over every sequence of critical sections the pending token is the latest installed and untaken, and no token repeats |
| ConflictAuthority.TakeSucceedsIffUsable | crates/sync-engine/src/conflict_authority.rs:52-61 | a take succeeds if and only if its token was installed and since then only takes with other tokens happened |
| ConflictAuthority.PendingIsInstalled | crates/sync-engine/src/conflict_authority.rs:25-61 | and then hands out exactly the LOCAL, remote and BASE digest that were installed under the token |
| ConflictAuthority.ConflictAuthority.Take | crates/sync-engine/src/conflict_authority.rs:52-61 | hands out the pending conflict once, and leaves it when the token differs |
| SyncEngine.Engine.RecoverLoaded | crates/sync-engine/src/recovery.rs:10-83 | on any durable state, stopped after any number of durable writes, it is exactly where its trace says, with the right result |
| SyncEngine.Engine.CommitCandidateBytes | crates/sync-engine/src/engine.rs:273-335 | the same for any plan and any provider answer |
| CrashLaws.CrashAtomicity | crates/sync-engine/src/engine.rs:273-335 | stop a commit anywhere, recover any number of times stopping anywhere and under any credential, then finish one recovery: the journal is gone and remote, LOCAL and BASE are as before or as after the uncrashed run, settled by whether the write landed |
| CrashLaws.RecoverDecided | crates/sync-engine/src/recovery.rs:10-79 | recovery never leaves the states of the interrupted commit and reaches the one goal the remote determines |
| CrashLaws.RecoveryOnAnyState | crates/sync-engine/src/recovery.rs:38-77 | on any state: completes if and only if remote is the candidate and LOCAL is it or its input, drops if and only if neither moved, otherwise keeps operation and contents; never writes the remote |
| CrashLaws.RecoveryRefusedExactly | crates/sync-engine/src/recovery.rs:10-77 | which error a recovery gives that neither completes nor drops, told by the state |
| CrashLaws.CommitRefusedExactly | crates/sync-engine/src/engine.rs:273-301 | a commit is refused for an active journal if and only if there is one, and then writes nothing |
| CrashLaws.TakeOverOnAnyState | crates/sync-engine/src/engine.rs:323-335 | a commit of what the remote has completes if and only if LOCAL is still the captured one |
| CrashLaws.UploadOnAnyState | crates/sync-engine/src/engine.rs:290-335 | an upload on any state by the provider's answer: what it returns and what remote, LOCAL, BASE and journal are then |
| CrashLaws.UncertainOnAnyState | crates/sync-engine/src/engine.rs:313-321 | the same for an uncertain answer, by whether the remote holds the candidate |
| CrashLaws.LateDelivery | crates/sync-engine/src/recovery.rs:38-77 | a write that lands after any recoveries, with any following: the end is as before or as after the uncrashed run if and only if it landed while the journal was there, the remote already held the candidate, or LOCAL and BASE needed no change |
| CrashLaws.LateDeliverySplits | crates/sync-engine/src/recovery.rs:44-49 | otherwise, after one recovery, the state is neither that before nor that of the uncrashed run |
| EngineRefinement.RecoveryRefines | crates/sync-engine/src/recovery.rs:10-83 | left alone, the protocol's recovery steps end in the engine's final state and return, go on or fail exactly as the engine does |
| EngineRefinement.CommitRefines | crates/sync-engine/src/engine.rs:323-335 | the same for the commit from the confirmed write on |
| BaseStore.BaseWriteAtomic | crates/sync-engine/src/store.rs:130-183 | stop the write of BASE between any two steps, on any directory: loading, whose conditions `StoreLaws` states, gives what it gave before or exactly the new BASE, and the journal loads as before |
| BaseStore.BaseWriteLeavesNoOrphan | crates/sync-engine/src/store.rs:155-183 | a finished write replaces the old payload by the new one and leaves no other file behind |
| StoreLaws.BaseLoadsExactly | crates/sync-engine/src/store.rs:130-153 | BASE loads if and only if the metadata is a record of the current schema for this profile, source and target, names a private file, and that file's bytes have the recorded digest; they and the recorded revision are then what loads |
| StoreLaws.NoBaseExactly | crates/sync-engine/src/store.rs:130-136 | there is no BASE if and only if there is no metadata |
| StoreLaws.BaseRefusedExactly | crates/sync-engine/src/store.rs:132-141 | an unsupported schema, another profile, source or target: each error if and only if its case |
| StoreLaws.BasePayloadRefusedExactly | crates/sync-engine/src/store.rs:142-147 | the same for a bad file name, a missing file, and a corrupt record or payload |
| StoreLaws.JournalLoadsExactly | crates/sync-engine/src/store/journal.rs:49-69 | the same as for BASE for the journal and its candidate, and for there being none |
| StoreLaws.JournalRefusedExactly | crates/sync-engine/src/store/journal.rs:50-62 | each refusal of a journal's metadata if and only if its case |
| StoreLaws.CandidateRefusedExactly | crates/sync-engine/src/store/journal.rs:63-67 | each refusal of its candidate likewise |
| StoreLaws.PrivateNamesExactly | crates/sync-engine/src/store.rs:279-289 | a name is private if and only if it is the prefix, anything within one component, and a known suffix |
| StoreLaws.ReadyExactly | crates/sync-engine/src/store/metadata.rs:15-33 | a new operation may start if and only if there is no journal and BASE is missing or loads |
| StoreLaws.PrepareRefusedExactly | crates/sync-engine/src/store/journal.rs:17-28 | a journal is prepared if and only if an operation may start on the profile's own source, and a refusal writes nothing |
| StoreLaws.MarkRefusedExactly | crates/sync-engine/src/store/journal.rs:99-109 | a phase is recorded unless another operation's or a broken journal is there |
| StoreLaws.RemoveRefusedExactly | crates/sync-engine/src/store/journal.rs:89-97 | a journal is removed, with its candidate, if and only if it is the one that the directory holds |
| BaseStore.NamesDisjoint | crates/sync-engine/src/store.rs:279-289 | payload and metadata names never clash, so no removal touches metadata or the other payload |
| BaseStore.PrepareAtomic | crates/sync-engine/src/store/journal.rs:17-47 | stop the preparation anywhere: no journal, or the whole one with its candidate |
| BaseStore.MarkAtomic | crates/sync-engine/src/store/journal.rs:71-87 | a phase change replaces the record and keeps candidate and BASE |
| BaseStore.RemoveAtomic | crates/sync-engine/src/store/journal.rs:89-97 | stop the removal anywhere: the whole journal or none |
| BaseStore.SyncStore.WriteBase | crates/sync-engine/src/store.rs:155-183 | performs exactly the modelled durable steps, stopped or not, errors included |
| BaseStore.SyncStore.ResetState | crates/sync-engine/src/store/metadata.rs:35-64 | refuses a directory with a foreign file, otherwise drops metadata first, so an interrupted reset never trusts a deleted payload |
| Gateway.Linearizable | apps/sync-gateway/src/storage.rs:49-107 | in every interleaving each answer is the one of a store serving one request at a time in log order, the objects are that store's, and per vault the log follows the order of lock grants |
| Gateway.OneMutexPerVault | apps/sync-gateway/src/storage.rs:98-107 | pruning dead weak references never gives two outstanding requests of one vault different mutexes, and only one has the guard |
| Gateway.ResponsesAreHonest | apps/sync-gateway/src/storage.rs:138-155 | a stored replacement overwrote bytes of exactly the presented revision, a creation overwrote nothing, a refusal changed nothing |
| Gateway.InstalledHonest | apps/sync-gateway/src/storage.rs:138-155 | when an installation answers stored, and what each answer says about the objects before and after |
| Gateway.Storage.ObjectLock | apps/sync-gateway/src/storage.rs:98-107 | prunes, then shares the mutex of every outstanding request of the vault or inserts a new one |
| Gateway.Storage.InstallUpload | apps/sync-gateway/src/storage.rs:138-155 | compares and renames under the guard as the two protocol steps do |
| Gateway.CompareAndRename | apps/sync-gateway/src/storage.rs:138-181 | the upload goes in exactly if its condition holds of the stored object and neither read nor rename fails; stored, precondition, I/O and unsafe-file answers each if and only if their case |
| Png.ValidatePngIcon | crates/kdbx/src/custom_icons.rs:49-118 | accepts exactly the byte strings that are the signature and serialized chunks of the icon grammar, on every input |
| Png.ChunksUnique | crates/kdbx/src/custom_icons.rs:60-77 | serialized chunks parse in one way only |
| Png.NumberRoundTrip | crates/kdbx/src/custom_icons.rs:61-66 | big-endian lengths decode to what was encoded |

## Left out

- Installing and uninstalling the browser native host (`apps/browser-native-host/src/installer_transaction.rs`): its branches are short and would add easy members.
- HTTP, S3, WebDAV and TLS clients, and the gateway's server: only the conditional-write contract and a misleading rejection are modelled. A gateway request dropped while its blocking closure runs is outside `Gateway`; a request abandoned while waiting for the lock is inside.
- Encryption, parsing and serialization of KDBX: opening is an abstract decode that fails on a wrong key, and a merged document serializes to ciphertext that opens to it.
- `group_change_is_representable` probes the database library's editing calls, and whether copying a group record copies its child lists is a property of that library: both are parameters (`Library` in `Divergence`), and every theorem holds for each answer.
- MergeFit.ValidExactly: fixes that removing a custom icon leaves references to it standing; if the library clears them, objects of LOCAL that referred to an icon REMOTE deleted fit as well. Inputs in which LOCAL refers to no such icon are not affected.
- VaultSync.MergeDivergent: it is stated for valid inputs, which its only caller has just checked; `VaultSync.MergeDocuments` states what happens to invalid ones. The order and the number of repetitions of conflicts are not stated, nor where an added or moved child stands among its new siblings; the order of the children that all three inputs share is.
- Metadata: only the recycle bin, its switch, the history limit and one block of the remaining settings are modelled; their merge is `MergeSpec.PicksMeta`. Changing the history limit also stamps the settings, which is not modelled.
- Icons, expiry, tags and one-time-password parts of entry updates, creation and duplication of entries and groups, renaming, and attachments in the document: easy relatives of the field edit. Clearing icons of a deleted subtree is subsumed by its removal; template and last-selected group references are not modelled.
- Identities are numbers, ordered as the source orders them by their text; where the source iterates a hash map, loops take elements in any order, and the proofs hold for each.
- File permissions, symbolic-link races and reordering of writes that were not yet flushed: single-file writes and removals are atomic and happen in program order.
- In `SyncProtocol` an error is a call that stops, whatever its message; the error results are in `SyncEngine`. The candidate's file is part of the journal there; the two files are in `BaseStore`.
- The protocol starts with no remote object, so the first generation is one of the devices' creations; deletion of the object by someone else is not modelled, since the provider contract has none.
- Validator.ClimbToRoot: the cited climb stops at the first repeated group; how many groups it visited is not stated.
- CrashLaws.CrashAtomicity: when the candidate already was the remote's content before a replacement and the crash fell before the write, BASE may carry the old revision of the same bytes, so only contents are equal.

/** What every call on a document does, exactly: when it is refused and why, when it has nothing to
    do, and how the document differs after it. All of it is told from the vault before the call. */
module EditLaws {
  import opened Vault
  import opened ThreeWay
  import opened TreeOps
  import opened HistoryPolicy
  import opened DocumentSpec
  import opened DocumentLaws
  import opened BinLaws
  import opened Placement

  // ---------------------------------------------------------------- what the caller can see

  /** The recycle bin, if the vault names a group that it has. */
  ghost predicate HasBin(db: Database)
  {
    db.meta.recycleBinUuid.Some? && db.meta.recycleBinUuid.value in db.groups
  }

  ghost predicate Recycled(db: Database, g: Id)
  {
    HasBin(db) && InSubtree(db.groups, g, db.meta.recycleBinUuid.value)
  }

  ghost predicate RecycledEntry(db: Database, e: Id)
  {
    e in db.entries && Recycled(db, db.entries[e].parent)
  }

  /** Strictly inside the bin. */
  ghost predicate RecycledGroup(db: Database, g: Id)
  {
    Recycled(db, g) && g != db.meta.recycleBinUuid.value
  }

  ghost predicate BinDisabled(db: Database)
  {
    db.meta.recycleBinEnabled == Some(false)
  }

  lemma RecycledIsInside(db: Database, g: Id)
    requires ValidTree(db) && g in db.groups
    ensures Recycled(db, g) <==> RecycleBinId(db).Some? && Inside(db.groups, g, RecycleBinId(db).value)
  {
    if HasBin(db) {
      InsideIsSubtree(db, g, db.meta.recycleBinUuid.value);
    }
  }

  lemma RecycledIsRestorable(db: Database, e: Id)
    requires ValidTree(db) && e in db.entries
    ensures RecycledEntry(db, e) <==> RecycleBinId(db).Some? && Restorable(db, RecycleBinId(db).value, e)
  {
    EntryParentListed(db, e);
    RecycledIsInside(db, db.entries[e].parent);
  }

  /** What the bin in `c` holds of `db` is what the bin of `db` holds: a new bin is empty. */
  lemma RecycledInReady(db: Database, newId: Id, x: Id)
    requires ValidTree(db) && newId !in db.groups && EnsureRecycleBin(db, newId).Bin? && x in db.groups
    ensures var r := EnsureRecycleBin(db, newId);
            Inside(r.db.groups, x, r.id) <==> Recycled(db, x)
  {
    if HasBin(db) {
      RecycledIsInside(db, x);
    } else {
      OldIsOutsideNewBin(db, newId, x);
    }
  }

  // ---------------------------------------------------------------- moves

  ghost predicate MoveEntryAs(db: Database, e: Id, dest: Id, now: Time, edit: Edit)
  {
    && (edit == Fails(EntryNotFound) <==> e !in db.entries)
    && (edit == Fails(GroupNotFound) <==> e in db.entries && dest !in db.groups)
    && (edit == Same <==> e in db.entries && dest in db.groups && db.entries[e].parent == dest)
    && (edit.Changes? <==> e in db.entries && dest in db.groups && db.entries[e].parent != dest)
    && (edit.Changes? ==> EntryMoved(db, edit.db, e, dest, now))
  }

  lemma MoveEntryExactly(db: Database, e: Id, dest: Id, now: Time)
    requires ValidTree(db)
    ensures MoveEntryAs(db, e, dest, now, MoveEntryEdit(db, e, dest, now))
  {
    if e in db.entries && dest in db.groups {
      PlacedExactly(db, e, dest, now);
    }
  }

  /** A batch of moves: every named entry is in `dest` afterwards, whether it was or not, those that
      were not come last there as first mentioned, and nothing else has changed. */
  ghost predicate MoveEntriesAs(db: Database, es: seq<Id>, dest: Id, now: Time, edit: Edit)
  {
    && (edit == Fails(GroupNotFound) <==> es != [] && dest !in db.groups)
    && (edit == Fails(EntryNotFound) <==> dest in db.groups && exists e :: e in es && e !in db.entries)
    && (edit == Same <==>
          es == [] || (dest in db.groups && forall e :: e in es ==> e in db.entries && db.entries[e].parent == dest))
    && (edit.Changes? <==>
          dest in db.groups && (forall e :: e in es ==> e in db.entries) && Elsewhere(db, es, dest) != {})
    && (edit.Changes? ==>
          && Gathered(db, edit.db, Elsewhere(db, es, dest), es, dest, now)
          && forall e :: e in es ==>
                e in edit.db.entries && edit.db.entries[e].parent == dest && e in ListOf(edit.db, dest))
  }

  lemma MoveEntriesExactly(db: Database, es: seq<Id>, dest: Id, now: Time)
    requires ValidTree(db)
    ensures MoveEntriesAs(db, es, dest, now, MoveEntriesEdit(db, es, dest, now))
  {
    FoundIsIn(db, es);
    if dest in db.groups && AllFound(db, es) {
      MoveAllGathers(db, es, dest, now);
      AlreadyThere(db, es, dest);
      GatheredThere(db, MoveAll(db, es, dest, now), es, dest, now);
    }
  }

  lemma FoundIsIn(db: Database, es: seq<Id>)
    ensures AllFound(db, es) <==> forall e :: e in es ==> e in db.entries
  {
    if AllFound(db, es) {
      forall e | e in es ensures e in db.entries {
        var i :| 0 <= i < |es| && es[i] == e;
      }
    }
  }

  lemma AlreadyThere(db: Database, es: seq<Id>, dest: Id)
    requires AllFound(db, es)
    ensures (forall i :: 0 <= i < |es| ==> db.entries[es[i]].parent == dest) <==> Elsewhere(db, es, dest) == {}
  {
    if Elsewhere(db, es, dest) == {} {
      forall i | 0 <= i < |es| ensures db.entries[es[i]].parent == dest {
        assert es[i] !in Elsewhere(db, es, dest);
      }
    }
  }

  lemma GatheredThere(db: Database, after: Database, es: seq<Id>, dest: Id, now: Time)
    requires ValidTree(after) && Gathered(db, after, Elsewhere(db, es, dest), es, dest, now)
    requires forall e :: e in es ==> e in db.entries
    ensures forall e :: e in es ==> e in after.entries && after.entries[e].parent == dest && e in ListOf(after, dest)
  {
    forall e | e in es ensures e in after.entries && after.entries[e].parent == dest && e in ListOf(after, dest) {
      if e in Elsewhere(db, es, dest) {
        assert e in All(Elsewhere(db, es, dest), dest);
      }
      SharedList(after, e);
    }
  }

  ghost predicate MoveGroupAs(db: Database, g: Id, dest: Id, now: Time, edit: Edit)
  {
    && (edit == Fails(GroupNotFound) <==> g !in db.groups || dest !in db.groups)
    && (edit == Fails(InvalidGroupMove) <==>
          g in db.groups && dest in db.groups && (g == db.root || InSubtree(db.groups, dest, g)))
    && (edit == Same <==> g in db.groups && dest in db.groups && db.groups[g].parent == Some(dest))
    && (edit.Changes? <==>
          && g in db.groups && dest in db.groups && g != db.root && db.groups[g].parent != Some(dest)
          && !InSubtree(db.groups, dest, g))
    && (edit.Changes? ==> GroupMoved(db, edit.db, g, dest, now))
  }

  lemma MoveGroupExactly(db: Database, g: Id, dest: Id, now: Time)
    requires ValidTree(db)
    ensures MoveGroupAs(db, g, dest, now, MoveGroupEdit(db, g, dest, now))
  {
    if g in db.groups && dest in db.groups {
      Placement.RefusedExactly(db, g, dest);
      assert g != db.root ==> GroupListed(db, g);
      ParentNotBelow(db, g, dest);
      if MoveGroup(db, g, dest).Moved? {
        GroupPlacedExactly(db, g, dest, now);
      }
    }
  }

  lemma ParentNotBelow(db: Database, g: Id, p: Id)
    requires ValidTree(db) && g in db.groups && p in db.groups
    ensures db.groups[g].parent == Some(p) ==> !InSubtree(db.groups, p, g)
  {
    if db.groups[g].parent == Some(p) && InSubtree(db.groups, p, g) {
      SubtreeStep(db.groups, p, p);
      SubtreeStep(db.groups, g, p);
      SubtreeAntisymmetric(db, p, g);
      NotOwnParent(db, g);
    }
  }

  // ---------------------------------------------------------------- trash

  ghost predicate TrashEntryAs(db: Database, e: Id, newId: Id, now: Time, edit: Edit)
    requires db.root in db.groups && newId !in db.groups
  {
    var r := EnsureRecycleBin(db, newId);
    && (edit == Fails(EntryNotFound) <==> e !in db.entries)
    && (edit == Fails(RecycleBinDisabled) <==> e in db.entries && BinDisabled(db))
    && (edit == Same <==> !BinDisabled(db) && RecycledEntry(db, e))
    && (edit.Changes? <==> !BinDisabled(db) && e in db.entries && !RecycledEntry(db, e))
    && (edit.Changes? ==> r.Bin? && BinReady(db, r.db, r.id, newId) && EntryMoved(r.db, edit.db, e, r.id, now))
  }

  lemma TrashEntryExactly(db: Database, e: Id, newId: Id, now: Time)
    requires ValidTree(db) && newId !in db.groups
    ensures TrashEntryAs(db, e, newId, now, TrashEntryEdit(db, e, newId, now))
  {
    EnsuredExactly(db, newId);
    if e in db.entries && !BinDisabled(db) {
      var r := EnsureRecycleBin(db, newId);
      EntryParentListed(db, e);
      RecycledInReady(db, newId, db.entries[e].parent);
      BinTree(db, newId);
      PlacedExactly(r.db, e, r.id, now);
    }
  }

  /** A batch of trashings: every named entry that is not recycled yet goes to the bin itself. */
  ghost predicate TrashEntriesAs(db: Database, es: seq<Id>, newId: Id, now: Time, edit: Edit)
    requires db.root in db.groups && newId !in db.groups
  {
    var r := EnsureRecycleBin(db, newId);
    && TrashEntriesAnswer(db, es, edit)
    && (edit.Changes? ==>
          && r.Bin? && BinReady(db, r.db, r.id, newId)
          && Gathered(r.db, edit.db, OutsideBin(r.db, es, r.id), es, r.id, now)
          && OutsideBin(r.db, es, r.id) == set e | e in es && !RecycledEntry(db, e))
  }

  ghost predicate TrashEntriesAnswer(db: Database, es: seq<Id>, edit: Edit)
  {
    && (edit == Fails(EntryNotFound) <==> exists e :: e in es && e !in db.entries)
    && (edit == Fails(RecycleBinDisabled) <==> es != [] && (forall e :: e in es ==> e in db.entries) && BinDisabled(db))
    && (edit == Same <==> es == [] || (!BinDisabled(db) && forall e :: e in es ==> RecycledEntry(db, e)))
    && (edit.Changes? <==>
          && !BinDisabled(db) && (forall e :: e in es ==> e in db.entries)
          && exists e :: e in es && !RecycledEntry(db, e))
  }

  lemma TrashEntriesAnswered(db: Database, es: seq<Id>, newId: Id, now: Time)
    requires ValidTree(db) && newId !in db.groups
    ensures TrashEntriesAnswer(db, es, TrashEntriesEdit(db, es, newId, now))
  {
    FoundIsIn(db, es);
    if AllFound(db, es) && !BinDisabled(db) {
      RecycledEach(db, newId, es);
      assert forall i :: 0 <= i < |es| ==> es[i] in es;
    }
  }

  lemma TrashEntriesExactly(db: Database, es: seq<Id>, newId: Id, now: Time)
    requires ValidTree(db) && newId !in db.groups
    ensures TrashEntriesAs(db, es, newId, now, TrashEntriesEdit(db, es, newId, now))
  {
    TrashEntriesAnswered(db, es, newId, now);
    if TrashEntriesEdit(db, es, newId, now).Changes? {
      var r := EnsureRecycleBin(db, newId);
      EnsuredExactly(db, newId);
      BinTree(db, newId);
      RecycledEach(db, newId, es);
      TrashAllGathers(r.db, r.id, es, now);
    }
  }

  lemma RecycledEach(db: Database, newId: Id, es: seq<Id>)
    requires ValidTree(db) && newId !in db.groups && AllFound(db, es) && EnsureRecycleBin(db, newId).Bin?
    requires forall e :: e in es ==> e in db.entries
    ensures var r := EnsureRecycleBin(db, newId);
            && r.db.entries == db.entries
            && (forall e :: e in es ==> (Inside(r.db.groups, db.entries[e].parent, r.id) <==> RecycledEntry(db, e)))
            && OutsideBin(r.db, es, r.id) == set e | e in es && !RecycledEntry(db, e)
  {
    var r := EnsureRecycleBin(db, newId);
    BinTree(db, newId);
    forall e | e in es
      ensures Inside(r.db.groups, db.entries[e].parent, r.id) <==> RecycledEntry(db, e)
      ensures InSubtree(r.db.groups, db.entries[e].parent, r.id) <==> RecycledEntry(db, e)
    {
      EntryParentListed(db, e);
      RecycledInReady(db, newId, db.entries[e].parent);
      InsideIsSubtree(r.db, db.entries[e].parent, r.id);
    }
  }

  ghost predicate TrashGroupAs(db: Database, g: Id, newId: Id, now: Time, edit: Edit)
    requires db.root in db.groups && newId !in db.groups
  {
    var r := EnsureRecycleBin(db, newId);
    && (edit == Fails(GroupNotFound) <==> g !in db.groups)
    && (edit == Fails(CannotDeleteRootGroup) <==> g == db.root)
    && (edit == Fails(RecycleBinDisabled) <==> g in db.groups && g != db.root && BinDisabled(db))
    && (edit == Fails(InvalidGroupMove) <==>
          && g in db.groups && g != db.root && !BinDisabled(db) && !Recycled(db, g)
          && HasBin(db) && InSubtree(db.groups, db.meta.recycleBinUuid.value, g))
    && (edit == Same <==> g in db.groups && g != db.root && !BinDisabled(db) && Recycled(db, g))
    && (edit.Changes? <==>
          && g in db.groups && g != db.root && !BinDisabled(db) && !Recycled(db, g)
          && !(HasBin(db) && InSubtree(db.groups, db.meta.recycleBinUuid.value, g)))
    && (edit.Changes? ==> r.Bin? && BinReady(db, r.db, r.id, newId) && GroupMoved(r.db, edit.db, g, r.id, now))
  }

  lemma TrashGroupExactly(db: Database, g: Id, newId: Id, now: Time)
    requires ValidTree(db) && newId !in db.groups
    ensures TrashGroupAs(db, g, newId, now, TrashGroupEdit(db, g, newId, now))
  {
    EnsuredExactly(db, newId);
    if g in db.groups && g != db.root && !BinDisabled(db) {
      var r := EnsureRecycleBin(db, newId);
      RecycledInReady(db, newId, g);
      BinTree(db, newId);
      Placement.RefusedExactly(r.db, g, r.id);
      NewBinNotBelow(db, newId, g);
      if MoveGroup(r.db, g, r.id).Moved? {
        GroupPlacedExactly(r.db, g, r.id, now);
      }
    }
  }

  lemma NewBinNotBelow(db: Database, newId: Id, g: Id)
    requires ValidTree(db) && newId !in db.groups && g in db.groups && g != db.root && EnsureRecycleBin(db, newId).Bin?
    ensures var r := EnsureRecycleBin(db, newId);
            InSubtree(r.db.groups, r.id, g) <==> HasBin(db) && InSubtree(db.groups, db.meta.recycleBinUuid.value, g)
  {
    var r := EnsureRecycleBin(db, newId);
    if !HasBin(db) {
      BinTree(db, newId);
      SubtreeStep(r.db.groups, newId, g);
      SubtreeStep(r.db.groups, db.root, g);
    }
  }

  // ---------------------------------------------------------------- restore

  ghost predicate RestoreEntryAs(db: Database, e: Id, now: Time, edit: Edit)
  {
    && (edit == Fails(EntryNotFound) <==> e !in db.entries)
    && (edit == Fails(InvalidRecycleBinOperation) <==> e in db.entries && !RecycledEntry(db, e))
    && (edit.Changes? <==> RecycledEntry(db, e))
    && (edit.Changes? ==>
          EntryMoved(db, edit.db, e, Home(db, db.meta.recycleBinUuid.value, db.entries[e].state.previousParent), now))
  }

  lemma RestoreEntryExactly(db: Database, e: Id, now: Time)
    requires ValidTree(db)
    ensures RestoreEntryAs(db, e, now, RestoreEntryEdit(db, e, now))
  {
    if e in db.entries {
      RecycledIsRestorable(db, e);
      if RecycledEntry(db, e) {
        TargetIsHome(db, db.meta.recycleBinUuid.value, db.entries[e].state.previousParent);
        PlacedExactly(db, e, Home(db, db.meta.recycleBinUuid.value, db.entries[e].state.previousParent), now);
      }
    }
  }

  /** A batch of restores: every named entry goes where it alone would have gone before the batch. */
  ghost predicate RestoreEntriesAs(db: Database, es: seq<Id>, now: Time, edit: Edit)
  {
    && (edit == Same <==> es == [])
    && (edit == Fails(EntryNotFound) <==> exists e :: e in es && e !in db.entries)
    && (edit == Fails(InvalidRecycleBinOperation) <==>
          (forall e :: e in es ==> e in db.entries) && exists e :: e in es && !RecycledEntry(db, e))
    && (edit.Changes? <==> es != [] && forall e :: e in es ==> RecycledEntry(db, e))
    && (edit.Changes? ==> HasBin(db) && Returned(db, edit.db, Homes(db, db.meta.recycleBinUuid.value, es), es, now))
  }

  lemma RestoreEntriesExactly(db: Database, es: seq<Id>, now: Time)
    requires ValidTree(db)
    ensures RestoreEntriesAs(db, es, now, RestoreEntriesEdit(db, es, now))
  {
    FoundIsIn(db, es);
    if AllFound(db, es) {
      AllRecycled(db, es);
      if HasBin(db) {
        RestoreAllReturns(db, db, db.meta.recycleBinUuid.value, es, now);
      }
    }
  }

  lemma AllRecycled(db: Database, es: seq<Id>)
    requires ValidTree(db) && AllFound(db, es)
    ensures (forall e :: e in es ==> RecycledEntry(db, e)) <==>
              es == [] || (RecycleBinId(db).Some? && forall i :: 0 <= i < |es| ==> Restorable(db, RecycleBinId(db).value, es[i]))
  {
    forall i | 0 <= i < |es|
      ensures RecycledEntry(db, es[i]) <==> RecycleBinId(db).Some? && Restorable(db, RecycleBinId(db).value, es[i])
    {
      RecycledIsRestorable(db, es[i]);
    }
    if es != [] && forall e :: e in es ==> RecycledEntry(db, e) {
      assert forall i :: 0 <= i < |es| ==> es[i] in es;
      assert RecycledEntry(db, es[0]);
    }
    if RecycleBinId(db).Some? && forall i :: 0 <= i < |es| ==> Restorable(db, RecycleBinId(db).value, es[i]) {
      forall e | e in es ensures RecycledEntry(db, e) {
        var i :| 0 <= i < |es| && es[i] == e;
      }
    }
  }

  ghost predicate RestoreGroupAs(db: Database, g: Id, now: Time, edit: Edit)
  {
    && (edit == Fails(GroupNotFound) <==> g !in db.groups)
    && (edit == Fails(InvalidRecycleBinOperation) <==> g in db.groups && !RecycledGroup(db, g))
    && (edit.Changes? <==> g in db.groups && RecycledGroup(db, g))
    && (edit.Changes? ==>
          GroupMoved(db, edit.db, g, Home(db, db.meta.recycleBinUuid.value, db.groups[g].previousParent), now))
  }

  lemma RestoreGroupExactly(db: Database, g: Id, now: Time)
    requires ValidTree(db)
    ensures RestoreGroupAs(db, g, now, RestoreGroupEdit(db, g, now))
  {
    if g in db.groups {
      RecycledIsInside(db, g);
      if RecycledGroup(db, g) {
        RestoreGroupNeverRefused(db, g, now);
        TargetIsHome(db, db.meta.recycleBinUuid.value, db.groups[g].previousParent);
        GroupPlacedExactly(db, g, Home(db, db.meta.recycleBinUuid.value, db.groups[g].previousParent), now);
      }
    }
  }

  // ---------------------------------------------------------------- permanent deletion

  ghost predicate DeleteEntryAs(db: Database, e: Id, now: Time, edit: Edit)
  {
    && (edit == Fails(EntryNotFound) <==> e !in db.entries) && (edit.Changes? <==> e in db.entries)
    && (edit.Changes? ==> Deleted(db, edit.db, {e}, now) && KeepsOrder(db, edit.db))
  }

  lemma DeleteEntryExactly(db: Database, e: Id, now: Time)
    requires ValidTree(db)
    ensures DeleteEntryAs(db, e, now, DeleteEntryEdit(db, e, now))
  {
    if e in db.entries {
      DeletedExactly(db, e, now);
    }
  }

  ghost predicate DeleteRecycledEntryAs(db: Database, e: Id, now: Time, edit: Edit)
  {
    && (edit == Fails(EntryNotFound) <==> e !in db.entries)
    && (edit == Fails(InvalidRecycleBinOperation) <==> e in db.entries && !RecycledEntry(db, e))
    && (edit.Changes? <==> RecycledEntry(db, e))
    && (edit.Changes? ==> Deleted(db, edit.db, {e}, now) && KeepsOrder(db, edit.db))
  }

  lemma DeleteRecycledEntryExactly(db: Database, e: Id, now: Time)
    requires ValidTree(db)
    ensures DeleteRecycledEntryAs(db, e, now, DeleteRecycledEntryEdit(db, e, now))
  {
    if e in db.entries {
      RecycledIsRestorable(db, e);
      DeletedExactly(db, e, now);
    }
  }

  /** A batch of deletions: an entry named twice is not found the second time. */
  ghost predicate DeleteRecycledEntriesAs(db: Database, es: seq<Id>, now: Time, edit: Edit)
  {
    && (edit == Same <==> es == [])
    && (edit == Fails(EntryNotFound) <==>
          (exists e :: e in es && e !in db.entries) || ((forall e :: e in es ==> RecycledEntry(db, e)) && !NoDup(es)))
    && (edit == Fails(InvalidRecycleBinOperation) <==>
          (forall e :: e in es ==> e in db.entries) && exists e :: e in es && !RecycledEntry(db, e))
    && (edit.Changes? <==> es != [] && NoDup(es) && forall e :: e in es ==> RecycledEntry(db, e))
    && (edit.Changes? ==> Deleted(db, edit.db, Elements(es), now) && KeepsOrder(db, edit.db))
  }

  lemma DeleteRecycledEntriesExactly(db: Database, es: seq<Id>, now: Time)
    requires ValidTree(db)
    ensures DeleteRecycledEntriesAs(db, es, now, DeleteRecycledEntriesEdit(db, es, now))
  {
    FoundIsIn(db, es);
    if AllFound(db, es) {
      AllRecycled(db, es);
      DeleteAllFails(db, es, now);
      if DeleteAll(db, es, now).Changes? {
        DeleteAllExactly(db, es, now);
      }
    }
  }

  ghost predicate DeleteGroupAs(db: Database, g: Id, now: Time, edit: Edit)
  {
    && (edit == Fails(GroupNotFound) <==> g !in db.groups)
    && (edit == Fails(CannotDeleteRootGroup) <==> g == db.root)
    && (edit.Changes? <==> g in db.groups && g != db.root)
    && (edit.Changes? ==> SubtreeDeleted(db, edit.db, g, now))
  }

  lemma DeleteGroupExactly(db: Database, g: Id, now: Time)
    requires ValidTree(db)
    ensures DeleteGroupAs(db, g, now, DeleteGroupEdit(db, g, now))
  {
    if g in db.groups && g != db.root {
      SubtreeDeletedExactly(db, g, now);
    }
  }

  ghost predicate DeleteRecycledGroupAs(db: Database, g: Id, now: Time, edit: Edit)
  {
    && (edit == Fails(GroupNotFound) <==> g !in db.groups)
    && (edit == Fails(InvalidRecycleBinOperation) <==> g in db.groups && !RecycledGroup(db, g))
    && (edit.Changes? <==> g in db.groups && RecycledGroup(db, g))
    && (edit.Changes? ==> SubtreeDeleted(db, edit.db, g, now))
  }

  lemma DeleteRecycledGroupExactly(db: Database, g: Id, now: Time)
    requires ValidTree(db)
    ensures DeleteRecycledGroupAs(db, g, now, DeleteRecycledGroupEdit(db, g, now))
  {
    if g in db.groups {
      RecycledIsInside(db, g);
      if RecycledGroup(db, g) {
        RootNotStrictlyInside(db, g);
        SubtreeDeletedExactly(db, g, now);
      }
    }
  }

  lemma RootNotStrictlyInside(db: Database, g: Id)
    requires ValidTree(db) && g in db.groups && RecycledGroup(db, g)
    ensures g != db.root
  {
    SubtreeStep(db.groups, g, db.meta.recycleBinUuid.value);
  }

  // ---------------------------------------------------------------- fields and their history

  /** The request asks for what is there already: the same text, or none of a missing field. */
  predicate Idle(fields: map<string, Value>, name: string, update: FieldUpdate)
  {
    update.text == if name in fields then fields[name].text else ""
  }

  /** What a field is after the requests: its new text, protected as it was or, if new, as asked. */
  function Updated(fields: map<string, Value>, updates: map<string, FieldUpdate>, name: string): (r: Option<Value>)
  {
    if name !in updates || Idle(fields, name, updates[name]) then Lookup(fields, name)
    else if name in fields then Some(Value(updates[name].text, fields[name].secret))
    else Some(Value(updates[name].text, updates[name].secret))
  }

  /** One tracked edit: all fields at once, and the state before it becomes the newest revision, as far
      as the limit leaves room. */
  ghost predicate UpdateFieldsAs(db: Database, e: Id, updates: map<string, FieldUpdate>, now: Time, edit: Edit)
  {
    && (edit == Fails(EntryNotFound) <==> e !in db.entries)
    && (edit == Same <==>
          e in db.entries && forall name :: name in updates ==> Idle(db.entries[e].state.fields, name, updates[name]))
    && (edit.Changes? <==>
          e in db.entries && exists name :: name in updates && !Idle(db.entries[e].state.fields, name, updates[name]))
    && (edit.Changes? ==>
          && SameTables(db, edit.db) && edit.db.groups == db.groups && edit.db.entries.Keys == db.entries.Keys
          && e in db.entries && (forall x :: x in db.entries && x != e ==> edit.db.entries[x] == db.entries[x])
          && FieldsUpdated(db.entries[e], edit.db.entries[e], updates, FiniteLimit(db.meta), now))
  }

  lemma UpdateFieldsExactly(db: Database, e: Id, updates: map<string, FieldUpdate>, now: Time)
    ensures UpdateFieldsAs(db, e, updates, now, UpdateFieldsEdit(db, e, updates, now))
  {
    if e in db.entries {
      RealUpdatesExactly(db.entries[e].state.fields, updates);
    }
  }

  lemma RealUpdatesExactly(fields: map<string, Value>, updates: map<string, FieldUpdate>)
    ensures RealUpdates(fields, updates) == map[] <==>
              forall name :: name in updates ==> Idle(fields, name, updates[name])
    ensures forall name :: Lookup(fields + RealUpdates(fields, updates), name) == Updated(fields, updates, name)
  {
    var changed := RealUpdates(fields, updates);
    assert forall name :: name in changed <==> name in updates && !Idle(fields, name, updates[name]);
  }

  ghost predicate FieldsUpdated(x: Entry, y: Entry, updates: map<string, FieldUpdate>, limit: Option<nat>, now: Time)
  {
    && y.parent == x.parent && y.state.previousParent == x.state.previousParent
    && y.state.attachments == x.state.attachments
    && y.state.props == x.state.props && y.state.icon == x.state.icon
    && y.state.times == x.state.times.(lastModification := now)
    && (forall name :: Lookup(y.state.fields, name) == Updated(x.state.fields, updates, name))
    && y.history <= [HistoryItem(x.parent, x.state)] + x.history
    && |y.history| == if limit.Some? && limit.value <= |x.history| then limit.value else |x.history| + 1
  }

  // ---------------------------------------------------------------- the history limit

  /** The limit in force afterwards is the one asked for, and every history is cut to it. */
  ghost predicate SetHistoryMaxAs(db: Database, limit: Option<nat>, edit: Edit)
  {
    && (edit == Same <==> FiniteLimit(db.meta) == limit)
    && (edit == Fails(InvalidHistoryPolicy) <==> FiniteLimit(db.meta) != limit && limit.Some? && limit.value > 10_000)
    && (edit.Changes? <==> FiniteLimit(db.meta) != limit && (limit.Some? ==> limit.value <= 10_000))
    && (edit.Changes? ==>
          && FiniteLimit(edit.db.meta) == limit
          && edit.db.meta.recycleBinEnabled == db.meta.recycleBinEnabled
          && edit.db.meta.recycleBinUuid == db.meta.recycleBinUuid && edit.db.meta.customData == db.meta.customData
          && edit.db.groups == db.groups && edit.db.root == db.root && edit.db.icons == db.icons
          && edit.db.deleted == db.deleted && edit.db.entries.Keys == db.entries.Keys
          && forall e :: e in db.entries ==>
               && edit.db.entries[e].parent == db.entries[e].parent && edit.db.entries[e].state == db.entries[e].state
               && edit.db.entries[e].history <= db.entries[e].history
               && |edit.db.entries[e].history| ==
                    if limit.Some? && limit.value < |db.entries[e].history| then limit.value else |db.entries[e].history|)
  }

  lemma SetHistoryMaxExactly(db: Database, limit: Option<nat>)
    ensures SetHistoryMaxAs(db, limit, SetHistoryMaxEdit(db, limit))
  {
  }

  // ---------------------------------------------------------------- every call

  ghost predicate DoneAs(db: Database, call: Call, edit: Edit)
    requires db.root in db.groups && call.newId !in db.groups
  {
    match call.op
    case MoveEntryOp(e, dest) => MoveEntryAs(db, e, dest, call.now, edit)
    case MoveGroupOp(g, dest) => MoveGroupAs(db, g, dest, call.now, edit)
    case TrashEntryOp(e) => TrashEntryAs(db, e, call.newId, call.now, edit)
    case RestoreEntryOp(e) => RestoreEntryAs(db, e, call.now, edit)
    case TrashGroupOp(g) => TrashGroupAs(db, g, call.newId, call.now, edit)
    case RestoreGroupOp(g) => RestoreGroupAs(db, g, call.now, edit)
    case DeleteEntryOp(e) => DeleteEntryAs(db, e, call.now, edit)
    case DeleteGroupOp(g) => DeleteGroupAs(db, g, call.now, edit)
    case DeleteRecycledEntryOp(e) => DeleteRecycledEntryAs(db, e, call.now, edit)
    case DeleteRecycledGroupOp(g) => DeleteRecycledGroupAs(db, g, call.now, edit)
    case MoveEntriesOp(es, dest) => MoveEntriesAs(db, es, dest, call.now, edit)
    case TrashEntriesOp(es) => TrashEntriesAs(db, es, call.newId, call.now, edit)
    case RestoreEntriesOp(es) => RestoreEntriesAs(db, es, call.now, edit)
    case DeleteRecycledEntriesOp(es) => DeleteRecycledEntriesAs(db, es, call.now, edit)
    case UpdateFieldsOp(e, updates) => UpdateFieldsAs(db, e, updates, call.now, edit)
    case SetHistoryMaxOp(limit) => SetHistoryMaxAs(db, limit, edit)
  }

  /** Every call on a valid tree does what the predicates above say of it, and nothing else. */
  lemma EveryCallExactly(db: Database, call: Call)
    requires ValidTree(db) && call.newId !in db.groups
    ensures DoneAs(db, call, EditOf(db, call))
  {
    match call.op
    case MoveEntryOp(e, dest) => MoveEntryExactly(db, e, dest, call.now);
    case MoveGroupOp(g, dest) => MoveGroupExactly(db, g, dest, call.now);
    case TrashEntryOp(e) => TrashEntryExactly(db, e, call.newId, call.now);
    case RestoreEntryOp(e) => RestoreEntryExactly(db, e, call.now);
    case TrashGroupOp(g) => TrashGroupExactly(db, g, call.newId, call.now);
    case RestoreGroupOp(g) => RestoreGroupExactly(db, g, call.now);
    case DeleteEntryOp(e) => DeleteEntryExactly(db, e, call.now);
    case DeleteGroupOp(g) => DeleteGroupExactly(db, g, call.now);
    case DeleteRecycledEntryOp(e) => DeleteRecycledEntryExactly(db, e, call.now);
    case DeleteRecycledGroupOp(g) => DeleteRecycledGroupExactly(db, g, call.now);
    case MoveEntriesOp(es, dest) => MoveEntriesExactly(db, es, dest, call.now);
    case TrashEntriesOp(es) => TrashEntriesExactly(db, es, call.newId, call.now);
    case RestoreEntriesOp(es) => RestoreEntriesExactly(db, es, call.now);
    case DeleteRecycledEntriesOp(es) => DeleteRecycledEntriesExactly(db, es, call.now);
    case UpdateFieldsOp(e, updates) => UpdateFieldsExactly(db, e, updates, call.now);
    case SetHistoryMaxOp(limit) => SetHistoryMaxExactly(db, limit);
  }
}

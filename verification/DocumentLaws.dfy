/** Laws of the document state machine: valid trees, conserved identities, batches as sequences. */
module DocumentLaws {
  import opened Vault
  import opened TreeOps
  import opened TreeLemmas
  import opened HistoryPolicy
  import opened DocumentSpec

  // ---------------------------------------------------------------- every edit keeps a valid vault

  /** Same identities and icons: only places, lists and stamps may differ. */
  ghost predicate SameObjects(a: Database, b: Database)
  {
    && a.groups.Keys == b.groups.Keys && a.entries.Keys == b.entries.Keys
    && a.icons == b.icons && a.deleted == b.deleted && a.root == b.root
    && (forall g :: g in a.groups ==> a.groups[g].icon == b.groups[g].icon)
    && (forall e :: e in a.entries ==>
          a.entries[e].state.icon == b.entries[e].state.icon && a.entries[e].history == b.entries[e].history)
  }

  lemma SameObjectsValid(a: Database, b: Database)
    requires Valid(a) && SameObjects(a, b) && ValidTree(b)
    ensures Valid(b)
  {
    forall e | e in b.entries ensures EntryIconsResolve(b.icons.Keys, b.entries[e]) {
      assert EntryIconsResolve(a.icons.Keys, a.entries[e]);
    }
  }

  lemma StampedEntryTree(db: Database, e: Id, now: Time)
    requires ValidTree(db) && e in db.entries
    ensures ValidTree(StampEntry(db, e, now))
  {
    SameShapeTree(db, StampEntry(db, e, now));
  }

  lemma StampedGroupTree(db: Database, g: Id, now: Time)
    requires ValidTree(db) && g in db.groups
    ensures ValidTree(StampGroup(db, g, now))
  {
    SameShapeTree(db, StampGroup(db, g, now));
  }

  lemma PlacedEntryValid(db: Database, e: Id, dest: Id, now: Time)
    requires Valid(db) && e in db.entries && dest in db.groups
    ensures Valid(OutOfBin(db, e, dest, now)) && SameObjects(db, OutOfBin(db, e, dest, now))
  {
    MovedEntryValid(db, e, dest);
    StampedEntryTree(MoveEntry(db, e, dest).db, e, now);
    SameObjectsValid(db, OutOfBin(db, e, dest, now));
  }

  lemma PlacedGroupValid(db: Database, g: Id, dest: Id, now: Time)
    requires Valid(db) && g in db.groups && MoveGroup(db, g, dest).Moved?
    ensures Valid(StampGroup(MoveGroup(db, g, dest).db, g, now))
    ensures SameObjects(db, StampGroup(MoveGroup(db, g, dest).db, g, now))
  {
    MovedGroupValid(db, g, dest);
    StampedGroupTree(MoveGroup(db, g, dest).db, g, now);
    SameObjectsValid(db, StampGroup(MoveGroup(db, g, dest).db, g, now));
  }

  ghost predicate Unused(db: Database, id: Id)
  {
    id !in db.groups && id !in db.entries && id !in db.icons && id !in db.deleted
  }

  lemma BinTree(db: Database, newId: Id)
    requires ValidTree(db) && newId !in db.groups && EnsureRecycleBin(db, newId).Bin?
    ensures ValidTree(EnsureRecycleBin(db, newId).db)
    ensures EnsureRecycleBin(db, newId).id in EnsureRecycleBin(db, newId).db.groups
    ensures EnsureRecycleBin(db, newId).db.entries == db.entries
    ensures db.groups.Keys <= EnsureRecycleBin(db, newId).db.groups.Keys
  {
    if RecycleBinId(db).None? {
      AddedGroupValid(db, db.root, newId, NewBin(db.root));
      SameShapeTree(AddGroup(db, db.root, newId, NewBin(db.root)), EnsureRecycleBin(db, newId).db);
    }
  }

  lemma BinValid(db: Database, newId: Id)
    requires Valid(db) && Unused(db, newId) && EnsureRecycleBin(db, newId).Bin?
    ensures var r := EnsureRecycleBin(db, newId);
            && Valid(r.db) && r.id in r.db.groups && RecycleBinId(r.db) == Some(r.id)
            && r.db.entries == db.entries && r.db.deleted == db.deleted && r.db.root == db.root
            && db.groups.Keys <= r.db.groups.Keys <= db.groups.Keys + {newId}
  {
    if RecycleBinId(db).None? {
      AddedGroupValid(db, db.root, newId, NewBin(db.root));
      var r := EnsureRecycleBin(db, newId).db;
      SameShapeTree(AddGroup(db, db.root, newId, NewBin(db.root)), r);
    }
  }

  /** Every identity that a vault has or remembers having had. */
  function Known(db: Database): (r: set<Id>)
  {
    db.groups.Keys + db.entries.Keys + db.deleted.Keys
  }

  lemma DeletedEntryValid(db: Database, e: Id, now: Time)
    requires Valid(db) && e in db.entries
    ensures Valid(DeleteEntryEdit(db, e, now).db) && Known(DeleteEntryEdit(db, e, now).db) == Known(db)
  {
    var after := DeleteEntryEdit(db, e, now).db;
    RemovedEntryValid(db, e);
    SameShapeTree(RemoveEntry(db, e), after);
    assert after.groups.Keys == db.groups.Keys;
    forall x | x in after.entries ensures EntryIconsResolve(after.icons.Keys, after.entries[x]) {
      assert EntryIconsResolve(db.icons.Keys, db.entries[x]);
    }
  }

  /** A permanent group deletion removes exactly the subtree and tombstones every removed identity. */
  lemma DeletedGroupSets(db: Database, g: Id, now: Time)
    requires ValidTree(db) && g in db.groups && g != db.root
    ensures var after := DeleteGroupEdit(db, g, now).db;
            && (forall x :: x in after.groups <==> x in db.groups && !InSubtree(db.groups, x, g))
            && (forall e :: e in after.entries <==> e in db.entries && !InSubtree(db.groups, db.entries[e].parent, g))
            && after.deleted.Keys == db.deleted.Keys + (db.groups.Keys - after.groups.Keys) + (db.entries.Keys - after.entries.Keys)
  {
    var after := DeleteGroupEdit(db, g, now).db;
    var cut := RemoveGroup(db, g);
    RemovedIsCut(db, g);
    BelowIsSubtree(db, g);
    assert after.groups == cut.groups && after.entries == cut.entries;
    assert Below(db.groups, g) == db.groups.Keys - cut.groups.Keys;
    assert EntriesIn(db, Below(db.groups, g)) == db.entries.Keys - cut.entries.Keys;
  }

  lemma DeletedGroupValid(db: Database, g: Id, now: Time)
    requires Valid(db) && g in db.groups && g != db.root
    ensures Valid(DeleteGroupEdit(db, g, now).db) && Known(DeleteGroupEdit(db, g, now).db) == Known(db)
  {
    var after := DeleteGroupEdit(db, g, now).db;
    DeletedGroupTree(db, g, now);
    DeletedGroupSets(db, g, now);
    ShrunkValid(db, after);
  }

  lemma DeletedGroupTree(db: Database, g: Id, now: Time)
    requires ValidTree(db) && IconsResolve(db) && g in db.groups && g != db.root
    ensures ValidTree(DeleteGroupEdit(db, g, now).db) && IconsResolve(DeleteGroupEdit(db, g, now).db)
  {
    RemovedGroupValid(db, g);
    SameShapeTree(RemoveGroup(db, g), DeleteGroupEdit(db, g, now).db);
    RemovedIsCut(db, g);
    CutIconsResolve(db, g, RemoveGroup(db, g));
  }

  lemma ShrunkIds(db: Database, after: Database)
    requires DistinctIds(db) && after.icons == db.icons
    requires after.groups.Keys <= db.groups.Keys && after.entries.Keys <= db.entries.Keys
    requires after.deleted.Keys == db.deleted.Keys + (db.groups.Keys - after.groups.Keys) + (db.entries.Keys - after.entries.Keys)
    ensures DistinctIds(after) && Known(after) == Known(db)
  {
  }

  lemma ShrunkValid(db: Database, after: Database)
    requires Valid(db) && ValidTree(after) && IconsResolve(after) && after.icons == db.icons
    requires after.groups.Keys <= db.groups.Keys && after.entries.Keys <= db.entries.Keys
    requires after.deleted.Keys == db.deleted.Keys + (db.groups.Keys - after.groups.Keys) + (db.entries.Keys - after.entries.Keys)
    ensures Valid(after) && Known(after) == Known(db)
  {
    ShrunkIds(db, after);
  }

  lemma CutIconsResolve(db: Database, g: Id, after: Database)
    requires IconsResolve(db) && Cut(db, g, after) && after.icons == db.icons
    ensures IconsResolve(after)
  {
    forall x | x in after.entries ensures EntryIconsResolve(after.icons.Keys, after.entries[x]) {
      assert EntryIconsResolve(db.icons.Keys, db.entries[x]);
    }
  }

  // ---------------------------------------------------------------- batches

  lemma {:induction false} MoveAllValid(c: Database, es: seq<Id>, dest: Id, now: Time)
    requires Valid(c) && AllFound(c, es) && dest in c.groups
    ensures Valid(MoveAll(c, es, dest, now)) && SameObjects(c, MoveAll(c, es, dest, now))
    decreases es
  {
    if es != [] {
      PlacedEntryValid(c, es[0], dest, now);
      MoveAllValid(After(c, MoveEntryEdit(c, es[0], dest, now)), es[1..], dest, now);
    }
  }

  lemma {:induction false} TrashAllValid(c: Database, bin: Id, es: seq<Id>, now: Time)
    requires Valid(c) && AllFound(c, es) && bin in c.groups
    ensures Valid(TrashAll(c, bin, es, now)) && SameObjects(c, TrashAll(c, bin, es, now))
    decreases es
  {
    if es != [] {
      PlacedEntryValid(c, es[0], bin, now);
      TrashAllValid(IntoBin(c, bin, es[0], now), bin, es[1..], now);
    }
  }

  lemma SameObjectsTwice(a: Database, b: Database, c: Database)
    requires SameObjects(a, b) && SameObjects(b, c)
    ensures SameObjects(a, c)
  {
  }

  lemma {:induction false} RestoreAllValid(c: Database, origin: Database, bin: Id, es: seq<Id>, now: Time)
    requires Valid(c) && AllFound(c, es) && AllFound(origin, es) && origin.root in c.groups
    requires origin.groups.Keys == c.groups.Keys
    ensures Valid(RestoreAll(c, origin, bin, es, now)) && SameObjects(c, RestoreAll(c, origin, bin, es, now))
    decreases es
  {
    if es != [] {
      var dest := RestoreTarget(origin, bin, origin.entries[es[0]].state.previousParent);
      PlacedEntryValid(c, es[0], dest, now);
      var next := OutOfBin(c, es[0], dest, now);
      RestoreAllValid(next, origin, bin, es[1..], now);
      SameObjectsTwice(c, next, RestoreAll(c, origin, bin, es, now));
    }
  }

  lemma {:induction false} DeleteAllValid(c: Database, es: seq<Id>, now: Time)
    requires Valid(c)
    ensures DeleteAll(c, es, now).Changes? ==>
              Valid(DeleteAll(c, es, now).db) && Known(DeleteAll(c, es, now).db) == Known(c)
    decreases es
  {
    if es != [] && es[0] in c.entries {
      DeletedEntryValid(c, es[0], now);
      DeleteAllValid(DeleteEntryEdit(c, es[0], now).db, es[1..], now);
    }
  }

  // ---------------------------------------------------------------- runs

  datatype Op =
    | MoveEntryOp(e: Id, dest: Id) | MoveGroupOp(g: Id, dest: Id)
    | TrashEntryOp(e: Id) | RestoreEntryOp(e: Id) | TrashGroupOp(g: Id) | RestoreGroupOp(g: Id)
    | DeleteEntryOp(e: Id) | DeleteGroupOp(g: Id) | DeleteRecycledEntryOp(e: Id) | DeleteRecycledGroupOp(g: Id)
    | MoveEntriesOp(es: seq<Id>, dest: Id) | TrashEntriesOp(es: seq<Id>) | RestoreEntriesOp(es: seq<Id>)
    | DeleteRecycledEntriesOp(es: seq<Id>)
    | UpdateFieldsOp(e: Id, updates: map<string, FieldUpdate>) | SetHistoryMaxOp(limit: Option<nat>)

  /** One call, with the identity and the clock reading it would use. */
  datatype Call = Call(op: Op, newId: Id, now: Time)

  function EditOf(db: Database, call: Call): (r: Edit)
    requires db.root in db.groups && call.newId !in db.groups
  {
    match call.op
    case MoveEntryOp(e, dest) => MoveEntryEdit(db, e, dest, call.now)
    case MoveGroupOp(g, dest) => MoveGroupEdit(db, g, dest, call.now)
    case TrashEntryOp(e) => TrashEntryEdit(db, e, call.newId, call.now)
    case RestoreEntryOp(e) => RestoreEntryEdit(db, e, call.now)
    case TrashGroupOp(g) => TrashGroupEdit(db, g, call.newId, call.now)
    case RestoreGroupOp(g) => RestoreGroupEdit(db, g, call.now)
    case DeleteEntryOp(e) => DeleteEntryEdit(db, e, call.now)
    case DeleteGroupOp(g) => DeleteGroupEdit(db, g, call.now)
    case DeleteRecycledEntryOp(e) => DeleteRecycledEntryEdit(db, e, call.now)
    case DeleteRecycledGroupOp(g) => DeleteRecycledGroupEdit(db, g, call.now)
    case MoveEntriesOp(es, dest) => MoveEntriesEdit(db, es, dest, call.now)
    case TrashEntriesOp(es) => TrashEntriesEdit(db, es, call.newId, call.now)
    case RestoreEntriesOp(es) => RestoreEntriesEdit(db, es, call.now)
    case DeleteRecycledEntriesOp(es) => DeleteRecycledEntriesEdit(db, es, call.now)
    case UpdateFieldsOp(e, updates) => UpdateFieldsEdit(db, e, updates, call.now)
    case SetHistoryMaxOp(limit) => SetHistoryMaxEdit(db, limit)
  }

  /** What one step keeps: a valid vault, every known identity, and at most one new identity. */
  ghost predicate Kept(db: Database, after: Database, newId: Id)
  {
    Valid(after) && Known(db) <= Known(after) && Known(after) <= Known(db) + {newId}
  }

  /** A change, if the edit makes one, keeps all that. */
  ghost predicate EditKept(db: Database, edit: Edit, newId: Id)
  {
    forall after :: edit == Changes(after) ==> Kept(db, after, newId)
  }

  lemma SameObjectsKept(db: Database, after: Database, newId: Id)
    requires Valid(after) && SameObjects(db, after)
    ensures Kept(db, after, newId)
  {
  }

  lemma MoveEntryKept(db: Database, e: Id, dest: Id, now: Time, newId: Id)
    requires Valid(db)
    ensures EditKept(db, MoveEntryEdit(db, e, dest, now), newId)
  {
    var edit := MoveEntryEdit(db, e, dest, now);
    if edit.Changes? {
      PlacedEntryValid(db, e, dest, now);
      SameObjectsKept(db, edit.db, newId);
    }
  }

  lemma RestoreEntryKept(db: Database, e: Id, now: Time, newId: Id)
    requires Valid(db)
    ensures EditKept(db, RestoreEntryEdit(db, e, now), newId)
  {
    var edit := RestoreEntryEdit(db, e, now);
    if edit.Changes? {
      PlacedEntryValid(db, e, RestoreTarget(db, RecycleBinId(db).value, db.entries[e].state.previousParent), now);
      SameObjectsKept(db, edit.db, newId);
    }
  }

  lemma MoveEntriesKept(db: Database, es: seq<Id>, dest: Id, now: Time, newId: Id)
    requires Valid(db)
    ensures EditKept(db, MoveEntriesEdit(db, es, dest, now), newId)
  {
    var edit := MoveEntriesEdit(db, es, dest, now);
    if edit.Changes? {
      MoveAllValid(db, es, dest, now);
      SameObjectsKept(db, edit.db, newId);
    }
  }

  lemma RestoreEntriesKept(db: Database, es: seq<Id>, now: Time, newId: Id)
    requires Valid(db)
    ensures EditKept(db, RestoreEntriesEdit(db, es, now), newId)
  {
    var edit := RestoreEntriesEdit(db, es, now);
    if edit.Changes? {
      RestoreAllValid(db, db, RecycleBinId(db).value, es, now);
      SameObjectsKept(db, edit.db, newId);
    }
  }

  /** The bin step and the moves into it compose. */
  lemma ThroughBinKept(db: Database, c: Database, after: Database, newId: Id)
    requires Valid(after) && SameObjects(c, after) && c.entries == db.entries && c.deleted == db.deleted
    requires db.groups.Keys <= c.groups.Keys <= db.groups.Keys + {newId}
    ensures Kept(db, after, newId)
  {
  }

  lemma TrashEntryKept(db: Database, e: Id, newId: Id, now: Time)
    requires Valid(db) && Unused(db, newId)
    ensures EditKept(db, TrashEntryEdit(db, e, newId, now), newId)
  {
    var edit := TrashEntryEdit(db, e, newId, now);
    if edit.Changes? {
      BinValid(db, newId);
      var r := EnsureRecycleBin(db, newId);
      PlacedEntryValid(r.db, e, r.id, now);
      ThroughBinKept(db, r.db, edit.db, newId);
    }
  }

  lemma TrashEntriesKept(db: Database, es: seq<Id>, newId: Id, now: Time)
    requires Valid(db) && Unused(db, newId)
    ensures EditKept(db, TrashEntriesEdit(db, es, newId, now), newId)
  {
    var edit := TrashEntriesEdit(db, es, newId, now);
    if edit.Changes? {
      BinValid(db, newId);
      var r := EnsureRecycleBin(db, newId);
      TrashAllValid(r.db, r.id, es, now);
      ThroughBinKept(db, r.db, edit.db, newId);
    }
  }

  lemma TrashGroupKept(db: Database, g: Id, newId: Id, now: Time)
    requires Valid(db) && Unused(db, newId)
    ensures EditKept(db, TrashGroupEdit(db, g, newId, now), newId)
  {
    var edit := TrashGroupEdit(db, g, newId, now);
    if edit.Changes? {
      BinValid(db, newId);
      var r := EnsureRecycleBin(db, newId);
      PlacedGroupValid(r.db, g, r.id, now);
      ThroughBinKept(db, r.db, edit.db, newId);
    }
  }

  lemma SameKnownKept(db: Database, after: Database, newId: Id)
    requires Valid(after) && Known(after) == Known(db)
    ensures Kept(db, after, newId)
  {
  }

  lemma DeleteEntryKept(db: Database, e: Id, now: Time, newId: Id)
    requires Valid(db)
    ensures EditKept(db, DeleteEntryEdit(db, e, now), newId)
  {
    var edit := DeleteEntryEdit(db, e, now);
    if edit.Changes? {
      DeletedEntryValid(db, e, now);
      SameKnownKept(db, edit.db, newId);
    }
  }

  lemma DeleteRecycledEntryKept(db: Database, e: Id, now: Time, newId: Id)
    requires Valid(db)
    ensures EditKept(db, DeleteRecycledEntryEdit(db, e, now), newId)
  {
    var edit := DeleteRecycledEntryEdit(db, e, now);
    if edit.Changes? {
      DeletedEntryValid(db, e, now);
      SameKnownKept(db, edit.db, newId);
    }
  }

  lemma DeleteRecycledEntriesKept(db: Database, es: seq<Id>, now: Time, newId: Id)
    requires Valid(db)
    ensures EditKept(db, DeleteRecycledEntriesEdit(db, es, now), newId)
  {
    var edit := DeleteRecycledEntriesEdit(db, es, now);
    if edit.Changes? {
      DeleteAllValid(db, es, now);
      SameKnownKept(db, edit.db, newId);
    }
  }

  lemma DeleteGroupKept(db: Database, g: Id, now: Time, newId: Id)
    requires Valid(db)
    ensures EditKept(db, DeleteGroupEdit(db, g, now), newId)
  {
    var edit := DeleteGroupEdit(db, g, now);
    if edit.Changes? {
      DeletedGroupValid(db, g, now);
      SameKnownKept(db, edit.db, newId);
    }
  }

  lemma DeleteRecycledGroupKept(db: Database, g: Id, now: Time, newId: Id)
    requires Valid(db)
    ensures EditKept(db, DeleteRecycledGroupEdit(db, g, now), newId)
  {
    var edit := DeleteRecycledGroupEdit(db, g, now);
    if edit.Changes? {
      DeletedGroupValid(db, g, now);
      SameKnownKept(db, edit.db, newId);
    }
  }

  lemma MoveGroupKept(db: Database, g: Id, dest: Id, now: Time, newId: Id)
    requires Valid(db)
    ensures EditKept(db, MoveGroupEdit(db, g, dest, now), newId)
  {
    var edit := MoveGroupEdit(db, g, dest, now);
    if edit.Changes? {
      PlacedGroupValid(db, g, dest, now);
      SameObjectsKept(db, edit.db, newId);
    }
  }

  lemma RestoreGroupKept(db: Database, g: Id, now: Time, newId: Id)
    requires Valid(db)
    ensures EditKept(db, RestoreGroupEdit(db, g, now), newId)
  {
    var edit := RestoreGroupEdit(db, g, now);
    if edit.Changes? {
      PlacedGroupValid(db, g, RestoreTarget(db, RecycleBinId(db).value, db.groups[g].previousParent), now);
      SameObjectsKept(db, edit.db, newId);
    }
  }

  lemma FieldUpdateKept(db: Database, e: Id, updates: map<string, FieldUpdate>, now: Time, newId: Id)
    requires Valid(db)
    ensures EditKept(db, UpdateFieldsEdit(db, e, updates, now), newId)
  {
    if UpdateFieldsEdit(db, e, updates, now).Changes? {
      var after := UpdateFieldsEdit(db, e, updates, now).db;
      SameShapeTree(db, after);
      UpdatedIcons(db, after, e);
    }
  }

  lemma UpdatedIcons(db: Database, after: Database, e: Id)
    requires IconsResolve(db) && e in db.entries && e in after.entries && after.groups == db.groups
    requires after.icons == db.icons
    requires after.entries == db.entries[e := after.entries[e]]
    requires after.entries[e].state.icon == db.entries[e].state.icon
    requires after.entries[e].history <= [HistoryItem(db.entries[e].parent, db.entries[e].state)] + db.entries[e].history
    ensures IconsResolve(after)
  {
    forall x | x in after.entries ensures EntryIconsResolve(after.icons.Keys, after.entries[x]) {
      assert EntryIconsResolve(db.icons.Keys, db.entries[x]);
      if x == e {
        var all := [HistoryItem(db.entries[e].parent, db.entries[e].state)] + db.entries[e].history;
        forall i | 0 <= i < |after.entries[e].history|
          ensures IconResolves(db.icons.Keys, after.entries[e].history[i].state.icon)
        {
          assert after.entries[e].history[i] == all[i];
        }
      }
    }
  }

  lemma HistoryLimitKept(db: Database, limit: Option<nat>, newId: Id)
    requires Valid(db)
    ensures EditKept(db, SetHistoryMaxEdit(db, limit), newId)
  {
    if SetHistoryMaxEdit(db, limit).Changes? {
      var after := SetHistoryMaxEdit(db, limit).db;
      var relabelled := db.(meta := after.meta);
      SameShapeTree(db, relabelled);
      assert Valid(relabelled);
      PrunedValid(limit, relabelled);
      assert after == Pruned(limit, relabelled) && after.entries.Keys == db.entries.Keys;
    }
  }

  lemma TrashKept(db: Database, call: Call)
    requires Valid(db) && Unused(db, call.newId)
    requires call.op.TrashEntryOp? || call.op.TrashEntriesOp? || call.op.TrashGroupOp?
    ensures EditKept(db, EditOf(db, call), call.newId)
  {
    match call.op
    case TrashEntryOp(e) => TrashEntryKept(db, e, call.newId, call.now);
    case TrashEntriesOp(es) => TrashEntriesKept(db, es, call.newId, call.now);
    case TrashGroupOp(g) => TrashGroupKept(db, g, call.newId, call.now);
  }

  lemma DeleteKept(db: Database, call: Call)
    requires Valid(db) && Unused(db, call.newId)
    requires call.op.DeleteEntryOp? || call.op.DeleteRecycledEntryOp? || call.op.DeleteRecycledEntriesOp?
             || call.op.DeleteGroupOp? || call.op.DeleteRecycledGroupOp?
    ensures EditKept(db, EditOf(db, call), call.newId)
  {
    match call.op
    case DeleteEntryOp(e) => DeleteEntryKept(db, e, call.now, call.newId);
    case DeleteRecycledEntryOp(e) => DeleteRecycledEntryKept(db, e, call.now, call.newId);
    case DeleteRecycledEntriesOp(es) => DeleteRecycledEntriesKept(db, es, call.now, call.newId);
    case DeleteGroupOp(g) => DeleteGroupKept(db, g, call.now, call.newId);
    case DeleteRecycledGroupOp(g) => DeleteRecycledGroupKept(db, g, call.now, call.newId);
  }

  /** Every call, successful or not, keeps a valid vault and loses no identity. */
  lemma EveryEditKept(db: Database, call: Call)
    requires Valid(db) && Unused(db, call.newId)
    ensures EditKept(db, EditOf(db, call), call.newId)
  {
    match call.op
    case MoveEntryOp(e, dest) => MoveEntryKept(db, e, dest, call.now, call.newId);
    case RestoreEntryOp(e) => RestoreEntryKept(db, e, call.now, call.newId);
    case MoveEntriesOp(es, dest) => MoveEntriesKept(db, es, dest, call.now, call.newId);
    case RestoreEntriesOp(es) => RestoreEntriesKept(db, es, call.now, call.newId);
    case MoveGroupOp(g, dest) => MoveGroupKept(db, g, dest, call.now, call.newId);
    case RestoreGroupOp(g) => RestoreGroupKept(db, g, call.now, call.newId);
    case UpdateFieldsOp(e, updates) => FieldUpdateKept(db, e, updates, call.now, call.newId);
    case SetHistoryMaxOp(limit) => HistoryLimitKept(db, limit, call.newId);
    case _ =>
      if call.op.TrashEntryOp? || call.op.TrashEntriesOp? || call.op.TrashGroupOp? {
        TrashKept(db, call);
      } else {
        DeleteKept(db, call);
      }
  }

  // ---------------------------------------------------------------- the dirty counter

  const MAX_REVISION: nat := 0xFFFF_FFFF_FFFF_FFFF

  datatype State = State(db: Database, revision: nat, permanentlyDirty: bool)

  function MarkChanged(s: State): (r: State)
  {
    if s.revision >= MAX_REVISION then s.(permanentlyDirty := true) else s.(revision := s.revision + 1)
  }

  predicate HasChangesSince(s: State, saved: nat)
  {
    s.permanentlyDirty || s.revision != saved
  }

  function Apply(s: State, edit: Edit): (r: State)
  {
    if edit.Changes? then MarkChanged(s.(db := edit.db)) else s
  }

  /** A run of calls, each on the document the previous ones left. */
  ghost predicate Admissible(db: Database, calls: seq<Call>)
    decreases calls
  {
    calls != [] ==>
      && db.root in db.groups && Unused(db, calls[0].newId)
      && Admissible(After(db, EditOf(db, calls[0])), calls[1..])
  }

  ghost function Run(s: State, calls: seq<Call>): (r: State)
    requires Admissible(s.db, calls)
    decreases calls
  {
    if calls == [] then s else Run(Apply(s, EditOf(s.db, calls[0])), calls[1..])
  }

  /** Every run of calls keeps a valid rooted tree and never loses an identity. */
  lemma {:induction false} RunKeepsVault(s: State, calls: seq<Call>)
    requires Valid(s.db) && Admissible(s.db, calls)
    ensures Valid(Run(s, calls).db) && Known(s.db) <= Known(Run(s, calls).db)
    decreases calls
  {
    if calls != [] {
      EveryEditKept(s.db, calls[0]);
      RunKeepsVault(Apply(s, EditOf(s.db, calls[0])), calls[1..]);
    }
  }

  /** The counter only grows, and a document once permanently dirty stays so. */
  lemma {:induction false} RunMonotone(s: State, calls: seq<Call>)
    requires Admissible(s.db, calls)
    ensures s.revision <= Run(s, calls).revision && (s.permanentlyDirty ==> Run(s, calls).permanentlyDirty)
    decreases calls
  {
    if calls != [] {
      RunMonotone(Apply(s, EditOf(s.db, calls[0])), calls[1..]);
    }
  }

  /** A document that reports no change since a revision is the document of that revision, whatever
      was called in between and even when the counter has saturated. */
  lemma {:induction false} CleanMeansUnchanged(s: State, calls: seq<Call>)
    requires Admissible(s.db, calls) && !HasChangesSince(Run(s, calls), s.revision)
    ensures Run(s, calls).db == s.db
    decreases calls
  {
    if calls != [] {
      var next := Apply(s, EditOf(s.db, calls[0]));
      RunMonotone(next, calls[1..]);
      CleanMeansUnchanged(next, calls[1..]);
    }
  }

  /** How many calls of the run change the document. */
  ghost function Changing(db: Database, calls: seq<Call>): (n: nat)
    requires Admissible(db, calls)
    decreases calls
  {
    if calls == [] then 0
    else
      var edit := EditOf(db, calls[0]);
      (if edit.Changes? then 1 else 0) + Changing(After(db, edit), calls[1..])
  }

  /** The counter counts exactly the calls that change something, up to the largest number; a document
      then reports a change since a revision if and only if some call has changed it since. */
  lemma {:induction false} DirtyExactly(s: State, calls: seq<Call>)
    requires Admissible(s.db, calls) && s.revision <= MAX_REVISION
    ensures var n, after := s.revision + Changing(s.db, calls), Run(s, calls);
            && after.revision == (if n <= MAX_REVISION then n else MAX_REVISION)
            && (after.permanentlyDirty <==> s.permanentlyDirty || n > MAX_REVISION)
            && (HasChangesSince(after, s.revision) <==> s.permanentlyDirty || Changing(s.db, calls) > 0)
    decreases calls
  {
    if calls != [] {
      DirtyExactly(Apply(s, EditOf(s.db, calls[0])), calls[1..]);
    }
  }

  // ---------------------------------------------------------------- history bound

  /** With a finite limit, no history is longer than the limit. */
  ghost predicate HistoriesWithin(db: Database)
  {
    FiniteLimit(db.meta).Some? ==> forall e :: e in db.entries ==> |db.entries[e].history| <= FiniteLimit(db.meta).value
  }

  lemma UpdateFieldsHistory(db: Database, e: Id, updates: map<string, FieldUpdate>, now: Time)
    requires UpdateFieldsEdit(db, e, updates, now).Changes?
    ensures var after := UpdateFieldsEdit(db, e, updates, now).db;
            && after.entries[e].history <= [HistoryItem(db.entries[e].parent, db.entries[e].state)] + db.entries[e].history
            && |after.entries[e].history| <= |db.entries[e].history| + 1
            && (FiniteLimit(db.meta).Some? ==> |after.entries[e].history| <= FiniteLimit(db.meta).value)
            && (FiniteLimit(db.meta).None? ==> |after.entries[e].history| == |db.entries[e].history| + 1)
            && (forall x :: x in db.entries && x != e ==> after.entries[x] == db.entries[x])
  {
  }

  ghost predicate SameHistories(db: Database, after: Database)
  {
    && after.entries.Keys <= db.entries.Keys
    && after.meta.historyMaxItems == db.meta.historyMaxItems
    && forall e :: e in after.entries ==> after.entries[e].history == db.entries[e].history
  }

  lemma MoveEntryHistories(db: Database, call: Call)
    requires db.root in db.groups && call.newId !in db.groups
    requires call.op.MoveEntryOp? || call.op.RestoreEntryOp?
    ensures SameHistories(db, After(db, EditOf(db, call)))
  {
  }

  lemma TrashEntryHistories(db: Database, call: Call)
    requires db.root in db.groups && call.newId !in db.groups
    requires call.op.TrashEntryOp?
    ensures SameHistories(db, After(db, EditOf(db, call)))
  {
    var e, r := call.op.e, EnsureRecycleBin(db, call.newId);
    if e in db.entries && r.Bin? {
      IntoBinHistories(r.db, r.id, e, call.now);
    }
  }

  lemma IntoBinHistories(c: Database, bin: Id, e: Id, now: Time)
    requires e in c.entries && bin in c.groups
    ensures SameHistories(c, IntoBin(c, bin, e, now))
  {
  }

  lemma DeleteEntryHistories(db: Database, call: Call)
    requires db.root in db.groups && call.newId !in db.groups
    requires call.op.DeleteEntryOp? || call.op.DeleteRecycledEntryOp?
    ensures SameHistories(db, After(db, EditOf(db, call)))
  {
  }

  lemma GroupEditHistories(db: Database, call: Call)
    requires db.root in db.groups && call.newId !in db.groups
    requires call.op.MoveGroupOp? || call.op.TrashGroupOp? || call.op.RestoreGroupOp? || call.op.DeleteGroupOp?
             || call.op.DeleteRecycledGroupOp?
    ensures SameHistories(db, After(db, EditOf(db, call)))
  {
  }

  lemma BatchHistories(db: Database, call: Call)
    requires db.root in db.groups && call.newId !in db.groups
    requires call.op.MoveEntriesOp? || call.op.TrashEntriesOp? || call.op.RestoreEntriesOp?
             || call.op.DeleteRecycledEntriesOp?
    ensures SameHistories(db, After(db, EditOf(db, call)))
  {
    if EditOf(db, call).Changes? {
      match call.op {
        case MoveEntriesOp(es, dest) => MoveAllHistory(db, es, dest, call.now);
        case TrashEntriesOp(es) =>
          var r := EnsureRecycleBin(db, call.newId);
          TrashAllHistory(r.db, r.id, es, call.now);
        case RestoreEntriesOp(es) => RestoreAllHistory(db, db, RecycleBinId(db).value, es, call.now);
        case DeleteRecycledEntriesOp(es) => DeleteAllHistory(db, es, call.now);
      }
    }
  }

  lemma {:induction false} MoveAllHistory(c: Database, es: seq<Id>, dest: Id, now: Time)
    requires AllFound(c, es) && dest in c.groups
    ensures var r := MoveAll(c, es, dest, now);
            SameHistories(c, r) && r.entries.Keys == c.entries.Keys
    decreases es
  {
    if es != [] {
      MoveAllHistory(After(c, MoveEntryEdit(c, es[0], dest, now)), es[1..], dest, now);
    }
  }

  lemma {:induction false} TrashAllHistory(c: Database, bin: Id, es: seq<Id>, now: Time)
    requires AllFound(c, es) && bin in c.groups
    ensures var r := TrashAll(c, bin, es, now);
            SameHistories(c, r) && r.entries.Keys == c.entries.Keys
    decreases es
  {
    if es != [] {
      TrashAllHistory(IntoBin(c, bin, es[0], now), bin, es[1..], now);
    }
  }

  lemma {:induction false} RestoreAllHistory(c: Database, origin: Database, bin: Id, es: seq<Id>, now: Time)
    requires AllFound(c, es) && AllFound(origin, es) && origin.root in c.groups && origin.groups.Keys == c.groups.Keys
    ensures var r := RestoreAll(c, origin, bin, es, now);
            SameHistories(c, r) && r.entries.Keys == c.entries.Keys
    decreases es
  {
    if es != [] {
      var dest := RestoreTarget(origin, bin, origin.entries[es[0]].state.previousParent);
      RestoreAllHistory(OutOfBin(c, es[0], dest, now), origin, bin, es[1..], now);
    }
  }

  lemma {:induction false} DeleteAllHistory(c: Database, es: seq<Id>, now: Time)
    ensures DeleteAll(c, es, now).Changes? ==>
              var r := DeleteAll(c, es, now).db;
              SameHistories(c, r)
    decreases es
  {
    if es != [] && es[0] in c.entries {
      DeleteAllHistory(DeleteEntryEdit(c, es[0], now).db, es[1..], now);
    }
  }

  /** Calls other than the tracked edit and the limit itself touch no history and add no entry. */
  lemma OtherEditHistories(db: Database, call: Call)
    requires db.root in db.groups && call.newId !in db.groups && !call.op.UpdateFieldsOp? && !call.op.SetHistoryMaxOp?
    ensures SameHistories(db, After(db, EditOf(db, call)))
  {
    var op := call.op;
    if op.MoveEntryOp? || op.RestoreEntryOp? {
      MoveEntryHistories(db, call);
    } else if op.TrashEntryOp? {
      TrashEntryHistories(db, call);
    } else if op.DeleteEntryOp? || op.DeleteRecycledEntryOp? {
      DeleteEntryHistories(db, call);
    } else if op.MoveEntriesOp? || op.TrashEntriesOp? || op.RestoreEntriesOp? || op.DeleteRecycledEntriesOp? {
      BatchHistories(db, call);
    } else {
      GroupEditHistories(db, call);
    }
  }

  lemma EditWithinLimit(db: Database, call: Call)
    requires db.root in db.groups && call.newId !in db.groups && HistoriesWithin(db)
    ensures HistoriesWithin(After(db, EditOf(db, call)))
  {
    match call.op {
      case UpdateFieldsOp(e, updates) =>
        if EditOf(db, call).Changes? {
          UpdateFieldsHistory(db, e, updates, call.now);
        }
      case SetHistoryMaxOp(limit) =>
      case _ => OtherEditHistories(db, call);
    }
  }

  /** Once within the limit, every history stays within the limit in force, over every run. */
  lemma {:induction false} RunWithinLimit(s: State, calls: seq<Call>)
    requires Valid(s.db) && Admissible(s.db, calls) && HistoriesWithin(s.db)
    ensures HistoriesWithin(Run(s, calls).db)
    decreases calls
  {
    if calls != [] {
      EditWithinLimit(s.db, calls[0]);
      EveryEditKept(s.db, calls[0]);
      RunWithinLimit(Apply(s, EditOf(s.db, calls[0])), calls[1..]);
    }
  }
}

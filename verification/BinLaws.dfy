/** Laws of the recycle bin: safe restores, confined deletions, batches that equal sequences. */
module BinLaws {
  import opened Vault
  import opened TreeOps
  import opened TreeLemmas
  import opened DocumentSpec
  import opened DocumentLaws

  lemma RestoreTargetFree(db: Database, g: Id, bin: Id, target: Id)
    requires ValidTree(db) && g in db.groups && bin in db.groups && g != bin && InSubtree(db.groups, g, bin)
    requires target in db.groups && (target == db.root || !Inside(db.groups, target, bin))
    ensures db.groups[g].parent.Some? && !Inside(db.groups, target, g)
  {
    SubtreeStep(db.groups, g, bin);
    InsideIsSubtree(db, target, g);
    if InSubtree(db.groups, target, g) {
      if target == db.root {
        SubtreeStep(db.groups, db.root, g);
      } else {
        SubtreeTransitive(db.groups, target, g, bin);
        InsideIsSubtree(db, target, bin);
      }
    }
  }

  /** Restoring a recycled group never meets a cycle: its target is outside the bin, or the root. */
  lemma RestoreGroupNeverRefused(db: Database, g: Id, now: Time)
    requires ValidTree(db) && g in db.groups
    ensures RestoreGroupEdit(db, g, now).Changes? <==>
            RecycleBinId(db).Some? && g != RecycleBinId(db).value && InSubtree(db.groups, g, RecycleBinId(db).value)
  {
    if RecycleBinId(db).Some? {
      var bin := RecycleBinId(db).value;
      InsideIsSubtree(db, g, bin);
      if g != bin && InSubtree(db.groups, g, bin) {
        RestoreTargetFree(db, g, bin, RestoreTarget(db, bin, db.groups[g].previousParent));
      }
    }
  }

  /** Only what lies strictly inside the bin is gone, all of it is tombstoned, and the bin stands. */
  ghost predicate Confined(db: Database, after: Database)
  {
    && RecycleBinId(db).Some? && RecycleBinId(after) == RecycleBinId(db)
    && (forall x :: x in db.groups && x !in after.groups ==>
          x != RecycleBinId(db).value && InSubtree(db.groups, x, RecycleBinId(db).value))
    && (forall e :: e in db.entries && e !in after.entries ==>
          InSubtree(db.groups, db.entries[e].parent, RecycleBinId(db).value))
    && after.groups.Keys <= db.groups.Keys && after.entries.Keys <= db.entries.Keys
    && after.deleted.Keys == db.deleted.Keys + (db.groups.Keys - after.groups.Keys) + (db.entries.Keys - after.entries.Keys)
  }

  lemma ConfinedToSubtree(db: Database, g: Id, bin: Id, after: Database)
    requires RecycleBinId(db) == Some(bin) && g in db.groups && InSubtree(db.groups, g, bin)
    requires !InSubtree(db.groups, bin, g)
    requires forall x :: x in after.groups <==> x in db.groups && !InSubtree(db.groups, x, g)
    requires forall e :: e in after.entries <==> e in db.entries && !InSubtree(db.groups, db.entries[e].parent, g)
    requires after.deleted.Keys == db.deleted.Keys + (db.groups.Keys - after.groups.Keys) + (db.entries.Keys - after.entries.Keys)
    requires after.meta.recycleBinUuid == db.meta.recycleBinUuid
    ensures Confined(db, after)
  {
    forall x | InSubtree(db.groups, x, g) ensures InSubtree(db.groups, x, bin) {
      SubtreeTransitive(db.groups, x, g, bin);
    }
  }

  /** Deleting a recycled group takes its subtree, and nothing outside the bin. */
  lemma RecycledDeleteConfined(db: Database, g: Id, now: Time)
    requires ValidTree(db)
    ensures DeleteRecycledGroupEdit(db, g, now).Changes? ==>
              Confined(db, DeleteRecycledGroupEdit(db, g, now).db) && g !in DeleteRecycledGroupEdit(db, g, now).db.groups
  {
    if DeleteRecycledGroupEdit(db, g, now).Changes? {
      var bin, after := RecycleBinId(db).value, DeleteRecycledGroupEdit(db, g, now).db;
      InsideIsSubtree(db, g, bin);
      BinOutside(db, g, bin);
      BelowIsSubtree(db, g);
      DeletedGroupSets(db, g, now);
      SubtreeStep(db.groups, g, g);
      ConfinedToSubtree(db, g, bin, after);
    }
  }

  lemma BinOutside(db: Database, g: Id, bin: Id)
    requires ValidTree(db) && g in db.groups && bin in db.groups && g != bin && InSubtree(db.groups, g, bin)
    ensures !InSubtree(db.groups, bin, g)
  {
    if InSubtree(db.groups, bin, g) {
      SubtreeAntisymmetric(db, bin, g);
    }
  }

  lemma ConfinedToEntry(db: Database, e: Id, bin: Id, after: Database)
    requires RecycleBinId(db) == Some(bin) && e in db.entries && InSubtree(db.groups, db.entries[e].parent, bin)
    requires after.groups.Keys == db.groups.Keys && after.entries.Keys == db.entries.Keys - {e}
    requires after.deleted.Keys == db.deleted.Keys + {e} && after.meta == db.meta
    ensures Confined(db, after)
  {
    assert db.entries.Keys - after.entries.Keys == {e};
  }

  lemma RecycledEntryDeleteConfined(db: Database, e: Id, now: Time)
    requires ValidTree(db)
    ensures DeleteRecycledEntryEdit(db, e, now).Changes? ==>
              Confined(db, DeleteRecycledEntryEdit(db, e, now).db) && e !in DeleteRecycledEntryEdit(db, e, now).db.entries
  {
    if DeleteRecycledEntryEdit(db, e, now).Changes? {
      var bin := RecycleBinId(db).value;
      EntryParentListed(db, e);
      InsideIsSubtree(db, db.entries[e].parent, bin);
      ConfinedToEntry(db, e, bin, DeleteRecycledEntryEdit(db, e, now).db);
    }
  }

  // ---------------------------------------------------------------- links that entry moves keep

  lemma OutOfBinFacts(c: Database, e: Id, dest: Id, now: Time)
    requires e in c.entries && dest in c.groups
    ensures var r := OutOfBin(c, e, dest, now);
            && SameLinks(c.groups, r.groups) && r.root == c.root && r.meta == c.meta && r.entries.Keys == c.entries.Keys
            && (forall x :: x in c.entries && x != e ==> r.entries[x] == c.entries[x])
            && r.entries[e].parent == dest && r.entries[e].state.previousParent == Some(c.entries[e].parent)
  {
  }

  lemma InsideSelf(groups: map<Id, Group>, x: Id)
    ensures Inside(groups, x, x)
  {
    assert Climb(groups, x, 0) == Some(x);
  }

  lemma RestoreTakesRecorded(c: Database, e: Id, p: Id, now: Time)
    requires c.root in c.groups && RecycleBinId(c).Some? && Restorable(c, RecycleBinId(c).value, e)
    requires c.entries[e].state.previousParent == Some(p) && p in c.groups
    requires !Inside(c.groups, p, RecycleBinId(c).value)
    ensures RestoreEntryEdit(c, e, now) == Changes(OutOfBin(c, e, p, now))
    ensures OutOfBin(c, e, p, now).entries[e].parent == p
    ensures forall x :: x in c.entries && x != e ==> OutOfBin(c, e, p, now).entries[x] == c.entries[x]
  {
  }

  /** Trash and restore are inverse on places: every entry and group is back where it was. */
  lemma RestoreUndoesTrash(db: Database, e: Id, newId: Id, now: Time, later: Time)
    requires Valid(db) && Unused(db, newId) && TrashEntryEdit(db, e, newId, now).Changes?
    ensures var trashed := TrashEntryEdit(db, e, newId, now).db;
            && trashed.root in trashed.groups
            && RestoreEntryEdit(trashed, e, later).Changes?
            && var back := RestoreEntryEdit(trashed, e, later).db;
               && back.entries.Keys == db.entries.Keys
               && (forall x :: x in db.entries ==> back.entries[x].parent == db.entries[x].parent)
               && (forall x :: x in db.groups ==> x in back.groups && back.groups[x].parent == db.groups[x].parent)
  {
    var r := EnsureRecycleBin(db, newId);
    EntryParentListed(db, e);
    var parent := db.entries[e].parent;
    EnsuredFacts(db, newId);
    TrashThenRestoreCore(db, r.db, r.id, e, now, later);
    assert TrashEntryEdit(db, e, newId, now).db == OutOfBin(r.db, e, r.id, now);
  }

  lemma EnsuredFacts(db: Database, newId: Id)
    requires db.root in db.groups && newId !in db.groups && EnsureRecycleBin(db, newId).Bin?
    ensures var r := EnsureRecycleBin(db, newId);
            && RecycleBinId(r.db) == Some(r.id) && r.db.root == db.root && r.db.root in r.db.groups
            && r.db.entries == db.entries
            && r.id in r.db.groups && r.db.meta.recycleBinEnabled != Some(false)
            && db.groups.Keys <= r.db.groups.Keys <= db.groups.Keys + {newId}
            && (forall x :: x in db.groups ==> r.db.groups[x].parent == db.groups[x].parent)
  {
  }

  lemma TrashThenRestoreCore(db: Database, c: Database, bin: Id, e: Id, now: Time, later: Time)
    requires RecycleBinId(c) == Some(bin) && c.root in c.groups && c.entries == db.entries && e in c.entries
    requires db.entries[e].parent in c.groups && !Inside(c.groups, db.entries[e].parent, bin)
    ensures var trashed := OutOfBin(c, e, bin, now);
            && trashed.root in trashed.groups
            && RestoreEntryEdit(trashed, e, later).Changes?
            && var back := RestoreEntryEdit(trashed, e, later).db;
               && SameLinks(c.groups, back.groups) && back.entries.Keys == db.entries.Keys
               && (forall x :: x in db.entries ==> back.entries[x].parent == db.entries[x].parent)
  {
    var trashed := OutOfBin(c, e, bin, now);
    var parent := db.entries[e].parent;
    OutOfBinFacts(c, e, bin, now);
    InsideSameLinks(c.groups, trashed.groups, parent, bin);
    InsideSelf(trashed.groups, bin);
    RestoreTakesRecorded(trashed, e, parent, later);
    OutOfBinFacts(trashed, e, parent, later);
  }

  // ---------------------------------------------------------------- batches are sequences

  /** Trashing one after another; call `i` would create the bin under the identity `ids[i]`. */
  function TrashEach(db: Database, es: seq<Id>, ids: seq<Id>, now: Time): (r: Database)
    requires |ids| == |es| && NoDup(ids) && db.root in db.groups
    requires (es != [] ==> forall i :: 0 <= i < |ids| ==> ids[i] !in db.groups)
    decreases es
  {
    if es == [] then db
    else
      var next := After(db, TrashEntryEdit(db, es[0], ids[0], now));
      TrashEach(next, es[1..], ids[1..], now)
  }

  lemma {:induction false} TrashEachWithBin(c: Database, bin: Id, es: seq<Id>, ids: seq<Id>, now: Time)
    requires |ids| == |es| && NoDup(ids) && c.root in c.groups && forall i :: 0 <= i < |ids| ==> ids[i] !in c.groups
    requires AllFound(c, es) && RecycleBinId(c) == Some(bin) && c.meta.recycleBinEnabled != Some(false)
    ensures TrashEach(c, es, ids, now) == TrashAll(c, bin, es, now)
    decreases es
  {
    if es != [] {
      var next := IntoBin(c, bin, es[0], now);
      assert After(c, TrashEntryEdit(c, es[0], ids[0], now)) == next;
      TrashEachWithBin(next, bin, es[1..], ids[1..], now);
    }
  }

  lemma {:induction false} TrashAllInside(c: Database, bin: Id, es: seq<Id>, now: Time)
    requires AllFound(c, es) && bin in c.groups
    requires forall i :: 0 <= i < |es| ==> Inside(c.groups, c.entries[es[i]].parent, bin)
    ensures TrashAll(c, bin, es, now) == c
    decreases es
  {
    if es != [] {
      TrashAllInside(c, bin, es[1..], now);
    }
  }

  lemma OldIsOutsideNewBin(db: Database, newId: Id, x: Id)
    requires ValidTree(db) && newId !in db.groups && x in db.groups
    ensures !Inside(AddGroup(db, db.root, newId, NewBin(db.root)).groups, x, newId)
  {
    var after := AddGroup(db, db.root, newId, NewBin(db.root));
    forall n: nat ensures Climb(after.groups, x, n) != Some(newId) {
      ClimbBelowOld(db, after, x, n);
      if Climb(db.groups, x, n).Some? {
        AncestorLive(db, x, n);
      }
    }
  }

  /** A successful batch of trashings leaves exactly the vault that the single calls leave one after
      another, lists and stamps included, bin creation included. */
  lemma BatchTrashIsSequence(db: Database, es: seq<Id>, ids: seq<Id>, now: Time)
    requires Valid(db) && es != [] && |ids| == |es| && NoDup(ids) && forall i :: 0 <= i < |ids| ==> ids[i] !in db.groups
    ensures !TrashEntriesEdit(db, es, ids[0], now).Fails? ==>
              After(db, TrashEntriesEdit(db, es, ids[0], now)) == TrashEach(db, es, ids, now)
  {
    if AllFound(db, es) && RecycleBinId(db).None? {
      EntryParentListed(db, es[0]);
      OldIsOutsideNewBin(db, ids[0], db.entries[es[0]].parent);
    }
    BatchTrashCore(db, es, ids, now);
  }

  lemma BatchTrashCore(db: Database, es: seq<Id>, ids: seq<Id>, now: Time)
    requires db.root in db.groups && es != [] && |ids| == |es| && NoDup(ids) && forall i :: 0 <= i < |ids| ==>
               ids[i] !in db.groups
    requires AllFound(db, es) && RecycleBinId(db).None? ==>
               !Inside(AddGroup(db, db.root, ids[0], NewBin(db.root)).groups, db.entries[es[0]].parent, ids[0])
    ensures !TrashEntriesEdit(db, es, ids[0], now).Fails? ==>
              After(db, TrashEntriesEdit(db, es, ids[0], now)) == TrashEach(db, es, ids, now)
  {
    var batch := TrashEntriesEdit(db, es, ids[0], now);
    if !batch.Fails? {
      var r := EnsureRecycleBin(db, ids[0]);
      if RecycleBinId(db).Some? {
        TrashEachWithBin(db, r.id, es, ids, now);
        if batch.Same? {
          TrashAllInside(db, r.id, es, now);
        }
      } else {
        FirstTrashCreatesBin(db, es, ids, now);
      }
    }
  }

  lemma FirstTrashCreatesBin(db: Database, es: seq<Id>, ids: seq<Id>, now: Time)
    requires db.root in db.groups && es != [] && |ids| == |es| && NoDup(ids) && forall i :: 0 <= i < |ids| ==>
               ids[i] !in db.groups
    requires AllFound(db, es) && EnsureRecycleBin(db, ids[0]).Bin?
    requires !Inside(EnsureRecycleBin(db, ids[0]).db.groups, db.entries[es[0]].parent, EnsureRecycleBin(db, ids[0]).id)
    ensures var r := EnsureRecycleBin(db, ids[0]);
            RecycleBinId(db).None? ==> TrashEach(db, es, ids, now) == TrashAll(r.db, r.id, es, now)
  {
    var r := EnsureRecycleBin(db, ids[0]);
    if RecycleBinId(db).None? {
      EnsuredFacts(db, ids[0]);
      OutOfBinFacts(r.db, es[0], r.id, now);
      var next := OutOfBin(r.db, es[0], r.id, now);
      assert After(db, TrashEntryEdit(db, es[0], ids[0], now)) == next;
      assert IntoBin(r.db, r.id, es[0], now) == next;
      TrashEachWithBin(next, r.id, es[1..], ids[1..], now);
    }
  }

  function RestoreEach(db: Database, es: seq<Id>, now: Time): (r: Database)
    requires db.root in db.groups
    decreases es
  {
    if es == [] then db else RestoreEach(After(db, RestoreEntryEdit(db, es[0], now)), es[1..], now)
  }

  lemma {:induction false} RestoreAllIsEach(c: Database, origin: Database, bin: Id, es: seq<Id>, now: Time)
    requires origin.root == c.root && c.root in c.groups && SameLinks(origin.groups, c.groups) && c.meta == origin.meta
    requires AllFound(c, es) && AllFound(origin, es) && NoDup(es) && RecycleBinId(origin) == Some(bin)
    requires forall i :: 0 <= i < |es| ==> c.entries[es[i]] == origin.entries[es[i]] && Restorable(origin, bin, es[i])
    ensures RestoreAll(c, origin, bin, es, now) == RestoreEach(c, es, now)
    decreases es
  {
    if es != [] {
      var e := es[0];
      var dest := RestoreTarget(origin, bin, origin.entries[e].state.previousParent);
      SameRestore(c, origin, bin, e, now);
      OutOfBinFacts(c, e, dest, now);
      RestoreAllIsEach(OutOfBin(c, e, dest, now), origin, bin, es[1..], now);
    }
  }

  lemma SameRestore(c: Database, origin: Database, bin: Id, e: Id, now: Time)
    requires origin.root == c.root && c.root in c.groups && SameLinks(origin.groups, c.groups) && c.meta == origin.meta
    requires RecycleBinId(origin) == Some(bin) && e in c.entries && e in origin.entries
    requires c.entries[e] == origin.entries[e]
    requires Restorable(origin, bin, e)
    ensures RestoreEntryEdit(c, e, now) == Changes(OutOfBin(c, e, RestoreTarget(origin, bin, origin.entries[e].state.previousParent), now))
  {
    InsideSameLinks(origin.groups, c.groups, c.entries[e].parent, bin);
    var previous := origin.entries[e].state.previousParent;
    if previous.Some? {
      InsideSameLinks(origin.groups, c.groups, previous.value, bin);
    }
  }
}

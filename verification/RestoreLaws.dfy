/** Restoring from the recycle bin: when a batch equals its single calls, and where a recycled entry
    goes back to after anything else has happened to the document. */
module RestoreLaws {
  import opened Vault
  import opened TreeOps
  import opened DocumentSpec
  import opened DocumentLaws
  import opened BinLaws

  // ---------------------------------------------------------------- batch and sequence

  /** Every single call of the sequence changes the document. */
  predicate EachRestores(db: Database, es: seq<Id>, now: Time)
    requires db.root in db.groups
    decreases es
  {
    es != [] ==>
      RestoreEntryEdit(db, es[0], now).Changes? && EachRestores(After(db, RestoreEntryEdit(db, es[0], now)), es[1..], now)
  }

  /** Where the batch sends `e`: judged on the document before the batch. */
  function Target(origin: Database, bin: Id, e: Id): (dest: Id)
    requires e in origin.entries
  {
    RestoreTarget(origin, bin, origin.entries[e].state.previousParent)
  }

  /** `c` is `origin` with some entries moved: same tree, same bin. */
  ghost predicate SameTree(origin: Database, c: Database, bin: Id)
  {
    && origin.root == c.root && c.root in c.groups && SameLinks(origin.groups, c.groups) && c.meta == origin.meta
    && origin.entries.Keys == c.entries.Keys && RecycleBinId(origin) == Some(bin)
  }

  /** Restored entries are outside the bin, the others still as they were. */
  ghost predicate Partly(origin: Database, c: Database, bin: Id, restored: set<Id>)
  {
    && SameTree(origin, c, bin)
    && (forall e :: e in c.entries && e in restored ==> !Inside(c.groups, c.entries[e].parent, bin))
    && forall e :: e in c.entries && e !in restored ==> c.entries[e] == origin.entries[e]
  }

  lemma RestoreOne(origin: Database, c: Database, bin: Id, restored: set<Id>, e: Id, now: Time)
    requires Partly(origin, c, bin, restored) && e in origin.entries && Restorable(origin, bin, e) && e !in restored
    requires !Inside(origin.groups, Target(origin, bin, e), bin)
    ensures RestoreEntryEdit(c, e, now) == Changes(OutOfBin(c, e, Target(origin, bin, e), now))
    ensures Partly(origin, OutOfBin(c, e, Target(origin, bin, e), now), bin, restored + {e})
  {
    var dest := Target(origin, bin, e);
    var next := OutOfBin(c, e, dest, now);
    SameRestore(c, origin, bin, e, now);
    OutOfBinFacts(c, e, dest, now);
    InsideSameLinks(origin.groups, next.groups, dest, bin);
    forall x | x in next.entries && x in restored ensures !Inside(next.groups, next.entries[x].parent, bin) {
      InsideSameLinks(c.groups, next.groups, c.entries[x].parent, bin);
    }
  }

  lemma EachRestoresCons(c: Database, es: seq<Id>, now: Time, next: Database)
    requires c.root in c.groups && es != [] && RestoreEntryEdit(c, es[0], now) == Changes(next)
    ensures next.root in next.groups && (EachRestores(c, es, now) <==> EachRestores(next, es[1..], now))
  {
  }

  /** The ids that are still to be restored, and can be. */
  ghost predicate Askable(origin: Database, bin: Id, es: seq<Id>)
  {
    && RecycleBinId(origin) == Some(bin) && AllFound(origin, es)
    && forall i :: 0 <= i < |es| ==>
          Restorable(origin, bin, es[i]) && !Inside(origin.groups, Target(origin, bin, es[i]), bin)
  }

  lemma SequenceStep(origin: Database, c: Database, bin: Id, restored: set<Id>, es: seq<Id>, now: Time)
    returns (next: Database)
    requires Partly(origin, c, bin, restored) && Askable(origin, bin, es) && es != [] && es[0] !in restored
    ensures Partly(origin, next, bin, restored + {es[0]}) && Askable(origin, bin, es[1..])
    ensures EachRestores(c, es, now) <==> EachRestores(next, es[1..], now)
  {
    next := OutOfBin(c, es[0], Target(origin, bin, es[0]), now);
    RestoreOne(origin, c, bin, restored, es[0], now);
    EachRestoresCons(c, es, now, next);
  }

  /** With the bin below the root: each call succeeds exactly when no entry is asked for again. */
  lemma {:induction false} SequenceExact(origin: Database, c: Database, bin: Id, restored: set<Id>, es: seq<Id>,
                                         now: Time)
    requires Partly(origin, c, bin, restored) && Askable(origin, bin, es)
    ensures EachRestores(c, es, now) <==> NoDup(es) && forall e :: e in es ==> e !in restored
    decreases es
  {
    if es != [] {
      if es[0] in restored {
        assert !Restorable(c, bin, es[0]);
      } else {
        var next := SequenceStep(origin, c, bin, restored, es, now);
        SequenceExact(origin, next, bin, restored + {es[0]}, es[1..], now);
        NoDupCons(es);
      }
    }
  }

  lemma NoDupCons(es: seq<Id>)
    requires es != []
    ensures NoDup(es) <==> es[0] !in es[1..] && NoDup(es[1..])
  {
    if es[0] in es[1..] {
      var i :| 0 <= i < |es| - 1 && es[1..][i] == es[0];
      assert es[i + 1] == es[0];
    }
    if NoDup(es[1..]) && es[0] !in es[1..] {
      forall i, j | 0 <= i < j < |es| ensures es[i] != es[j] {
        assert es[j] == es[1..][j - 1];
        if i > 0 { assert es[i] == es[1..][i - 1]; }
      }
    }
  }

  // ---------------------------------------------------------------- the bin is the root

  /** The bin is the root, so that everything is in it. */
  ghost predicate AllInside(db: Database)
  {
    && RecycleBinId(db) == Some(db.root)
    && forall g {:trigger Inside(db.groups, g, db.root)} :: g in db.groups ==> Inside(db.groups, g, db.root)
  }

  ghost predicate ParentsLive(c: Database)
  {
    forall e :: e in c.entries ==> c.entries[e].parent in c.groups
  }

  /** Every restore goes to the root, and leaves the entry restorable. */
  lemma RootBinStep(origin: Database, c: Database, e: Id, now: Time)
    requires AllInside(origin) && SameTree(origin, c, origin.root) && ParentsLive(c) && e in origin.entries
    ensures Target(origin, origin.root, e) == c.root
    ensures RestoreEntryEdit(c, e, now) == Changes(OutOfBin(c, e, c.root, now))
  {
    var root := c.root;
    InsideSameLinks(origin.groups, c.groups, c.entries[e].parent, root);
    var previous := c.entries[e].state.previousParent;
    if previous.Some? && previous.value in c.groups {
      InsideSameLinks(origin.groups, c.groups, previous.value, root);
    }
  }

  lemma RootBinNext(origin: Database, c: Database, e: Id, now: Time)
    requires SameTree(origin, c, origin.root) && ParentsLive(c) && e in origin.entries
    ensures SameTree(origin, OutOfBin(c, e, c.root, now), origin.root) && ParentsLive(OutOfBin(c, e, c.root, now))
  {
    OutOfBinFacts(c, e, c.root, now);
  }

  lemma {:induction false} RootBinSequence(origin: Database, c: Database, es: seq<Id>, now: Time)
    requires AllInside(origin) && SameTree(origin, c, origin.root) && ParentsLive(c) && AllFound(origin, es)
    ensures EachRestores(c, es, now) && RestoreAll(c, origin, origin.root, es, now) == RestoreEach(c, es, now)
    decreases es
  {
    if es != [] {
      var next := OutOfBin(c, es[0], c.root, now);
      RootBinStep(origin, c, es[0], now);
      RootBinNext(origin, c, es[0], now);
      EachRestoresCons(c, es, now, next);
      RootBinSequence(origin, next, es[1..], now);
    }
  }

  // ---------------------------------------------------------------- what a repeated id does

  lemma {:induction false} UnaskedUnchanged(origin: Database, c: Database, bin: Id, es: seq<Id>, now: Time, e: Id)
    requires AllFound(c, es) && AllFound(origin, es) && origin.root in c.groups && origin.groups.Keys == c.groups.Keys
    requires e in c.entries && e !in es
    ensures var r := RestoreAll(c, origin, bin, es, now); e in r.entries && r.entries[e] == c.entries[e]
    decreases es
  {
    if es != [] {
      OutOfBinFacts(c, es[0], Target(origin, bin, es[0]), now);
      UnaskedUnchanged(origin, OutOfBin(c, es[0], Target(origin, bin, es[0]), now), bin, es[1..], now, e);
    }
  }

  /** A second restore in the batch records the target as the previous parent. */
  lemma {:induction false} MovedAgain(origin: Database, c: Database, bin: Id, es: seq<Id>, now: Time, e: Id)
    requires AllFound(c, es) && AllFound(origin, es) && origin.root in c.groups && origin.groups.Keys == c.groups.Keys
    requires e in es && e in c.entries && e in origin.entries
    requires (c.entries[e].parent == Target(origin, bin, e) || !NoDupOf(es, e))
    ensures var r := RestoreAll(c, origin, bin, es, now);
            e in r.entries && r.entries[e].state.previousParent == Some(Target(origin, bin, e))
    decreases es
  {
    var h, rest := es[0], es[1..];
    var next := OutOfBin(c, h, Target(origin, bin, h), now);
    OutOfBinFacts(c, h, Target(origin, bin, h), now);
    if h == e {
      if e in rest {
        MovedAgain(origin, next, bin, rest, now, e);
      } else {
        UnaskedUnchanged(origin, next, bin, rest, now, e);
      }
    } else {
      MovedAgain(origin, next, bin, rest, now, e);
    }
  }

  /** `e` is asked for at most once. */
  predicate NoDupOf(es: seq<Id>, e: Id)
  {
    es != [] ==> if es[0] == e then e !in es[1..] else NoDupOf(es[1..], e)
  }

  lemma {:induction false} RepeatedId(es: seq<Id>) returns (e: Id)
    requires !NoDup(es)
    ensures e in es && !NoDupOf(es, e)
  {
    NoDupCons(es);
    if es[0] in es[1..] {
      e := es[0];
    } else {
      e := RepeatedId(es[1..]);
    }
  }

  /** In the sequence, an entry that has left the bin is not touched again. */
  lemma {:induction false} OutsideUntouched(c: Database, bin: Id, es: seq<Id>, now: Time, e: Id)
    requires c.root in c.groups && RecycleBinId(c) == Some(bin) && e in c.entries
    requires !Inside(c.groups, c.entries[e].parent, bin)
    ensures var r := RestoreEach(c, es, now); e in r.entries && r.entries[e] == c.entries[e]
    decreases es
  {
    if es != [] {
      var edit := RestoreEntryEdit(c, es[0], now);
      var next := After(c, edit);
      if edit.Changes? {
        OutOfBinFacts(c, es[0], RestoreTarget(c, bin, c.entries[es[0]].state.previousParent), now);
        InsideSameLinks(c.groups, next.groups, c.entries[e].parent, bin);
      }
      OutsideUntouched(next, bin, es[1..], now, e);
    }
  }

  /** In the sequence, a restored entry remembers the place in the bin it came from. */
  lemma {:induction false} SequenceRemembers(origin: Database, c: Database, bin: Id, es: seq<Id>, now: Time, e: Id)
    requires SameTree(origin, c, bin) && e in es && e in c.entries && c.entries[e] == origin.entries[e]
    requires Restorable(origin, bin, e)
    requires !Inside(origin.groups, Target(origin, bin, e), bin)
    ensures var r := RestoreEach(c, es, now);
            e in r.entries && r.entries[e].state.previousParent == Some(origin.entries[e].parent)
    decreases es
  {
    var h, rest := es[0], es[1..];
    var edit := RestoreEntryEdit(c, h, now);
    if h == e {
      SameRestore(c, origin, bin, e, now);
      var next := OutOfBin(c, e, Target(origin, bin, e), now);
      OutOfBinFacts(c, e, Target(origin, bin, e), now);
      InsideSameLinks(origin.groups, next.groups, Target(origin, bin, e), bin);
      OutsideUntouched(next, bin, rest, now, e);
    } else {
      if edit.Changes? {
        OutOfBinFacts(c, h, RestoreTarget(c, bin, c.entries[h].state.previousParent), now);
      }
      SequenceRemembers(origin, After(c, edit), bin, rest, now, e);
    }
  }

  lemma RepeatedDiffers(db: Database, bin: Id, es: seq<Id>, now: Time)
    requires ValidTree(db) && RecycleBinId(db) == Some(bin) && bin != db.root && AllFound(db, es) && !NoDup(es)
    requires forall i :: 0 <= i < |es| ==> Restorable(db, bin, es[i])
    ensures RestoreAll(db, db, bin, es, now) != RestoreEach(db, es, now)
  {
    var e := RepeatedId(es);
    TargetOutside(db, bin, db.entries[e].state.previousParent);
    MovedAgain(db, db, bin, es, now, e);
    SequenceRemembers(db, db, bin, es, now, e);
  }

  lemma TargetOutside(db: Database, bin: Id, previous: Option<Id>)
    requires ValidTree(db) && bin in db.groups && bin != db.root
    ensures RestoreTarget(db, bin, previous) in db.groups && !Inside(db.groups, RestoreTarget(db, bin, previous), bin)
  {
    InsideIsSubtree(db, db.root, bin);
    SubtreeStep(db.groups, db.root, bin);
  }

  /** When a successful batch equals its single calls: if and only if its ids are distinct, or the bin
      is the root, where everything stays restorable. Otherwise some single call is refused, and the
      two end in different documents. */
  lemma BatchRestoreExact(db: Database, es: seq<Id>, now: Time)
    requires ValidTree(db) && RestoreEntriesEdit(db, es, now).Changes?
    ensures EachRestores(db, es, now) <==> NoDup(es) || RecycleBinId(db) == Some(db.root)
    ensures RestoreEntriesEdit(db, es, now).db == RestoreEach(db, es, now) <==>
              NoDup(es) || RecycleBinId(db) == Some(db.root)
  {
    var bin := RecycleBinId(db).value;
    if bin == db.root {
      RootHoldsAll(db);
      RootBinSequence(db, db, es, now);
    } else {
      forall i | 0 <= i < |es| ensures !Inside(db.groups, Target(db, bin, es[i]), bin) {
        TargetOutside(db, bin, db.entries[es[i]].state.previousParent);
      }
      SequenceExact(db, db, bin, {}, es, now);
      if NoDup(es) {
        RestoreAllIsEach(db, db, bin, es, now);
      } else {
        RepeatedDiffers(db, bin, es, now);
      }
    }
  }

  lemma RootHoldsAll(db: Database)
    requires ValidTree(db) && RecycleBinId(db) == Some(db.root)
    ensures AllInside(db) && ParentsLive(db)
  {
    forall g | g in db.groups ensures Inside(db.groups, g, db.root) {
      InsideIsSubtree(db, g, db.root);
      assert ReachesRoot(db, g);
    }
    forall e | e in db.entries ensures db.entries[e].parent in db.groups {
      EntryParentListed(db, e);
    }
  }

  // ---------------------------------------------------------------- a later restore

  /** `e` lies in the bin itself and remembers that it came from `p`. */
  predicate Binned(db: Database, e: Id, p: Id, bin: Id)
  {
    && e in db.entries && db.entries[e].parent == bin && db.entries[e].state.previousParent == Some(p)
    && RecycleBinId(db) == Some(bin)
  }

  /** The call does not move, restore or delete `e` itself; it may do anything else, also to the groups
      around it, and may trash `e` again. */
  predicate LeavesAlone(op: Op, e: Id)
  {
    match op
    case MoveEntryOp(x, _) => x != e
    case RestoreEntryOp(x) => x != e
    case DeleteEntryOp(x) => x != e
    case DeleteRecycledEntryOp(x) => x != e
    case MoveEntriesOp(es, _) => e !in es
    case RestoreEntriesOp(es) => e !in es
    case DeleteRecycledEntriesOp(es) => e !in es
    case _ => true
  }

  /** If the edit changes the document and `e` is still there, `e` is still binned. */
  ghost predicate StaysBinned(edit: Edit, e: Id, p: Id, bin: Id)
  {
    forall after :: edit == Changes(after) && e in after.entries ==> Binned(after, e, p, bin)
  }

  /** Only other entries were moved. */
  predicate OthersMoved(db: Database, after: Database, e: Id)
  {
    && after.groups.Keys == db.groups.Keys && after.meta == db.meta
    && e in db.entries && e in after.entries && after.entries[e] == db.entries[e]
  }

  lemma {:induction false} MoveAllOthers(c: Database, es: seq<Id>, dest: Id, now: Time, e: Id)
    requires AllFound(c, es) && dest in c.groups && e in c.entries && e !in es
    ensures OthersMoved(c, MoveAll(c, es, dest, now), e)
    decreases es
  {
    if es != [] {
      MoveAllOthers(After(c, MoveEntryEdit(c, es[0], dest, now)), es[1..], dest, now, e);
    }
  }

  lemma {:induction false} RestoreAllOthers(c: Database, origin: Database, bin: Id, es: seq<Id>, now: Time, e: Id)
    requires AllFound(c, es) && AllFound(origin, es) && origin.root in c.groups && origin.groups.Keys == c.groups.Keys
    requires e in c.entries && e !in es
    ensures OthersMoved(c, RestoreAll(c, origin, bin, es, now), e)
    decreases es
  {
    if es != [] {
      OutOfBinFacts(c, es[0], Target(origin, bin, es[0]), now);
      RestoreAllOthers(OutOfBin(c, es[0], Target(origin, bin, es[0]), now), origin, bin, es[1..], now, e);
    }
  }

  /** Trashing a batch leaves an entry that is in the bin already, also when the batch names it. */
  lemma {:induction false} TrashAllOthers(c: Database, bin: Id, es: seq<Id>, now: Time, e: Id)
    requires AllFound(c, es) && bin in c.groups && e in c.entries && c.entries[e].parent == bin
    ensures OthersMoved(c, TrashAll(c, bin, es, now), e)
    decreases es
  {
    if es != [] {
      InsideSelf(c.groups, bin);
      TrashAllOthers(IntoBin(c, bin, es[0], now), bin, es[1..], now, e);
    }
  }

  lemma {:induction false} DeleteAllOthers(c: Database, es: seq<Id>, now: Time, e: Id)
    requires e in c.entries && e !in es
    ensures DeleteAll(c, es, now).Changes? ==> OthersMoved(c, DeleteAll(c, es, now).db, e)
    decreases es
  {
    if es != [] && es[0] in c.entries {
      DeleteAllOthers(DeleteEntryEdit(c, es[0], now).db, es[1..], now, e);
    }
  }

  lemma OthersMovedBinned(db: Database, after: Database, e: Id, p: Id, bin: Id)
    requires Binned(db, e, p, bin) && OthersMoved(db, after, e)
    ensures Binned(after, e, p, bin)
  {
  }

  lemma EntryCallsKeep(db: Database, call: Call, e: Id, p: Id, bin: Id)
    requires ValidTree(db) && call.newId !in db.groups && Binned(db, e, p, bin) && LeavesAlone(call.op, e)
    requires call.op.MoveEntryOp? || call.op.RestoreEntryOp? || call.op.DeleteEntryOp? || call.op.DeleteRecycledEntryOp?
    ensures StaysBinned(EditOf(db, call), e, p, bin)
  {
    var edit := EditOf(db, call);
    if edit.Changes? {
      OthersMovedBinned(db, edit.db, e, p, bin);
    }
  }

  lemma TrashCallsKeep(db: Database, call: Call, e: Id, p: Id, bin: Id)
    requires ValidTree(db) && call.newId !in db.groups && Binned(db, e, p, bin)
    requires call.op.TrashEntryOp? || call.op.TrashEntriesOp?
    ensures StaysBinned(EditOf(db, call), e, p, bin)
  {
    var edit := EditOf(db, call);
    if edit.Changes? {
      if call.op.TrashEntryOp? {
        InsideSelf(db.groups, bin);
      } else {
        TrashAllOthers(db, bin, call.op.es, call.now, e);
      }
      OthersMovedBinned(db, edit.db, e, p, bin);
    }
  }

  lemma BatchCallsKeep(db: Database, call: Call, e: Id, p: Id, bin: Id)
    requires ValidTree(db) && call.newId !in db.groups && Binned(db, e, p, bin) && LeavesAlone(call.op, e)
    requires call.op.MoveEntriesOp? || call.op.RestoreEntriesOp? || call.op.DeleteRecycledEntriesOp?
    ensures StaysBinned(EditOf(db, call), e, p, bin)
  {
    var edit := EditOf(db, call);
    if edit.Changes? {
      if call.op.MoveEntriesOp? {
        MoveAllOthers(db, call.op.es, call.op.dest, call.now, e);
      } else if call.op.RestoreEntriesOp? {
        RestoreAllOthers(db, db, bin, call.op.es, call.now, e);
      } else {
        DeleteAllOthers(db, call.op.es, call.now, e);
      }
      OthersMovedBinned(db, edit.db, e, p, bin);
    }
  }

  lemma GroupMovesKeep(db: Database, call: Call, e: Id, p: Id, bin: Id)
    requires ValidTree(db) && call.newId !in db.groups && Binned(db, e, p, bin)
    requires call.op.MoveGroupOp? || call.op.RestoreGroupOp? || call.op.TrashGroupOp?
    ensures StaysBinned(EditOf(db, call), e, p, bin)
  {
    var edit := EditOf(db, call);
    if edit.Changes? {
      OthersMovedBinned(db, edit.db, e, p, bin);
    }
  }

  /** A deletion that takes the bin takes the entry with it. */
  lemma GroupDeletesKeep(db: Database, call: Call, e: Id, p: Id, bin: Id)
    requires ValidTree(db) && call.newId !in db.groups && Binned(db, e, p, bin)
    requires call.op.DeleteGroupOp? || call.op.DeleteRecycledGroupOp?
    ensures StaysBinned(EditOf(db, call), e, p, bin)
  {
    var edit := EditOf(db, call);
    if edit.Changes? && e in edit.db.entries {
      var g := call.op.g;
      BelowIsSubtree(db, g);
      DeletedGroupSets(db, g, call.now);
      EntryParentListed(db, e);
      DeletionKeepsRest(db, g, call.now, e, bin);
    }
  }

  lemma DeletionKeepsRest(db: Database, g: Id, now: Time, e: Id, bin: Id)
    requires g in db.groups && g != db.root && e in db.entries && RecycleBinId(db) == Some(bin)
    requires e in DeleteGroupEdit(db, g, now).db.entries && bin !in Below(db.groups, g)
    ensures var after := DeleteGroupEdit(db, g, now).db; after.entries[e] == db.entries[e] && RecycleBinId(after) == Some(bin)
  {
  }

  lemma RestKeeps(db: Database, call: Call, e: Id, p: Id, bin: Id)
    requires ValidTree(db) && call.newId !in db.groups && Binned(db, e, p, bin)
    requires call.op.UpdateFieldsOp? || call.op.SetHistoryMaxOp?
    ensures StaysBinned(EditOf(db, call), e, p, bin)
  {
  }

  lemma CallKeepsBinned(db: Database, call: Call, e: Id, p: Id, bin: Id)
    requires ValidTree(db) && call.newId !in db.groups && Binned(db, e, p, bin) && LeavesAlone(call.op, e)
    ensures StaysBinned(EditOf(db, call), e, p, bin)
  {
    var op := call.op;
    if op.MoveEntryOp? || op.RestoreEntryOp? || op.DeleteEntryOp? || op.DeleteRecycledEntryOp? {
      EntryCallsKeep(db, call, e, p, bin);
    } else if op.TrashEntryOp? || op.TrashEntriesOp? {
      TrashCallsKeep(db, call, e, p, bin);
    } else if op.MoveEntriesOp? || op.RestoreEntriesOp? || op.DeleteRecycledEntriesOp? {
      BatchCallsKeep(db, call, e, p, bin);
    } else if op.MoveGroupOp? || op.RestoreGroupOp? || op.TrashGroupOp? {
      GroupMovesKeep(db, call, e, p, bin);
    } else if op.DeleteGroupOp? || op.DeleteRecycledGroupOp? {
      GroupDeletesKeep(db, call, e, p, bin);
    } else {
      RestKeeps(db, call, e, p, bin);
    }
  }

  /** No modelled call brings an entry back that is gone. */
  lemma EntriesOnlyShrink(db: Database, call: Call)
    requires db.root in db.groups && call.newId !in db.groups
    ensures After(db, EditOf(db, call)).entries.Keys <= db.entries.Keys
  {
    match call.op
    case UpdateFieldsOp(_, _) =>
    case SetHistoryMaxOp(_) =>
    case _ => OtherEditHistories(db, call);
  }

  lemma {:induction false} RunKeepsBinned(s: State, calls: seq<Call>, e: Id, p: Id, bin: Id)
    requires Valid(s.db) && Admissible(s.db, calls) && Binned(s.db, e, p, bin)
    requires forall i :: 0 <= i < |calls| ==> LeavesAlone(calls[i].op, e)
    requires e in Run(s, calls).db.entries
    ensures Binned(Run(s, calls).db, e, p, bin)
    decreases calls
  {
    if calls != [] {
      var next := Apply(s, EditOf(s.db, calls[0]));
      RunEntriesShrink(next, calls[1..]);
      CallKeepsBinned(s.db, calls[0], e, p, bin);
      EveryEditKept(s.db, calls[0]);
      RunKeepsBinned(next, calls[1..], e, p, bin);
    }
  }

  lemma {:induction false} RunEntriesShrink(s: State, calls: seq<Call>)
    requires Admissible(s.db, calls)
    ensures Run(s, calls).db.entries.Keys <= s.db.entries.Keys
    decreases calls
  {
    if calls != [] {
      EntriesOnlyShrink(s.db, calls[0]);
      RunEntriesShrink(Apply(s, EditOf(s.db, calls[0])), calls[1..]);
    }
  }

  /** Where a restore puts `e`: back into `p` if `p` is still there and outside the bin, else into the root. */
  ghost predicate GoesBack(db: Database, e: Id, p: Id, now: Time)
  {
    && db.root in db.groups && RecycleBinId(db).Some? && e in db.entries && RestoreEntryEdit(db, e, now).Changes?
    && e in RestoreEntryEdit(db, e, now).db.entries
    && RestoreEntryEdit(db, e, now).db.entries[e].parent ==
         (if p in db.groups && !InSubtree(db.groups, p, RecycleBinId(db).value) then p else db.root)
  }

  lemma BinnedGoesBack(s: State, calls: seq<Call>, e: Id, p: Id, bin: Id, later: Time)
    requires Valid(s.db) && Admissible(s.db, calls) && Binned(s.db, e, p, bin) && e in Run(s, calls).db.entries
    requires forall i :: 0 <= i < |calls| ==> LeavesAlone(calls[i].op, e)
    ensures GoesBack(Run(s, calls).db, e, p, later)
  {
    RunKeepsVault(s, calls);
    RunKeepsBinned(s, calls, e, p, bin);
    RestoresBinned(Run(s, calls).db, e, p, bin, later);
  }

  /** Trash `e`, which lay in `p`; let any calls run that do not move, restore or delete `e` itself;
      if `e` is still there, restore succeeds and puts it back into `p` if `p` is still there and
      outside the bin, and into the root otherwise. */
  lemma RestoreGoesBack(s: State, e: Id, newId: Id, now: Time, calls: seq<Call>, later: Time)
    requires Valid(s.db) && Unused(s.db, newId) && TrashEntryEdit(s.db, e, newId, now).Changes?
    requires var trashed := Apply(s, TrashEntryEdit(s.db, e, newId, now));
             Admissible(trashed.db, calls) && e in Run(trashed, calls).db.entries
    requires forall i :: 0 <= i < |calls| ==> LeavesAlone(calls[i].op, e)
    ensures e in s.db.entries
    ensures GoesBack(Run(Apply(s, TrashEntryEdit(s.db, e, newId, now)), calls).db, e, s.db.entries[e].parent, later)
  {
    TrashedIsBinned(s.db, e, newId, now);
    TrashEntryKept(s.db, e, newId, now);
    BinnedGoesBack(Apply(s, TrashEntryEdit(s.db, e, newId, now)), calls, e, s.db.entries[e].parent,
                   EnsureRecycleBin(s.db, newId).id, later);
  }

  lemma TrashedIsBinned(db: Database, e: Id, newId: Id, now: Time)
    requires db.root in db.groups && newId !in db.groups && TrashEntryEdit(db, e, newId, now).Changes?
    ensures EnsureRecycleBin(db, newId).Bin? && e in db.entries
    ensures Binned(TrashEntryEdit(db, e, newId, now).db, e, db.entries[e].parent, EnsureRecycleBin(db, newId).id)
  {
    EnsuredFacts(db, newId);
    var r := EnsureRecycleBin(db, newId);
    OutOfBinFacts(r.db, e, r.id, now);
  }

  lemma RestoresBinned(db: Database, e: Id, p: Id, bin: Id, now: Time)
    requires ValidTree(db) && Binned(db, e, p, bin)
    ensures RestoreEntryEdit(db, e, now).Changes?
    ensures RestoreEntryEdit(db, e, now).db.entries[e].parent ==
              (if p in db.groups && !InSubtree(db.groups, p, bin) then p else db.root)
  {
    InsideSelf(db.groups, bin);
    if p in db.groups {
      InsideIsSubtree(db, p, bin);
    }
    OutOfBinFacts(db, e, RestoreTarget(db, bin, Some(p)), now);
  }
}

/** The retained document: a database with a process-local revision counter, edited in place. */
module KdbxDocument {
  import opened Vault
  import opened ThreeWay
  import opened TreeOps
  import opened TreeLemmas
  import opened HistoryPolicy
  import opened DocumentSpec
  import opened DocumentLaws

  datatype Result = Ok | Err(error: DocError)

  function ResultOf(edit: Edit): (r: Result)
  {
    if edit.Fails? then Err(edit.error) else Ok
  }

  /** Walks the parents of `g`; the walk ends because a valid tree has no cycle. */
  method GroupIsInRecycleBin(db: Database, g: Id, bin: Id) returns (inside: bool)
    requires ValidTree(db) && g in db.groups
    ensures inside <==> Inside(db.groups, g, bin)
    ensures inside <==> InSubtree(db.groups, g, bin)
  {
    InsideIsSubtree(db, g, bin);
    var current := Some(g);
    ghost var k: nat := 0;
    while current.Some?
      invariant current == Climb(db.groups, g, k)
      invariant k <= |db.groups|
      invariant forall i: nat :: i < k ==> Climb(db.groups, g, i) != Some(bin)
      decreases |db.groups| - k
    {
      ClimbBounded(db, g, k);
      if current.value == bin {
        return true;
      }
      current := if current.value in db.groups then db.groups[current.value].parent else None;
      k := k + 1;
    }
    if InSubtree(db.groups, g, bin) {
      var n: nat :| Climb(db.groups, g, n) == Some(bin);
      if n >= k {
        ClimbNoneAfter(db.groups, g, k, n);
      }
    }
    inside := false;
  }

  // ---------------------------------------------------------------- computing an edit on a candidate

  method TrashEntryOn(db: Database, e: Id, newId: Id, now: Time) returns (edit: Edit)
    requires ValidTree(db) && newId !in db.groups
    ensures edit == TrashEntryEdit(db, e, newId, now)
  {
    if e !in db.entries {
      return Fails(EntryNotFound);
    }
    var bin := EnsureRecycleBin(db, newId);
    if bin.NoBin? {
      return Fails(bin.error);
    }
    BinTree(db, newId);
    EntryParentListed(bin.db, e);
    var inside := GroupIsInRecycleBin(bin.db, bin.db.entries[e].parent, bin.id);
    if inside {
      return Same;
    }
    edit := Changes(StampEntry(MoveEntry(bin.db, e, bin.id).db, e, now));
  }

  method TrashGroupOn(db: Database, g: Id, newId: Id, now: Time) returns (edit: Edit)
    requires ValidTree(db) && newId !in db.groups
    ensures edit == TrashGroupEdit(db, g, newId, now)
  {
    if g !in db.groups {
      return Fails(GroupNotFound);
    }
    if g == db.root {
      return Fails(CannotDeleteRootGroup);
    }
    var bin := EnsureRecycleBin(db, newId);
    if bin.NoBin? {
      return Fails(bin.error);
    }
    BinTree(db, newId);
    var inside := GroupIsInRecycleBin(bin.db, g, bin.id);
    if inside {
      return Same;
    }
    var moved := MoveGroup(bin.db, g, bin.id);
    edit := if moved.Refused? then Fails(InvalidGroupMove) else Changes(StampGroup(moved.db, g, now));
  }

  method RestoreTargetOf(db: Database, bin: Id, previous: Option<Id>) returns (dest: Id)
    requires ValidTree(db)
    ensures dest == RestoreTarget(db, bin, previous) && dest in db.groups
  {
    if previous.Some? && previous.value in db.groups {
      var inside := GroupIsInRecycleBin(db, previous.value, bin);
      if !inside {
        return previous.value;
      }
    }
    dest := db.root;
  }

  method RestoreEntryOn(db: Database, e: Id, now: Time) returns (edit: Edit)
    requires ValidTree(db)
    ensures edit == RestoreEntryEdit(db, e, now)
  {
    if e !in db.entries {
      return Fails(EntryNotFound);
    }
    var bin := RecycleBinId(db);
    if bin.None? {
      return Fails(InvalidRecycleBinOperation);
    }
    EntryParentListed(db, e);
    var inside := GroupIsInRecycleBin(db, db.entries[e].parent, bin.value);
    if !inside {
      return Fails(InvalidRecycleBinOperation);
    }
    var dest := RestoreTargetOf(db, bin.value, db.entries[e].state.previousParent);
    edit := Changes(StampEntry(MoveEntry(db, e, dest).db, e, now));
  }

  method RestoreGroupOn(db: Database, g: Id, now: Time) returns (edit: Edit)
    requires ValidTree(db)
    ensures edit == RestoreGroupEdit(db, g, now)
  {
    if g !in db.groups {
      return Fails(GroupNotFound);
    }
    var bin := RecycleBinId(db);
    if bin.None? {
      return Fails(InvalidRecycleBinOperation);
    }
    var inside := GroupIsInRecycleBin(db, g, bin.value);
    if g == bin.value || !inside {
      return Fails(InvalidRecycleBinOperation);
    }
    var dest := RestoreTargetOf(db, bin.value, db.groups[g].previousParent);
    var moved := MoveGroup(db, g, dest);
    edit := if moved.Refused? then Fails(InvalidGroupMove) else Changes(StampGroup(moved.db, g, now));
  }

  /** The worklist collects every group of the subtree once; it empties because a group is pushed
      only when its one parent is popped. */
  method GroupSubtreeIds(db: Database, top: Id) returns (ids: seq<Id>)
    requires ValidTree(db) && top in db.groups
    ensures NoDup(ids) && Elements(ids) == Below(db.groups, top)
  {
    var pending := [top];
    ids := [];
    StartCollecting(db, top);
    while pending != []
      invariant Collecting(db, top, pending, ids)
      decreases db.groups.Keys - Elements(ids)
    {
      var g := pending[|pending| - 1];
      CollectStep(db, top, pending, ids);
      ElementsAppend(ids, g);
      pending := pending[..|pending| - 1] + db.groups[g].groups;
      ids := ids + [g];
    }
    CollectedAll(db, top, ids);
  }

  method DeleteGroupOn(db: Database, g: Id, now: Time) returns (edit: Edit)
    requires ValidTree(db)
    ensures edit == DeleteGroupEdit(db, g, now)
  {
    if g !in db.groups {
      return Fails(GroupNotFound);
    }
    if g == db.root {
      return Fails(CannotDeleteRootGroup);
    }
    var subtree := GroupSubtreeIds(db, g);
    var gone := Elements(subtree);
    var meta := db.meta;
    if meta.recycleBinUuid.Some? && meta.recycleBinUuid.value in gone {
      meta := meta.(recycleBinUuid := None);
    }
    edit := Changes(RemoveGroup(db, g).(deleted := Tombstoned(db.deleted, gone + EntriesIn(db, gone), now), meta := meta));
  }

  method MoveEntriesOn(db: Database, es: seq<Id>, dest: Id, now: Time) returns (edit: Edit)
    ensures edit == MoveEntriesEdit(db, es, dest, now)
  {
    if es == [] {
      return Same;
    }
    if dest !in db.groups {
      return Fails(GroupNotFound);
    }
    if !AllFound(db, es) {
      return Fails(EntryNotFound);
    }
    var candidate, changed := db, false;
    for i := 0 to |es|
      invariant candidate.groups.Keys == db.groups.Keys && candidate.entries.Keys == db.entries.Keys
      invariant MoveAll(db, es, dest, now) == MoveAll(candidate, es[i..], dest, now)
      invariant !changed ==> candidate == db && forall j :: 0 <= j < i ==> db.entries[es[j]].parent == dest
      invariant changed ==> exists j :: 0 <= j < |es| && db.entries[es[j]].parent != dest
    {
      assert es[i..][0] == es[i] && es[i..][1..] == es[i + 1..];
      var step := MoveEntryEdit(candidate, es[i], dest, now);
      if step.Changes? {
        candidate, changed := step.db, true;
      }
    }
    assert es[|es|..] == [];
    edit := if changed then Changes(candidate) else Same;
  }

  method TrashLoop(c: Database, bin: Id, es: seq<Id>, now: Time) returns (candidate: Database, changed: bool)
    requires ValidTree(c) && AllFound(c, es) && bin in c.groups
    ensures candidate == TrashAll(c, bin, es, now)
    ensures changed <==> exists j :: 0 <= j < |es| && !Inside(c.groups, c.entries[es[j]].parent, bin)
  {
    candidate, changed := c, false;
    for i := 0 to |es|
      invariant ValidTree(candidate)
      invariant candidate.groups.Keys == c.groups.Keys && candidate.entries.Keys == c.entries.Keys
      invariant TrashAll(c, bin, es, now) == TrashAll(candidate, bin, es[i..], now)
      invariant !changed ==> candidate == c && forall j :: 0 <= j < i ==> Inside(c.groups, c.entries[es[j]].parent, bin)
      invariant changed ==> exists j :: 0 <= j < |es| && !Inside(c.groups, c.entries[es[j]].parent, bin)
    {
      assert es[i..][0] == es[i] && es[i..][1..] == es[i + 1..];
      var next, moved := TrashOne(candidate, bin, es[i], now);
      if !changed && moved {
        assert !Inside(c.groups, c.entries[es[i]].parent, bin);
      }
      candidate, changed := next, changed || moved;
    }
    assert es[|es|..] == [];
  }

  method TrashOne(c: Database, bin: Id, e: Id, now: Time) returns (next: Database, moved: bool)
    requires ValidTree(c) && e in c.entries && bin in c.groups
    ensures next == IntoBin(c, bin, e, now) && ValidTree(next)
    ensures next.groups.Keys == c.groups.Keys && next.entries.Keys == c.entries.Keys
    ensures moved <==> !Inside(c.groups, c.entries[e].parent, bin)
    ensures !moved ==> next == c
  {
    EntryParentListed(c, e);
    var inside := GroupIsInRecycleBin(c, c.entries[e].parent, bin);
    if inside {
      return c, false;
    }
    MovedEntryValid(c, e, bin);
    StampedEntryTree(MoveEntry(c, e, bin).db, e, now);
    next, moved := StampEntry(MoveEntry(c, e, bin).db, e, now), true;
  }

  method TrashEntriesOn(db: Database, es: seq<Id>, newId: Id, now: Time) returns (edit: Edit)
    requires ValidTree(db) && newId !in db.groups
    ensures edit == TrashEntriesEdit(db, es, newId, now)
  {
    if es == [] {
      return Same;
    }
    if !AllFound(db, es) {
      return Fails(EntryNotFound);
    }
    var bin := EnsureRecycleBin(db, newId);
    if bin.NoBin? {
      return Fails(bin.error);
    }
    BinTree(db, newId);
    var candidate, changed := TrashLoop(bin.db, bin.id, es, now);
    edit := if changed then Changes(candidate) else Same;
  }

  method RestoreEntriesOn(db: Database, es: seq<Id>, now: Time) returns (edit: Edit)
    requires ValidTree(db)
    ensures edit == RestoreEntriesEdit(db, es, now)
  {
    if es == [] {
      return Same;
    }
    if !AllFound(db, es) {
      return Fails(EntryNotFound);
    }
    var bin := RecycleBinId(db);
    if bin.None? {
      return Fails(InvalidRecycleBinOperation);
    }
    var destinations: seq<Id> := [];
    for i := 0 to |es|
      invariant |destinations| == i
      invariant forall j :: 0 <= j < i ==> Restorable(db, bin.value, es[j])
      invariant forall j :: 0 <= j < i ==>
                  destinations[j] == RestoreTarget(db, bin.value, db.entries[es[j]].state.previousParent)
    {
      EntryParentListed(db, es[i]);
      var inside := GroupIsInRecycleBin(db, db.entries[es[i]].parent, bin.value);
      if !inside {
        assert !Restorable(db, bin.value, es[i]);
        return Fails(InvalidRecycleBinOperation);
      }
      var dest := RestoreTargetOf(db, bin.value, db.entries[es[i]].state.previousParent);
      destinations := destinations + [dest];
    }
    var candidate := RestoreLoop(db, bin.value, es, destinations, now);
    edit := Changes(candidate);
  }

  method RestoreLoop(db: Database, bin: Id, es: seq<Id>, destinations: seq<Id>, now: Time) returns (candidate: Database)
    requires db.root in db.groups && AllFound(db, es) && |destinations| == |es|
    requires forall j :: 0 <= j < |es| ==>
               destinations[j] == RestoreTarget(db, bin, db.entries[es[j]].state.previousParent)
    ensures candidate == RestoreAll(db, db, bin, es, now)
  {
    candidate := db;
    for i := 0 to |es|
      invariant candidate.groups.Keys == db.groups.Keys && candidate.entries.Keys == db.entries.Keys
      invariant RestoreAll(db, db, bin, es, now) == RestoreAll(candidate, db, bin, es[i..], now)
    {
      assert es[i..][0] == es[i] && es[i..][1..] == es[i + 1..];
      var moved := MoveEntry(candidate, es[i], destinations[i]);
      candidate := StampEntry(moved.db, es[i], now);
    }
    assert es[|es|..] == [];
  }

  /** What a field must hold after an update: untouched without a request; with one, the requested
      text under the protection the field already has; a missing field appears, under the protection
      the database gives new fields, unless the request is empty. */
  predicate FieldUpdated(before: Option<Value>, request: Option<FieldUpdate>, after: Option<Value>)
  {
    match request
    case None => after == before
    case Some(u) =>
      if before.Some? then after == Some(Value(u.text, before.value.secret))
      else if u.text == "" then after.None?
      else after == Some(Value(u.text, u.secret))
  }

  /** Walks the requested fields and keeps those that really change. */
  method CollectChanges(fields: map<string, Value>, updates: map<string, FieldUpdate>)
    returns (changes: map<string, Value>)
    ensures forall key :: FieldUpdated(Lookup(fields, key), Lookup(updates, key), Lookup(fields + changes, key))
    ensures forall key :: key in changes ==> Lookup(fields, key) != Some(changes[key])
  {
    changes := map[];
    var rest := updates.Keys;
    while rest != {}
      invariant rest <= updates.Keys && changes.Keys <= updates.Keys - rest
      invariant forall key :: key !in rest ==>
                  FieldUpdated(Lookup(fields, key), Lookup(updates, key), Lookup(fields + changes, key))
      invariant forall key :: key in changes ==> Lookup(fields, key) != Some(changes[key])
      decreases rest
    {
      var key :| key in rest;
      var value, existing := updates[key], Lookup(fields, key);
      if (existing.Some? && existing.value.text == value.text) || (existing.None? && value.text == "") {
      } else {
        var secret := if existing.Some? then existing.value.secret else value.secret;
        changes := changes[key := Value(value.text, secret)];
      }
      rest := rest - {key};
    }
  }

  /** The fields that an update must leave are determined by the per-field rule. */
  lemma FieldsDetermined(fields: map<string, Value>, updates: map<string, FieldUpdate>, changes: map<string, Value>)
    requires forall key :: FieldUpdated(Lookup(fields, key), Lookup(updates, key), Lookup(fields + changes, key))
    requires forall key :: key in changes ==> Lookup(fields, key) != Some(changes[key])
    ensures changes == RealUpdates(fields, updates)
  {
    var kept := RealUpdates(fields, updates);
    forall key ensures Lookup(changes, key) == Lookup(kept, key) {
      assert FieldUpdated(Lookup(fields, key), Lookup(updates, key), Lookup(fields + changes, key));
      assert key in changes ==> Lookup(fields + changes, key) == Some(changes[key]);
    }
    forall key ensures (key in changes <==> key in kept) && (key in changes ==> changes[key] == kept[key]) {
      assert Lookup(changes, key) == Lookup(kept, key);
    }
  }

  /** One tracked edit: every field afterwards is as its own request demands, all at once; the prior
      state becomes the newest history item, within the limit; nothing happens if nothing changes. */
  method UpdateFieldsOn(db: Database, e: Id, updates: map<string, FieldUpdate>, now: Time) returns (edit: Edit)
    ensures edit == UpdateFieldsEdit(db, e, updates, now)
    ensures edit.Fails? <==> e !in db.entries
    ensures edit.Changes? ==> e in edit.db.entries
    ensures edit.Changes? ==> forall key ::
              FieldUpdated(Lookup(db.entries[e].state.fields, key), Lookup(updates, key), Lookup(edit.db.entries[e].state.fields, key))
    ensures edit.Same? ==> forall key ::
              FieldUpdated(Lookup(db.entries[e].state.fields, key), Lookup(updates, key), Lookup(db.entries[e].state.fields, key))
  {
    if e !in db.entries {
      return Fails(EntryNotFound);
    }
    var entry := db.entries[e];
    var changes := CollectChanges(entry.state.fields, updates);
    FieldsDetermined(entry.state.fields, updates, changes);
    if changes == map[] {
      assert entry.state.fields + changes == entry.state.fields;
      return Same;
    }
    var tracked := Entry(entry.parent,
                         entry.state.(fields := entry.state.fields + changes, times := entry.state.times.(lastModification := now)),
                         [HistoryItem(entry.parent, entry.state)] + entry.history);
    var limit := FiniteLimit(db.meta);
    if limit.Some? {
      tracked := PruneEntryHistory(tracked, limit.value);
    }
    edit := Changes(db.(entries := db.entries[e := tracked]));
  }

  method SetHistoryMaxOn(db: Database, limit: Option<nat>) returns (edit: Edit)
    ensures edit == SetHistoryMaxEdit(db, limit)
  {
    if FiniteLimit(db.meta) == limit {
      return Same;
    }
    if limit.Some? && limit.value > MAX_HISTORY_ITEMS {
      return Fails(InvalidHistoryPolicy);
    }
    var stored: Option<int> := if limit.Some? then Some(limit.value) else None;
    var candidate := PruneAllEntryHistory(db.(meta := db.meta.(historyMaxItems := stored)), limit);
    edit := Changes(candidate);
  }

  // ---------------------------------------------------------------- the document

  class Document {
    var database: Database
    var revision: nat
    var permanentlyDirty: bool

    ghost predicate Valid()
      reads this
    {
      Vault.Valid(database)
    }

    function Snapshot(): (s: State)
      reads this
    {
      State(database, revision, permanentlyDirty)
    }

    constructor (db: Database)
      requires Vault.Valid(db)
      ensures Valid() && Snapshot() == State(db, 0, false)
    {
      database, revision, permanentlyDirty := db, 0, false;
    }

    method HasChanges(saved: nat) returns (changed: bool)
      ensures changed <==> HasChangesSince(Snapshot(), saved)
    {
      changed := permanentlyDirty || revision != saved;
    }

    /** Installs a finished candidate and counts it; at the top of the counter the document becomes
        permanently dirty instead of wrapping. An error or a no-op leaves everything as it was. */
    method Install(edit: Edit) returns (r: Result)
      modifies this
      ensures Snapshot() == Apply(old(Snapshot()), edit) && r == ResultOf(edit)
    {
      if edit.Changes? {
        database := edit.db;
        if revision >= MAX_REVISION {
          permanentlyDirty := true;
        } else {
          revision := revision + 1;
        }
      }
      r := ResultOf(edit);
    }

    /** One call of the state machine, whichever mutation it is. */
    method Perform(call: Call) returns (r: Result)
      requires Valid() && Unused(database, call.newId)
      modifies this
      ensures Valid() && Snapshot() == Apply(old(Snapshot()), EditOf(old(database), call))
      ensures r == ResultOf(EditOf(old(database), call))
    {
      EveryEditKept(database, call);
      var edit := Compute(database, call);
      r := Install(edit);
    }
  }

  method Compute(db: Database, call: Call) returns (edit: Edit)
    requires ValidTree(db) && call.newId !in db.groups
    ensures edit == EditOf(db, call)
  {
    match call.op {
      case MoveEntryOp(e, dest) => edit := MoveEntryEdit(db, e, dest, call.now);
      case MoveGroupOp(g, dest) => edit := MoveGroupEdit(db, g, dest, call.now);
      case TrashEntryOp(e) => edit := TrashEntryOn(db, e, call.newId, call.now);
      case RestoreEntryOp(e) => edit := RestoreEntryOn(db, e, call.now);
      case TrashGroupOp(g) => edit := TrashGroupOn(db, g, call.newId, call.now);
      case RestoreGroupOp(g) => edit := RestoreGroupOn(db, g, call.now);
      case DeleteEntryOp(e) => edit := DeleteEntryEdit(db, e, call.now);
      case DeleteGroupOp(g) => edit := DeleteGroupOn(db, g, call.now);
      case DeleteRecycledEntryOp(e) => edit := DeleteRecycledEntryEdit(db, e, call.now);
      case DeleteRecycledGroupOp(g) => edit := DeleteRecycledGroupEdit(db, g, call.now);
      case MoveEntriesOp(es, dest) => edit := MoveEntriesOn(db, es, dest, call.now);
      case TrashEntriesOp(es) => edit := TrashEntriesOn(db, es, call.newId, call.now);
      case RestoreEntriesOp(es) => edit := RestoreEntriesOn(db, es, call.now);
      case DeleteRecycledEntriesOp(es) => edit := DeleteRecycledEntriesEdit(db, es, call.now);
      case UpdateFieldsOp(e, updates) => edit := UpdateFieldsOn(db, e, updates, call.now);
      case SetHistoryMaxOp(limit) => edit := SetHistoryMaxOn(db, limit);
    }
  }

  // ---------------------------------------------------------------- the subtree worklist

  /** Everything queued or collected is below `top`, appears once, and has its parent collected;
      every child of a collected group is queued or collected. */
  ghost predicate Collecting(db: Database, top: Id, pending: seq<Id>, ids: seq<Id>)
  {
    && NoDup(pending + ids)
    && top in pending + ids
    && (forall x :: x in pending + ids ==> x in db.groups && InSubtree(db.groups, x, top))
    && (forall x :: x in pending + ids && x != top ==> db.groups[x].parent.Some? && db.groups[x].parent.value in ids)
    && (forall x, c :: x in ids && c in db.groups[x].groups ==> c in pending + ids)
  }

  lemma StartCollecting(db: Database, top: Id)
    requires top in db.groups
    ensures Collecting(db, top, [top], [])
  {
    SubtreeStep(db.groups, top, top);
  }

  lemma CollectStep(db: Database, top: Id, pending: seq<Id>, ids: seq<Id>)
    requires ValidTree(db) && top in db.groups && pending != [] && Collecting(db, top, pending, ids)
    ensures var g := pending[|pending| - 1];
            && g in db.groups && g !in ids
            && Collecting(db, top, pending[..|pending| - 1] + db.groups[g].groups, ids + [g])
  {
    var rest, g := pending[..|pending| - 1], pending[|pending| - 1];
    var children := db.groups[g].groups;
    assert ChildrenPointBack(db, g);
    assert pending == rest + [g];
    forall i | 0 <= i < |ids| ensures ids[i] != g {
      assert (pending + ids)[|pending| + i] == ids[i] && (pending + ids)[|pending| - 1] == g;
    }
    forall c | c in children ensures c !in pending + ids && c in db.groups && InSubtree(db.groups, c, top) {
      SubtreeStep(db.groups, c, top);
      if c == top {
        SubtreeStep(db.groups, c, g);
        SubtreeStep(db.groups, g, g);
        SubtreeAntisymmetric(db, c, g);
        NotOwnParent(db, g);
      }
    }
    NoDupRearranged(rest, g, ids, children);
    var queue, done := rest + children, ids + [g];
    forall x ensures x in queue + done <==> x in pending + ids || x in children {
    }
    forall x, c | x in done && c in db.groups[x].groups ensures c in queue + done {
      if x != g {
        assert c in pending + ids;
      }
    }
  }

  lemma NoDupRearranged(rest: seq<Id>, g: Id, ids: seq<Id>, children: seq<Id>)
    requires NoDup((rest + [g]) + ids) && NoDup(children) && forall c :: c in children ==> c !in (rest + [g]) + ids
    ensures g !in ids && NoDup((rest + children) + (ids + [g]))
  {
    var all := (rest + [g]) + ids;
    forall i | 0 <= i < |ids| ensures ids[i] == all[|rest| + 1 + i] {
    }
    assert all[|rest|] == g;
    forall i | 0 <= i < |rest| ensures rest[i] == all[i] {
    }
    forall i | 0 <= i < |children| ensures children[i] !in all {
    }
  }

  lemma CollectedAll(db: Database, top: Id, ids: seq<Id>)
    requires ValidTree(db) && top in db.groups && Collecting(db, top, [], ids)
    ensures NoDup(ids) && Elements(ids) == Below(db.groups, top)
  {
    assert [] + ids == ids;
    BelowIsSubtree(db, top);
    DownWithin(db.groups, {top}, |db.groups|, Elements(ids));
  }
}

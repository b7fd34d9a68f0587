/** What each document mutation does to the database: moves, recycle bin, permanent deletion. */
module DocumentSpec {
  import opened Vault
  import opened TreeOps
  import opened HistoryPolicy

  datatype DocError =
    | EntryNotFound | GroupNotFound | InvalidGroupMove | CannotDeleteRootGroup
    | RecycleBinDisabled | InvalidRecycleBinOperation | InvalidHistoryPolicy

  /** The effect of one call: an error, a successful no-op, or a real change. */
  datatype Edit = Fails(error: DocError) | Same | Changes(db: Database)

  function After(db: Database, edit: Edit): (r: Database)
  {
    if edit.Changes? then edit.db else db
  }

  function StampEntry(db: Database, e: Id, now: Time): (r: Database)
    requires e in db.entries
  {
    var entry := db.entries[e];
    db.(entries := db.entries[e := entry.(state := entry.state.(times := entry.state.times.(locationChanged := now)))])
  }

  function StampGroup(db: Database, g: Id, now: Time): (r: Database)
    requires g in db.groups
  {
    var group := db.groups[g];
    db.(groups := db.groups[g := group.(times := group.times.(locationChanged := now))])
  }

  // ---------------------------------------------------------------- moves

  function MoveEntryEdit(db: Database, e: Id, dest: Id, now: Time): (r: Edit)
  {
    if e !in db.entries then Fails(EntryNotFound)
    else if dest !in db.groups then Fails(GroupNotFound)
    else if db.entries[e].parent == dest then Same
    else Changes(StampEntry(MoveEntry(db, e, dest).db, e, now))
  }

  function MoveGroupEdit(db: Database, g: Id, dest: Id, now: Time): (r: Edit)
  {
    if g !in db.groups || dest !in db.groups then Fails(GroupNotFound)
    else if db.groups[g].parent.None? then Fails(InvalidGroupMove)
    else if db.groups[g].parent == Some(dest) then Same
    else match MoveGroup(db, g, dest)
      case Refused(NotFound) => Fails(GroupNotFound)
      case Refused(_) => Fails(InvalidGroupMove)
      case Moved(moved) => Changes(StampGroup(moved, g, now))
  }

  // ---------------------------------------------------------------- recycle bin

  function RecycleBinId(db: Database): (r: Option<Id>)
  {
    if db.meta.recycleBinUuid.Some? && db.meta.recycleBinUuid.value in db.groups then db.meta.recycleBinUuid else None
  }

  function NewBin(root: Id): (r: Group)
  {
    Group(Some(root), None, [], [], GroupProps("Recycle Bin", None, [], map[], true, None, None, None),
          Times(None, None, None, None, None, None, None), None)
  }

  datatype BinResult = Bin(db: Database, id: Id) | NoBin(error: DocError)

  /** Finds the bin, or creates it below the root with a new identity. */
  function EnsureRecycleBin(db: Database, newId: Id): (r: BinResult)
    requires db.root in db.groups && newId !in db.groups
  {
    if db.meta.recycleBinEnabled == Some(false) then NoBin(RecycleBinDisabled)
    else match RecycleBinId(db)
      case Some(id) => Bin(db, id)
      case None =>
        var meta := db.meta.(recycleBinEnabled := Some(true), recycleBinUuid := Some(newId));
        Bin(AddGroup(db, db.root, newId, NewBin(db.root)).(meta := meta), newId)
  }

  /** The body of a trash step once the bin is there. */
  function IntoBin(c: Database, bin: Id, e: Id, now: Time): (r: Database)
    requires e in c.entries && bin in c.groups
  {
    if Inside(c.groups, c.entries[e].parent, bin) then c else StampEntry(MoveEntry(c, e, bin).db, e, now)
  }

  function TrashEntryEdit(db: Database, e: Id, newId: Id, now: Time): (r: Edit)
    requires db.root in db.groups && newId !in db.groups
  {
    if e !in db.entries then Fails(EntryNotFound)
    else match EnsureRecycleBin(db, newId)
      case NoBin(error) => Fails(error)
      case Bin(c, bin) => if Inside(c.groups, c.entries[e].parent, bin) then Same else Changes(IntoBin(c, bin, e, now))
  }

  /** The recorded previous group while it is live and outside the bin, else the root. */
  function RestoreTarget(db: Database, bin: Id, previous: Option<Id>): (r: Id)
  {
    if previous.Some? && previous.value in db.groups && !Inside(db.groups, previous.value, bin) then previous.value else db.root
  }

  predicate Restorable(db: Database, bin: Id, e: Id)
  {
    e in db.entries && Inside(db.groups, db.entries[e].parent, bin)
  }

  function OutOfBin(db: Database, e: Id, dest: Id, now: Time): (r: Database)
    requires e in db.entries && dest in db.groups
  {
    StampEntry(MoveEntry(db, e, dest).db, e, now)
  }

  function RestoreEntryEdit(db: Database, e: Id, now: Time): (r: Edit)
    requires db.root in db.groups
  {
    if e !in db.entries then Fails(EntryNotFound)
    else match RecycleBinId(db)
      case None => Fails(InvalidRecycleBinOperation)
      case Some(bin) =>
        if !Restorable(db, bin, e) then Fails(InvalidRecycleBinOperation)
        else Changes(OutOfBin(db, e, RestoreTarget(db, bin, db.entries[e].state.previousParent), now))
  }

  function TrashGroupEdit(db: Database, g: Id, newId: Id, now: Time): (r: Edit)
    requires db.root in db.groups && newId !in db.groups
  {
    if g !in db.groups then Fails(GroupNotFound)
    else if g == db.root then Fails(CannotDeleteRootGroup)
    else match EnsureRecycleBin(db, newId)
      case NoBin(error) => Fails(error)
      case Bin(c, bin) =>
        if Inside(c.groups, g, bin) then Same
        else match MoveGroup(c, g, bin)
          case Refused(_) => Fails(InvalidGroupMove)
          case Moved(moved) => Changes(StampGroup(moved, g, now))
  }

  function RestoreGroupEdit(db: Database, g: Id, now: Time): (r: Edit)
    requires db.root in db.groups
  {
    if g !in db.groups then Fails(GroupNotFound)
    else match RecycleBinId(db)
      case None => Fails(InvalidRecycleBinOperation)
      case Some(bin) =>
        if g == bin || !Inside(db.groups, g, bin) then Fails(InvalidRecycleBinOperation)
        else match MoveGroup(db, g, RestoreTarget(db, bin, db.groups[g].previousParent))
          case Refused(_) => Fails(InvalidGroupMove)
          case Moved(moved) => Changes(StampGroup(moved, g, now))
  }

  // ---------------------------------------------------------------- permanent deletion

  function Tombstoned(deleted: map<Id, Time>, ids: set<Id>, now: Time): (r: map<Id, Time>)
    ensures r.Keys == deleted.Keys + ids
  {
    map x | x in deleted.Keys + ids :: if x in ids then now else deleted[x]
  }

  function DeleteEntryEdit(db: Database, e: Id, now: Time): (r: Edit)
  {
    if e !in db.entries then Fails(EntryNotFound)
    else Changes(RemoveEntry(db, e).(deleted := Tombstoned(db.deleted, {e}, now)))
  }

  /** Removes a subtree, tombstones everything in it, and forgets a bin that was inside it. */
  function DeleteGroupEdit(db: Database, g: Id, now: Time): (r: Edit)
  {
    if g !in db.groups then Fails(GroupNotFound)
    else if g == db.root then Fails(CannotDeleteRootGroup)
    else
      var gone := Below(db.groups, g);
      var bin := db.meta.recycleBinUuid;
      Changes(RemoveGroup(db, g).(
        deleted := Tombstoned(db.deleted, gone + EntriesIn(db, gone), now),
        meta := db.meta.(recycleBinUuid := if bin.Some? && bin.value in gone then None else bin)))
  }

  function DeleteRecycledEntryEdit(db: Database, e: Id, now: Time): (r: Edit)
  {
    if e !in db.entries then Fails(EntryNotFound)
    else match RecycleBinId(db)
      case None => Fails(InvalidRecycleBinOperation)
      case Some(bin) => if !Restorable(db, bin, e) then Fails(InvalidRecycleBinOperation) else DeleteEntryEdit(db, e, now)
  }

  function DeleteRecycledGroupEdit(db: Database, g: Id, now: Time): (r: Edit)
  {
    if g !in db.groups then Fails(GroupNotFound)
    else match RecycleBinId(db)
      case None => Fails(InvalidRecycleBinOperation)
      case Some(bin) => if g == bin || !Inside(db.groups, g, bin) then Fails(InvalidRecycleBinOperation) else DeleteGroupEdit(db, g, now)
  }

  // ---------------------------------------------------------------- batches

  predicate AllFound(db: Database, es: seq<Id>)
  {
    forall i :: 0 <= i < |es| ==> es[i] in db.entries
  }

  function MoveAll(c: Database, es: seq<Id>, dest: Id, now: Time): (r: Database)
    requires AllFound(c, es) && dest in c.groups
    decreases es
  {
    if es == [] then c else MoveAll(After(c, MoveEntryEdit(c, es[0], dest, now)), es[1..], dest, now)
  }

  function MoveEntriesEdit(db: Database, es: seq<Id>, dest: Id, now: Time): (r: Edit)
  {
    if es == [] then Same
    else if dest !in db.groups then Fails(GroupNotFound)
    else if !AllFound(db, es) then Fails(EntryNotFound)
    else if forall i :: 0 <= i < |es| ==> db.entries[es[i]].parent == dest then Same
    else Changes(MoveAll(db, es, dest, now))
  }

  function TrashAll(c: Database, bin: Id, es: seq<Id>, now: Time): (r: Database)
    requires AllFound(c, es) && bin in c.groups
    decreases es
  {
    if es == [] then c else TrashAll(IntoBin(c, bin, es[0], now), bin, es[1..], now)
  }

  function TrashEntriesEdit(db: Database, es: seq<Id>, newId: Id, now: Time): (r: Edit)
    requires db.root in db.groups && newId !in db.groups
  {
    if es == [] then Same
    else if !AllFound(db, es) then Fails(EntryNotFound)
    else match EnsureRecycleBin(db, newId)
      case NoBin(error) => Fails(error)
      case Bin(c, bin) =>
        if forall i :: 0 <= i < |es| ==> Inside(c.groups, c.entries[es[i]].parent, bin) then Same
        else Changes(TrashAll(c, bin, es, now))
  }

  /** Moves each entry to the target computed from `origin`, the document before the batch. */
  function RestoreAll(c: Database, origin: Database, bin: Id, es: seq<Id>, now: Time): (r: Database)
    requires AllFound(c, es) && AllFound(origin, es) && origin.root in c.groups && origin.groups.Keys == c.groups.Keys
    decreases es
  {
    if es == [] then c
    else
      var dest := RestoreTarget(origin, bin, origin.entries[es[0]].state.previousParent);
      RestoreAll(OutOfBin(c, es[0], dest, now), origin, bin, es[1..], now)
  }

  function RestoreEntriesEdit(db: Database, es: seq<Id>, now: Time): (r: Edit)
    requires db.root in db.groups
  {
    if es == [] then Same
    else if !AllFound(db, es) then Fails(EntryNotFound)
    else match RecycleBinId(db)
      case None => Fails(InvalidRecycleBinOperation)
      case Some(bin) =>
        if exists i :: 0 <= i < |es| && !Restorable(db, bin, es[i]) then Fails(InvalidRecycleBinOperation)
        else Changes(RestoreAll(db, db, bin, es, now))
  }

  function DeleteAll(c: Database, es: seq<Id>, now: Time): (r: Edit)
    decreases es
  {
    if es == [] then Changes(c)
    else match DeleteEntryEdit(c, es[0], now)
      case Changes(d) => DeleteAll(d, es[1..], now)
      case failed => failed
  }

  function DeleteRecycledEntriesEdit(db: Database, es: seq<Id>, now: Time): (r: Edit)
  {
    if es == [] then Same
    else if !AllFound(db, es) then Fails(EntryNotFound)
    else match RecycleBinId(db)
      case None => Fails(InvalidRecycleBinOperation)
      case Some(bin) =>
        if exists i :: 0 <= i < |es| && !Restorable(db, bin, es[i]) then Fails(InvalidRecycleBinOperation)
        else DeleteAll(db, es, now)
  }

  // ---------------------------------------------------------------- tracked field edits

  /** A requested field value; `secret` is the protection a missing field would get. */
  datatype FieldUpdate = FieldUpdate(text: string, secret: bool)

  /** The requests that change something: not the current text, and not emptiness of a missing field. */
  function RealUpdates(fields: map<string, Value>, updates: map<string, FieldUpdate>): (r: map<string, Value>)
  {
    map key | key in updates && (if key in fields then fields[key].text != updates[key].text else updates[key].text != "") ::
      Value(updates[key].text, if key in fields then fields[key].secret else updates[key].secret)
  }

  /** One tracked edit: all changed fields at once, one history item for the prior state, then the limit. */
  function UpdateFieldsEdit(db: Database, e: Id, updates: map<string, FieldUpdate>, now: Time): (r: Edit)
  {
    if e !in db.entries then Fails(EntryNotFound)
    else
      var entry := db.entries[e];
      var changed := RealUpdates(entry.state.fields, updates);
      if changed == map[] then Same
      else
        var state := entry.state.(fields := entry.state.fields + changed,
                                  times := entry.state.times.(lastModification := now));
        var history := [HistoryItem(entry.parent, entry.state)] + entry.history;
        Changes(db.(entries := db.entries[e := Entry(entry.parent, state, Retained(FiniteLimit(db.meta), history))]))
  }

  function SetHistoryMaxEdit(db: Database, limit: Option<nat>): (r: Edit)
  {
    if FiniteLimit(db.meta) == limit then Same
    else if limit.Some? && limit.value > MAX_HISTORY_ITEMS then Fails(InvalidHistoryPolicy)
    else
      var stored := match limit { case None => None case Some(n) => Some(n as int) };
      Changes(Pruned(limit, db.(meta := db.meta.(historyMaxItems := stored))))
  }
}

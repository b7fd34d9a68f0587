/** When the three inputs diverge: what each kind of conflict says about them, and, over all kinds, the
    exact condition under which a merge reports any. */
module Divergence {
  import opened Vault
  import opened ThreeWay
  import opened TreeOps
  import opened MergeSpec

  datatype ConflictKind =
    | FieldEdit | DeleteVsModify | MoveVsMove | GroupDeleteVsDescendantChange | UuidCollision
    | HierarchyCycle | Metadata | Binary | CustomIcon | HistoryConflict | UnsupportedSemantic

  datatype ConflictObject = OfEntry(id: Id) | OfGroup(id: Id) | OfDatabase

  datatype Conflict = Conflict(subject: ConflictObject, kind: ConflictKind)

  /** Answers that belong to the database library. `representable` names the groups whose REMOTE
      change its editing calls can reproduce; `cloneCarriesLists` says whether copying a group
      record copies its child lists. */
  datatype Library = Library(representable: set<Id>, cloneCarriesLists: bool)

  // ---------------------------------------------------------------- objects missing somewhere

  /** One side deleted with a tombstone what the other side changed. */
  ghost predicate DeletedAndChanged<T>(b: map<Id, T>, l: map<Id, T>, r: map<Id, T>, ld: set<Id>, rd: set<Id>, x: Id)
  {
    && x in b
    && (|| (x in l && x !in r && x in rd && l[x] != b[x])
        || (x !in l && x in r && x in ld && r[x] != b[x]))
  }

  /** One identity was introduced twice, or introduced on one side and deleted on another. */
  ghost predicate Collides<T>(b: map<Id, T>, l: map<Id, T>, r: map<Id, T>, bd: set<Id>, ld: set<Id>, rd: set<Id>, x: Id)
  {
    && x !in b
    && (|| (x in l && x in r && (x in bd || l[x] != r[x]))
        || (x !in l && x in r && x in ld)
        || (x in l && x !in r && x in rd))
  }

  /** An object vanished from one side without a tombstone. */
  ghost predicate Vanished<T>(b: map<Id, T>, l: map<Id, T>, r: map<Id, T>, ld: set<Id>, rd: set<Id>, x: Id)
  {
    x in b && ((x in l && x !in r && x !in rd) || (x !in l && x in r && x !in ld))
  }

  // ---------------------------------------------------------------- custom icons

  predicate IconInAll(b: Database, l: Database, r: Database, x: Id)
  {
    x in b.icons && x in l.icons && x in r.icons
  }

  /** REMOTE deleted an icon that LOCAL left alone. */
  predicate IconDropped(b: Database, l: Database, r: Database, x: Id)
  {
    x in b.icons && x in l.icons && x !in r.icons && x in r.deleted && l.icons[x] == b.icons[x]
  }

  /** The icon table that every merge ends with: LOCAL's, without the dropped icons, at the picks. */
  function MergedIcons(b: Database, l: Database, r: Database): (icons: map<Id, string>)
  {
    map x | x in l.icons && !IconDropped(b, l, r, x) ::
      if IconInAll(b, l, r, x) then OrLocal(b.icons[x], l.icons[x], r.icons[x]) else l.icons[x]
  }

  ghost predicate IconJustified(b: Database, l: Database, r: Database, x: Id, kind: ConflictKind)
  {
    match kind
    case CustomIcon => IconInAll(b, l, r, x) && ChooseThreeWay(b.icons[x], l.icons[x], r.icons[x]).None?
    case DeleteVsModify => DeletedAndChanged(b.icons, l.icons, r.icons, l.deleted.Keys, r.deleted.Keys, x)
    case UuidCollision => Collides(b.icons, l.icons, r.icons, b.deleted.Keys, l.deleted.Keys, r.deleted.Keys, x)
    case UnsupportedSemantic =>
      || Vanished(b.icons, l.icons, r.icons, l.deleted.Keys, r.deleted.Keys, x)
      || (x in r.icons && x !in b.icons && x !in l.icons && x !in l.deleted)
    case _ => false
  }

  function KnownIcons(b: Database, l: Database, r: Database): (all: set<Id>)
  {
    b.icons.Keys + l.icons.Keys + r.icons.Keys
  }

  // ---------------------------------------------------------------- records in all three inputs

  ghost predicate MapClash<V(!new)>(b: map<string, V>, l: map<string, V>, r: map<string, V>)
  {
    exists key :: ChooseThreeWay(Lookup(b, key), Lookup(l, key), Lookup(r, key)).None?
  }

  /** The icon clashes, or its pick is not in the merged icon table. */
  predicate IconClash(icons: set<Id>, b: Option<IconRef>, l: Option<IconRef>, r: Option<IconRef>)
  {
    ChooseThreeWay(b, l, r).None? || !IconResolves(icons, OrLocal(b, l, r))
  }

  function MergedParent(b: Database, l: Database, r: Database, x: Id): (p: Option<Id>)
    requires InAll(b, l, r, x)
  {
    OrLocal(b.groups[x].parent, l.groups[x].parent, r.groups[x].parent)
  }

  function MergedEntryParent(b: Database, l: Database, r: Database, e: Id): (p: Id)
    requires EntryInAll(b, l, r, e)
  {
    OrLocal(b.entries[e].parent, l.entries[e].parent, r.entries[e].parent)
  }

  predicate GroupMetaClash(b: Group, l: Group, r: Group)
  {
    || GroupPropClashes(b.props, l.props, r.props) > 0
    || TimeClashes(b.times, l.times, r.times) > 0
    || RemoteReorderWouldBeLost(b.groups, l.groups, r.groups)
    || RemoteReorderWouldBeLost(b.entries, l.entries, r.entries)
  }

  /** A REMOTE change that the library cannot reproduce, or previous parents that do not fit. */
  predicate GroupUnsupported(b: Database, l: Database, r: Database, lib: Library, x: Id)
    requires InAll(b, l, r, x)
  {
    || (r.groups[x] != b.groups[x] && x !in lib.representable)
    || PreviousClash(b.groups[x].previousParent, l.groups[x].previousParent, r.groups[x].previousParent,
                     MergedParent(b, l, r, x) == l.groups[x].parent)
  }

  // ---------------------------------------------------------------- moves that cannot be made

  /** The library would move `x` below `p`. */
  predicate CanMove(groups: map<Id, Group>, x: Id, p: Option<Id>)
  {
    x in groups && groups[x].parent.Some? && p.Some? && p.value in groups && !Inside(groups, p.value, x)
  }

  predicate Moves(b: Database, l: Database, r: Database, groups: map<Id, Group>, x: Id)
  {
    InAll(b, l, r, x) && MergedParent(b, l, r, x) != l.groups[x].parent && CanMove(groups, x, MergedParent(b, l, r, x))
  }

  /** LOCAL's groups after the groups with identities below `n` went to their merged parents, one by
      one in that order, each as far as the library lets it. */
  function Settled(b: Database, l: Database, r: Database, n: nat): (groups: map<Id, Group>)
    ensures groups.Keys == l.groups.Keys
  {
    if n == 0 then l.groups
    else
      var x, before := n - 1, Settled(b, l, r, n - 1);
      if Moves(b, l, r, before, x) then before[x := before[x].(parent := MergedParent(b, l, r, x))] else before
  }

  /** This move is refused: its target is not in LOCAL, or lies below the group at that moment, or the
      group is LOCAL's root. */
  predicate MoveRefused(b: Database, l: Database, r: Database, x: Id)
    requires InAll(b, l, r, x)
  {
    MergedParent(b, l, r, x) != l.groups[x].parent && !CanMove(Settled(b, l, r, x), x, MergedParent(b, l, r, x))
  }

  ghost function Beyond(s: set<Id>): (n: nat)
    ensures forall x :: x in s ==> x < n
  {
    if s == {} then 0
    else
      var x :| x in s;
      var n := Beyond(s - {x});
      assert forall y :: y in s ==> y == x || y in s - {x};
      if x < n then n else x + 1
  }

  ghost function SettledTree(b: Database, l: Database, r: Database): (groups: map<Id, Group>)
    ensures groups.Keys == l.groups.Keys
  {
    Settled(b, l, r, Beyond(l.groups.Keys))
  }

  // ---------------------------------------------------------------- additions without a place

  /** REMOTE has the group, LOCAL has not, and it will not be added either: LOCAL deleted it, its
      identity is taken, or it has no parent to go below. */
  predicate Unattached(b: Database, l: Database, r: Database, y: Id)
  {
    y in r.groups && y !in l.groups && (y in b.groups || y in l.deleted || r.groups[y].parent.None?)
  }

  /** Going up from `x` in REMOTE, through groups REMOTE added, one meets a group that is not coming. */
  ghost predicate Blocked(b: Database, l: Database, r: Database, x: Id)
  {
    exists n: nat :: BlockedAt(b, l, r, x, n)
  }

  ghost predicate BlockedAt(b: Database, l: Database, r: Database, x: Id, n: nat)
  {
    && x in RemoteAdded(b, l, r) && Climb(r.groups, x, n).Some? && Unattached(b, l, r, Climb(r.groups, x, n).value)
    && forall m: nat :: m < n ==> Climb(r.groups, x, m).Some? && Climb(r.groups, x, m).value in RemoteAdded(b, l, r)
  }

  /** Additions that the merge tries: REMOTE's new groups whose identity is free. */
  function Addable(b: Database, l: Database, r: Database): (a: set<Id>)
  {
    RemoteAdded(b, l, r) - l.deleted.Keys
  }

  /** Additions that find their place. */
  ghost function Arriving(b: Database, l: Database, r: Database): (s: set<Id>)
  {
    set x | x in RemoteAdded(b, l, r) && !Blocked(b, l, r, x)
  }

  // ---------------------------------------------------------------- groups that go with deleted ones

  /** With the moves `settled` and the additions `arrived`, the child lists put `k` below `p`. */
  predicate Listed(l: Database, r: Database, lib: Library, settled: map<Id, Group>, arrived: set<Id>, p: Id, k: Id)
  {
    if p in l.groups then
      (k in settled && settled[k].parent == Some(p)) || (k in arrived && k in r.groups && r.groups[k].parent == Some(p))
    else if lib.cloneCarriesLists then
      p in r.groups && k in r.groups[p].groups
    else
      k in arrived && k in r.groups && r.groups[k].parent == Some(p)
  }

  ghost predicate PutBelow(b: Database, l: Database, r: Database, lib: Library, p: Id, k: Id)
  {
    Listed(l, r, lib, SettledTree(b, l, r), Arriving(b, l, r), p, k)
  }

  /** ... and the entry lists put `e` into `p`. */
  predicate PutIn(l: Database, r: Database, lib: Library, p: Id, e: Id)
  {
    if p in l.groups then e in l.groups[p].entries
    else lib.cloneCarriesLists && p in r.groups && e in r.groups[p].entries
  }

  /** Deletions that the merge carries out, conflicts or not: with a tombstone, and LOCAL left the group alone. */
  function Queued(b: Database, l: Database, r: Database): (d: set<Id>)
  {
    set x | x in RemoteDeleted(b, l, r) && x in r.deleted && l.groups[x] == b.groups[x]
  }

  ghost predicate Present(b: Database, l: Database, r: Database, p: Id)
  {
    p in l.groups || p in Arriving(b, l, r)
  }

  ghost predicate Leads(b: Database, l: Database, r: Database, lib: Library, p: Id, k: Id)
  {
    Present(b, l, r, k) && PutBelow(b, l, r, lib, p, k)
  }

  ghost predicate Chain(b: Database, l: Database, r: Database, lib: Library, path: seq<Id>)
  {
    && path != [] && path[0] in Queued(b, l, r)
    && forall i :: 0 <= i < |path| - 1 ==> Leads(b, l, r, lib, path[i], path[i + 1])
  }

  /** The group is removed: the child lists lead to it from a group whose deletion is carried out. */
  ghost predicate Taken(b: Database, l: Database, r: Database, lib: Library, p: Id)
  {
    exists path :: Chain(b, l, r, lib, path) && path[|path| - 1] == p
  }

  /** The group is there when the entries are merged. */
  ghost predicate Stands(b: Database, l: Database, r: Database, lib: Library, p: Id)
  {
    Present(b, l, r, p) && !Taken(b, l, r, lib, p)
  }

  /** An entry of all three inputs that went with a group. */
  ghost predicate EntryTaken(b: Database, l: Database, r: Database, lib: Library, e: Id)
  {
    EntryInAll(b, l, r, e) && exists p :: Taken(b, l, r, lib, p) && PutIn(l, r, lib, p, e)
  }

  ghost predicate AnyTaken(b: Database, l: Database, r: Database, lib: Library)
  {
    exists e :: EntryTaken(b, l, r, lib, e)
  }

  /** REMOTE moved an entry out of a group that REMOTE also deleted. */
  ghost predicate Stranded(b: Database, l: Database, r: Database)
  {
    exists e :: EntryInAll(b, l, r, e) && l.entries[e].parent in RemoteDeleted(b, l, r)
  }

  // ---------------------------------------------------------------- entries

  predicate NewEntry(b: Database, l: Database, r: Database, e: Id)
  {
    e in r.entries && e !in b.entries && e !in l.entries && e !in l.deleted
  }

  /** A new entry cannot carry attachments over, in itself or in its history. */
  predicate CarriesAttachments(r: Database, e: Id)
    requires e in r.entries
  {
    r.entries[e].state.attachments != map[] || HasAttachments(r.entries[e].history)
  }

  function LiveGroups(b: Database, l: Database, r: Database): (live: set<Id>)
  {
    LiveSet(b.groups.Keys, l.groups.Keys, r.groups.Keys)
  }

  // ---------------------------------------------------------------- what one conflict means

  ghost predicate GroupJustified(b: Database, l: Database, r: Database, lib: Library, x: Id, kind: ConflictKind)
  {
    match kind
    case DeleteVsModify => DeletedAndChanged(b.groups, l.groups, r.groups, l.deleted.Keys, r.deleted.Keys, x)
    case UuidCollision => Collides(b.groups, l.groups, r.groups, b.deleted.Keys, l.deleted.Keys, r.deleted.Keys, x)
    case MoveVsMove =>
      InAll(b, l, r, x) && ChooseThreeWay(b.groups[x].parent, l.groups[x].parent, r.groups[x].parent).None?
    case Metadata => InAll(b, l, r, x) && GroupMetaClash(b.groups[x], l.groups[x], r.groups[x])
    case UnsupportedSemantic =>
      || Vanished(b.groups, l.groups, r.groups, l.deleted.Keys, r.deleted.Keys, x)
      || (InAll(b, l, r, x) && GroupUnsupported(b, l, r, lib, x))
    case GroupDeleteVsDescendantChange => x in Addable(b, l, r) && r.groups[x].parent.Some? && Blocked(b, l, r, x)
    case HierarchyCycle =>
      || (InAll(b, l, r, x) && MoveRefused(b, l, r, x))
      || (x in Addable(b, l, r) && r.groups[x].parent.None?)
    case CustomIcon =>
      && InAll(b, l, r, x)
      && IconClash(MergedIcons(b, l, r).Keys, b.groups[x].icon, l.groups[x].icon, r.groups[x].icon)
    case _ => false
  }

  ghost predicate EntryJustified(b: Database, l: Database, r: Database, lib: Library, x: Id, kind: ConflictKind)
  {
    match kind
    case DeleteVsModify => DeletedAndChanged(b.entries, l.entries, r.entries, l.deleted.Keys, r.deleted.Keys, x)
    case UuidCollision => Collides(b.entries, l.entries, r.entries, b.deleted.Keys, l.deleted.Keys, r.deleted.Keys, x)
    case MoveVsMove =>
      EntryInAll(b, l, r, x) && ChooseThreeWay(b.entries[x].parent, l.entries[x].parent, r.entries[x].parent).None?
    case FieldEdit => EntryInAll(b, l, r, x) && FieldsClash(b.entries[x].state, l.entries[x].state, r.entries[x].state)
    case Binary =>
      if EntryInAll(b, l, r, x)
      then MapClash(b.entries[x].state.attachments, l.entries[x].state.attachments, r.entries[x].state.attachments)
      else NewEntry(b, l, r, x) && CarriesAttachments(r, x)
    case HistoryConflict =>
      EntryInAll(b, l, r, x) && MergedHistory(b.entries[x].history, l.entries[x].history, r.entries[x].history).None?
    case UnsupportedSemantic =>
      || Vanished(b.entries, l.entries, r.entries, l.deleted.Keys, r.deleted.Keys, x)
      || (EntryInAll(b, l, r, x) && EntryUnsupported(b, l, r, x))
    case GroupDeleteVsDescendantChange =>
      && NewEntry(b, l, r, x) && !CarriesAttachments(r, x)
      && IconResolves(MergedIcons(b, l, r).Keys, r.entries[x].state.icon) && !Stands(b, l, r, lib, r.entries[x].parent)
    case HierarchyCycle =>
      && EntryInAll(b, l, r, x) && MergedEntryParent(b, l, r, x) != l.entries[x].parent
      && !Stands(b, l, r, lib, MergedEntryParent(b, l, r, x))
    case CustomIcon =>
      if EntryInAll(b, l, r, x)
      then IconClash(MergedIcons(b, l, r).Keys, b.entries[x].state.icon, l.entries[x].state.icon, r.entries[x].state.icon)
      else NewEntry(b, l, r, x) && !CarriesAttachments(r, x) && !IconResolves(MergedIcons(b, l, r).Keys, r.entries[x].state.icon)
    case Metadata => false
  }

  ghost predicate FieldsClash(b: Revision, l: Revision, r: Revision)
  {
    || MapClash(b.fields, l.fields, r.fields)
    || EntryPropClashes(b.props, l.props, r.props) > 0
    || TimeClashes(b.times, l.times, r.times) > 0
  }

  predicate EntryUnsupported(b: Database, l: Database, r: Database, x: Id)
    requires EntryInAll(b, l, r, x)
  {
    PreviousClash(b.entries[x].state.previousParent, l.entries[x].state.previousParent, r.entries[x].state.previousParent,
                  MergedEntryParent(b, l, r, x) == l.entries[x].parent)
  }

  ghost predicate MetaClash(b: Meta, l: Meta, r: Meta)
  {
    || ChooseThreeWay(b.recycleBinEnabled, l.recycleBinEnabled, r.recycleBinEnabled).None?
    || ChooseThreeWay(b.recycleBinUuid, l.recycleBinUuid, r.recycleBinUuid).None?
    || ChooseThreeWay(b.historyMaxItems, l.historyMaxItems, r.historyMaxItems).None?
    || MapClash(b.customData, l.customData, r.customData)
  }

  ghost predicate DatabaseJustified(b: Database, l: Database, r: Database, kind: ConflictKind)
  {
    || (kind == HierarchyCycle && (l.root != b.root || r.root != b.root))
    || (kind == UuidCollision && (!DistinctIds(b) || !DistinctIds(l) || !DistinctIds(r)))
    || (kind == Metadata && MetaClash(b.meta, l.meta, r.meta))
    || exists x :: IconJustified(b, l, r, x, kind)
  }

  /** What the inputs must look like for `c` to be reported. */
  ghost predicate Justified(b: Database, l: Database, r: Database, lib: Library, c: Conflict)
  {
    match c.subject
    case OfGroup(x) => GroupJustified(b, l, r, lib, x, c.kind)
    case OfEntry(x) => EntryJustified(b, l, r, lib, x, c.kind)
    case OfDatabase => DatabaseJustified(b, l, r, c.kind)
  }

  /** Some part of the vault cannot be merged. */
  ghost predicate Diverges(b: Database, l: Database, r: Database, lib: Library)
  {
    exists c :: Justified(b, l, r, lib, c)
  }

  ghost predicate GroupAgrees(b: Database, l: Database, r: Database, lib: Library, x: Id)
  {
    forall kind :: !GroupJustified(b, l, r, lib, x, kind)
  }

  ghost predicate EntryAgrees(b: Database, l: Database, r: Database, lib: Library, e: Id)
  {
    forall kind :: !EntryJustified(b, l, r, lib, e, kind)
  }

  /** The same, kind by kind. */
  lemma AgreeingGroup(b: Database, l: Database, r: Database, lib: Library, x: Id)
    requires GroupAgrees(b, l, r, lib, x)
    ensures !DeletedAndChanged(b.groups, l.groups, r.groups, l.deleted.Keys, r.deleted.Keys, x)
    ensures !Collides(b.groups, l.groups, r.groups, b.deleted.Keys, l.deleted.Keys, r.deleted.Keys, x)
    ensures !Vanished(b.groups, l.groups, r.groups, l.deleted.Keys, r.deleted.Keys, x)
    ensures InAll(b, l, r, x) ==>
              && ChooseThreeWay(b.groups[x].parent, l.groups[x].parent, r.groups[x].parent).Some?
              && !IconClash(MergedIcons(b, l, r).Keys, b.groups[x].icon, l.groups[x].icon, r.groups[x].icon)
              && !MoveRefused(b, l, r, x)
  {
    assert !GroupJustified(b, l, r, lib, x, DeleteVsModify) && !GroupJustified(b, l, r, lib, x, UuidCollision);
    assert !GroupJustified(b, l, r, lib, x, UnsupportedSemantic) && !GroupJustified(b, l, r, lib, x, MoveVsMove);
    assert !GroupJustified(b, l, r, lib, x, CustomIcon) && !GroupJustified(b, l, r, lib, x, HierarchyCycle);
  }

  lemma AgreeingEntry(b: Database, l: Database, r: Database, lib: Library, e: Id)
    requires EntryAgrees(b, l, r, lib, e)
    ensures !DeletedAndChanged(b.entries, l.entries, r.entries, l.deleted.Keys, r.deleted.Keys, e)
    ensures !Collides(b.entries, l.entries, r.entries, b.deleted.Keys, l.deleted.Keys, r.deleted.Keys, e)
    ensures !Vanished(b.entries, l.entries, r.entries, l.deleted.Keys, r.deleted.Keys, e)
    ensures EntryInAll(b, l, r, e) ==>
              && ChooseThreeWay(b.entries[e].parent, l.entries[e].parent, r.entries[e].parent).Some?
              && !IconClash(MergedIcons(b, l, r).Keys, b.entries[e].state.icon, l.entries[e].state.icon, r.entries[e].state.icon)
  {
    assert !EntryJustified(b, l, r, lib, e, DeleteVsModify) && !EntryJustified(b, l, r, lib, e, UuidCollision);
    assert !EntryJustified(b, l, r, lib, e, UnsupportedSemantic) && !EntryJustified(b, l, r, lib, e, MoveVsMove);
    assert !EntryJustified(b, l, r, lib, e, CustomIcon);
  }

  /** Inputs that do not diverge agree on everything. */
  lemma NothingJustified(b: Database, l: Database, r: Database, lib: Library)
    requires !Diverges(b, l, r, lib)
    ensures forall x :: GroupAgrees(b, l, r, lib, x) && EntryAgrees(b, l, r, lib, x)
    ensures forall kind :: !DatabaseJustified(b, l, r, kind)
  {
    forall x, kind ensures !GroupJustified(b, l, r, lib, x, kind) && !EntryJustified(b, l, r, lib, x, kind) {
      assert !Justified(b, l, r, lib, Conflict(OfGroup(x), kind));
      assert !Justified(b, l, r, lib, Conflict(OfEntry(x), kind));
    }
    forall kind ensures !DatabaseJustified(b, l, r, kind) {
      assert !Justified(b, l, r, lib, Conflict(OfDatabase, kind));
    }
  }

  // ---------------------------------------------------------------- exactly when a merge fits

  /** Copying a REMOTE group carries no child lists that its children, added after it, would repeat. */
  predicate PlainLists(b: Database, l: Database, r: Database, lib: Library)
  {
    lib.cloneCarriesLists ==> forall g :: g in RemoteAdded(b, l, r) ==> r.groups[g].groups == [] && r.groups[g].entries == []
  }

  function LiveEntries(b: Database, l: Database, r: Database): (live: set<Id>)
  {
    LiveSet(b.entries.Keys, l.entries.Keys, r.entries.Keys)
  }

  /** No identity is live as two kinds of object, or live and a tombstone of any input. */
  predicate IdsFit(b: Database, l: Database, r: Database)
  {
    && LiveGroups(b, l, r) !! LiveEntries(b, l, r)
    && LiveGroups(b, l, r) !! MergedIcons(b, l, r).Keys
    && LiveEntries(b, l, r) !! MergedIcons(b, l, r).Keys
    && (b.deleted.Keys + l.deleted.Keys + r.deleted.Keys) !! (LiveGroups(b, l, r) + LiveEntries(b, l, r) + MergedIcons(b, l, r).Keys)
  }

  /** A group that one side added has its icon in the merged table. */
  predicate GroupIconFits(b: Database, l: Database, r: Database, g: Id)
  {
    && (g in l.groups && g !in b.groups ==> IconResolves(MergedIcons(b, l, r).Keys, l.groups[g].icon))
    && (g in r.groups && g !in b.groups ==> IconResolves(MergedIcons(b, l, r).Keys, r.groups[g].icon))
  }

  /** An entry that one side added has all its icons there, and a merged history has its own. */
  predicate EntryIconsFit(b: Database, l: Database, r: Database, e: Id)
  {
    && (e in l.entries && e !in b.entries ==> EntryIconsResolve(MergedIcons(b, l, r).Keys, l.entries[e]))
    && (e in r.entries && e !in b.entries ==> EntryIconsResolve(MergedIcons(b, l, r).Keys, r.entries[e]))
    && (EntryInAll(b, l, r, e) && MergedHistory(b.entries[e].history, l.entries[e].history, r.entries[e].history).Some? ==>
          HistoryIconsResolve(MergedIcons(b, l, r).Keys,
                              MergedHistory(b.entries[e].history, l.entries[e].history, r.entries[e].history).value))
  }

  predicate HistoryIconsResolve(icons: set<Id>, history: seq<HistoryItem>)
  {
    forall i :: 0 <= i < |history| ==> IconResolves(icons, history[i].state.icon)
  }

  /** What the merged document must satisfy beyond the picks, told by the inputs. */
  ghost predicate Fits(b: Database, l: Database, r: Database, lib: Library)
  {
    && PlainLists(b, l, r, lib) && IdsFit(b, l, r)
    && (forall g :: g in LiveGroups(b, l, r) ==> GroupIconFits(b, l, r, g))
    && forall e :: e in LiveEntries(b, l, r) ==> EntryIconsFit(b, l, r, e)
  }

  /** A merge is made exactly if the inputs do not diverge, strand no entry, and fit. */
  ghost predicate Mergeable(b: Database, l: Database, r: Database, lib: Library)
  {
    !Diverges(b, l, r, lib) && !Stranded(b, l, r) && Fits(b, l, r, lib)
  }

  /** The merge breaks its invariant instead of ending in conflicts or a document. */
  ghost predicate Breaks(b: Database, l: Database, r: Database, lib: Library)
  {
    AnyTaken(b, l, r, lib) || (!Diverges(b, l, r, lib) && !Fits(b, l, r, lib))
  }
}

/** Inputs on which the merge breaks its own invariant: valid vaults that no shortcut decides and that
    do not diverge in anything, and still neither a document nor a conflict comes out. And, beside
    them, inputs that merge. */
module BrokenInvariant {
  import opened Vault
  import opened ThreeWay
  import opened TreeOps
  import opened MergeSpec
  import opened Divergence
  import opened ConflictLemmas
  import opened VaultSync

  // ---------------------------------------------------------------- small vaults

  const NO_TIMES: Times := Times(None, None, None, None, None, None, None)

  function Folder(parent: Option<Id>, groups: seq<Id>, entries: seq<Id>, name: string,
                  icon: Option<IconRef>): (g: Group)
  {
    Group(parent, None, groups, entries, GroupProps(name, None, [], map[], true, None, None, None), NO_TIMES, icon)
  }

  function Item(parent: Id, previous: Option<Id>): (e: Entry)
  {
    Entry(parent, Revision(previous, map[], map[], EntryProps(None, [], map[], None, None, None, None), NO_TIMES, None), [])
  }

  function SmallVault(groups: map<Id, Group>, entries: map<Id, Entry>, icons: map<Id, string>, deleted: map<Id,
                      Time>): (db: Database)
  {
    Database(0, groups, entries, icons, deleted, Meta(None, None, None, map[]))
  }

  /** Every group but the root stands below the root. */
  lemma FlatIsRooted(db: Database)
    requires db.root in db.groups && db.groups[db.root].parent == None
    requires forall g :: g in db.groups && g != db.root ==> db.groups[g].parent == Some(db.root)
    ensures Rooted(db)
  {
    forall g | g in db.groups ensures ReachesRoot(db, g) {
      assert Climb(db.groups, g, 0) == Some(g);
      assert g != db.root ==> Climb(db.groups, g, 1) == Some(db.root);
    }
  }

  lemma NoOrder(s: seq<Id>, u: set<Id>)
    requires forall x :: x in s ==> x !in u
    ensures RelativeOrder(s, u) == []
  {
    if s != [] {
      NoOrder(s[..|s| - 1], u);
    }
  }

  /** Where no group moves, the settled tree is LOCAL's. */
  lemma {:induction false} NothingSettles(b: Database, l: Database, r: Database, n: nat)
    requires forall x :: InAll(b, l, r, x) ==> MergedParent(b, l, r, x) == l.groups[x].parent
    ensures Settled(b, l, r, n) == l.groups
  {
    if n > 0 {
      NothingSettles(b, l, r, n - 1);
    }
  }

  /** Where nothing is put below a deleted group, nothing but the deleted groups is taken. */
  lemma OnlyQueuedTaken(b: Database, l: Database, r: Database, lib: Library, p: Id)
    requires forall d, k :: d in Queued(b, l, r) ==> !PutBelow(b, l, r, lib, d, k)
    requires Taken(b, l, r, lib, p)
    ensures p in Queued(b, l, r)
  {
    var path :| Chain(b, l, r, lib, path) && path[|path| - 1] == p;
    assert |path| > 1 ==> Leads(b, l, r, lib, path[0], path[0 + 1]);
  }

  function Doc(db: Database): (d: Document)
  {
    Document(Kdbx4(1), db)
  }

  /** Valid vaults, all different, on which nothing but a broken invariant may come out. */
  ghost predicate OnlyBreaks(b: Database, l: Database, r: Database, lib: Library)
  {
    && NeedsMerge(Doc(b), Doc(l), Doc(r)) && !Diverges(b, l, r, lib)
    && forall out :: OutcomeAllowed(Doc(b), Doc(l), Doc(r), lib, out) ==> out == Failed(SyncInvariant)
  }

  lemma MustBreak(b: Database, l: Database, r: Database, lib: Library)
    requires Valid(b) && Valid(l) && Valid(r) && l.groups != r.groups && r.groups != b.groups && l.groups != b.groups
    requires !Diverges(b, l, r, lib) && Breaks(b, l, r, lib)
    ensures OnlyBreaks(b, l, r, lib)
  {
  }

  // ---------------------------------------------------------------- an entry is stranded

  /** Entry 3 lies in group 1; BASE and LOCAL differ in the name of group 2. */
  function StrandedSide(name: string): (db: Database)
  {
    SmallVault(map[0 := Folder(None, [1, 2], [], "", None), 1 := Folder(Some(0), [], [3], "", None),
                   2 := Folder(Some(0), [], [], name, None)],
               map[3 := Item(1, None)], map[], map[])
  }

  /** REMOTE moves entry 3 to group 2 and deletes group 1. */
  function StrandedRemote(): (db: Database)
  {
    SmallVault(map[0 := Folder(None, [2], [], "", None), 2 := Folder(Some(0), [], [3], "", None)],
               map[3 := Item(2, Some(1))], map[], map[1 := None])
  }

  lemma StrandedSideValid(name: string)
    ensures Valid(StrandedSide(name))
  {
    FlatIsRooted(StrandedSide(name));
  }

  lemma StrandedRemoteValid()
    ensures Valid(StrandedRemote())
  {
    FlatIsRooted(StrandedRemote());
  }

  lemma StrandedOrders()
    ensures !RemoteReorderWouldBeLost([1, 2], [1, 2], [2]) && !RemoteReorderWouldBeLost([], [], [3])
    ensures !RemoteReorderWouldBeLost([], [], [])
  {
    OrderOfPair(1, 2, {2});
    OrderOfPair(2, 2, {1, 2});
    assert Elements([1, 2]) == {1, 2} && Elements([2]) == {2} && Elements([3]) == {3};
    NoOrder([3], {});
    assert RelativeOrder([], {3}) == [];
  }

  lemma StrandedGroupsAgree(lib: Library, x: Id, kind: ConflictKind)
    requires {0, 2} <= lib.representable
    ensures !GroupJustified(StrandedSide(""), StrandedSide("new"), StrandedRemote(), lib, x, kind)
  {
    if x == 0 {
      StrandedRootAgrees(lib, kind);
    } else if x == 2 {
      StrandedTargetAgrees(lib, kind);
    }
  }

  lemma StrandedRootAgrees(lib: Library, kind: ConflictKind)
    requires 0 in lib.representable
    ensures !GroupJustified(StrandedSide(""), StrandedSide("new"), StrandedRemote(), lib, 0, kind)
  {
    StrandedOrders();
  }

  lemma StrandedTargetAgrees(lib: Library, kind: ConflictKind)
    requires 2 in lib.representable
    ensures !GroupJustified(StrandedSide(""), StrandedSide("new"), StrandedRemote(), lib, 2, kind)
  {
    StrandedOrders();
  }

  lemma StrandedHeadersAgree(kind: ConflictKind)
    ensures !DatabaseJustified(StrandedSide(""), StrandedSide("new"), StrandedRemote(), kind)
  {
  }

  lemma StrandedQueue()
    ensures var b, l, r := StrandedSide(""), StrandedSide("new"), StrandedRemote();
            Queued(b, l, r) == {1} && RemoteAdded(b, l, r) == {} && SettledTree(b, l, r) == l.groups
  {
    var b, l, r := StrandedSide(""), StrandedSide("new"), StrandedRemote();
    forall x ensures x in Queued(b, l, r) <==> x == 1 {
    }
    assert RemoteAdded(b, l, r) == {};
    forall x | InAll(b, l, r, x) ensures MergedParent(b, l, r, x) == l.groups[x].parent {
    }
    NothingSettles(b, l, r, Beyond(l.groups.Keys));
  }

  lemma StrandedStands(lib: Library)
    ensures var b, l, r := StrandedSide(""), StrandedSide("new"), StrandedRemote();
            Stands(b, l, r, lib, 2) && Taken(b, l, r, lib, 1)
  {
    var b, l, r := StrandedSide(""), StrandedSide("new"), StrandedRemote();
    StrandedQueue();
    assert Chain(b, l, r, lib, [1]);
    forall k ensures !PutBelow(b, l, r, lib, 1, k) {
    }
    if Taken(b, l, r, lib, 2) {
      OnlyQueuedTaken(b, l, r, lib, 2);
    }
  }

  lemma StrandedEntriesAgree(lib: Library, x: Id, kind: ConflictKind)
    ensures !EntryJustified(StrandedSide(""), StrandedSide("new"), StrandedRemote(), lib, x, kind)
  {
    StrandedStands(lib);
  }

  lemma StrandedAgree(lib: Library)
    requires {0, 2} <= lib.representable
    ensures !Diverges(StrandedSide(""), StrandedSide("new"), StrandedRemote(), lib)
  {
    forall c ensures !Justified(StrandedSide(""), StrandedSide("new"), StrandedRemote(), lib, c) {
      match c.subject
      case OfGroup(x) => StrandedGroupsAgree(lib, x, c.kind);
      case OfEntry(e) => StrandedEntriesAgree(lib, e, c.kind);
      case OfDatabase => StrandedHeadersAgree(c.kind);
    }
  }

  /** An entry that REMOTE moves out of a group it also deletes breaks the merge. */
  lemma StrandedBreaks(lib: Library)
    requires {0, 2} <= lib.representable
    ensures Stranded(StrandedSide(""), StrandedSide("new"), StrandedRemote())
    ensures OnlyBreaks(StrandedSide(""), StrandedSide("new"), StrandedRemote(), lib)
  {
    var b, l, r := StrandedSide(""), StrandedSide("new"), StrandedRemote();
    StrandedSideValid("");
    StrandedSideValid("new");
    StrandedRemoteValid();
    StrandedAgree(lib);
    StrandedStands(lib);
    assert PutIn(l, r, lib, 1, 3);
    assert EntryTaken(b, l, r, lib, 3);
    assert l.groups[2].props.name != b.groups[2].props.name && r.groups[2].props.name == b.groups[2].props.name;
    assert r.groups[0].groups != b.groups[0].groups;
    MustBreak(b, l, r, lib);
  }

  // ---------------------------------------------------------------- an identity is live twice

  function BareVault(): (db: Database)
  {
    SmallVault(map[0 := Folder(None, [], [], "", None)], map[], map[], map[])
  }

  /** LOCAL adds group 5. */
  function WithGroup(icon: Option<IconRef>, icons: map<Id, string>): (db: Database)
  {
    SmallVault(map[0 := Folder(None, [5], [], "", None), 5 := Folder(Some(0), [], [], "", icon)], map[], icons, map[])
  }

  /** REMOTE adds entry 5. */
  function WithEntry(): (db: Database)
  {
    SmallVault(map[0 := Folder(None, [], [5], "", None)], map[5 := Item(0, None)], map[], map[])
  }

  lemma BareValid()
    ensures Valid(BareVault())
  {
    FlatIsRooted(BareVault());
  }

  lemma WithGroupValid(icon: Option<IconRef>, icons: map<Id, string>)
    requires icons.Keys <= {7} && IconResolves(icons.Keys, icon)
    ensures Valid(WithGroup(icon, icons))
  {
    FlatIsRooted(WithGroup(icon, icons));
  }

  lemma WithEntryValid()
    ensures Valid(WithEntry())
  {
    FlatIsRooted(WithEntry());
  }

  lemma OneChildOrders()
    ensures !RemoteReorderWouldBeLost([], [], [5]) && !RemoteReorderWouldBeLost([], [5], [])
    ensures !RemoteReorderWouldBeLost([], [], [])
  {
    assert Elements([5]) == {5};
    NoOrder([5], {});
    assert RelativeOrder([], {5}) == [];
  }

  lemma RootStands(b: Database, l: Database, r: Database, lib: Library)
    requires 0 in l.groups && Queued(b, l, r) == {}
    ensures Stands(b, l, r, lib, 0)
  {
  }

  lemma TwiceLiveAgree(lib: Library, c: Conflict)
    requires 0 in lib.representable
    ensures !Justified(BareVault(), WithGroup(None, map[]), WithEntry(), lib, c)
  {
    OneChildOrders();
    RootStands(BareVault(), WithGroup(None, map[]), WithEntry(), lib);
  }

  /** One identity for a group that LOCAL adds and an entry that REMOTE adds breaks the merge. */
  lemma TwiceLiveBreaks(lib: Library)
    requires 0 in lib.representable
    ensures !IdsFit(BareVault(), WithGroup(None, map[]), WithEntry())
    ensures OnlyBreaks(BareVault(), WithGroup(None, map[]), WithEntry(), lib)
  {
    var b, l, r := BareVault(), WithGroup(None, map[]), WithEntry();
    BareValid();
    WithGroupValid(None, map[]);
    WithEntryValid();
    forall c ensures !Justified(b, l, r, lib, c) {
      TwiceLiveAgree(lib, c);
    }
    assert 5 in LiveGroups(b, l, r) && 5 in LiveEntries(b, l, r);
    assert r.groups[0].entries != b.groups[0].entries && l.groups[0].entries == b.groups[0].entries;
    assert 5 in l.groups && 5 !in b.groups;
    MustBreak(b, l, r, lib);
  }

  // ---------------------------------------------------------------- an icon is missing

  function IconVault(): (db: Database)
  {
    SmallVault(map[0 := Folder(None, [], [], "", None)], map[], map[7 := "png"], map[])
  }

  /** LOCAL deletes the icon and renames the root. */
  function WithoutIcon(): (db: Database)
  {
    SmallVault(map[0 := Folder(None, [], [], "new", None)], map[], map[], map[7 := None])
  }

  lemma IconVaultValid()
    ensures Valid(IconVault())
  {
    FlatIsRooted(IconVault());
  }

  lemma WithoutIconValid()
    ensures Valid(WithoutIcon())
  {
    FlatIsRooted(WithoutIcon());
  }

  lemma GroupArrives(b: Database, l: Database, r: Database)
    requires RemoteAdded(b, l, r) == {5} && 5 !in l.deleted && r.groups[5].parent == Some(0) && 0 in l.groups
    ensures !Blocked(b, l, r, 5)
  {
    PresentNotBlocked(b, l, r, {}, {5}, 5);
  }

  function IconRemote(): (db: Database)
  {
    WithGroup(Some(Custom(7)), map[7 := "png"])
  }

  lemma MissingIconGroupsAgree(lib: Library, x: Id, kind: ConflictKind)
    requires 0 in lib.representable
    ensures !GroupJustified(IconVault(), WithoutIcon(), IconRemote(), lib, x, kind)
  {
    OneChildOrders();
    GroupArrives(IconVault(), WithoutIcon(), IconRemote());
  }

  lemma MissingIconAgree(lib: Library, c: Conflict)
    requires 0 in lib.representable
    ensures !Justified(IconVault(), WithoutIcon(), IconRemote(), lib, c)
  {
    if c.subject.OfGroup? {
      MissingIconGroupsAgree(lib, c.subject.id, c.kind);
    }
  }

  /** A group that REMOTE adds with an icon that LOCAL deletes breaks the merge. */
  lemma MissingIconBreaks(lib: Library)
    requires 0 in lib.representable
    ensures !GroupIconFits(IconVault(), WithoutIcon(), IconRemote(), 5)
    ensures OnlyBreaks(IconVault(), WithoutIcon(), IconRemote(), lib)
  {
    var b, l, r := IconVault(), WithoutIcon(), IconRemote();
    IconVaultValid();
    WithoutIconValid();
    WithGroupValid(Some(Custom(7)), map[7 := "png"]);
    forall c ensures !Justified(b, l, r, lib, c) {
      MissingIconAgree(lib, c);
    }
    assert 5 in LiveGroups(b, l, r) && 7 !in MergedIcons(b, l, r);
    assert l.groups[0].props.name != b.groups[0].props.name;
    assert 5 in r.groups && 5 !in b.groups && 5 !in l.groups;
    MustBreak(b, l, r, lib);
  }

  // ---------------------------------------------------------------- and a merge that succeeds

  /** LOCAL renames the root. */
  function Renamed(): (db: Database)
  {
    SmallVault(map[0 := Folder(None, [], [], "new", None)], map[], map[], map[])
  }

  lemma RenamedAgrees(lib: Library, c: Conflict)
    requires 0 in lib.representable
    ensures !Justified(BareVault(), Renamed(), WithEntry(), lib, c)
  {
    OneChildOrders();
    RootStands(BareVault(), Renamed(), WithEntry(), lib);
  }

  /** The conditions of a merge can be met by inputs that no shortcut decides. */
  lemma SomeInputsMerge(lib: Library)
    requires 0 in lib.representable
    ensures Mergeable(BareVault(), Renamed(), WithEntry(), lib)
    ensures NeedsMerge(Doc(BareVault()), Doc(Renamed()), Doc(WithEntry()))
  {
    var b, l, r := BareVault(), Renamed(), WithEntry();
    BareValid();
    FlatIsRooted(l);
    WithEntryValid();
    forall c ensures !Justified(b, l, r, lib, c) {
      RenamedAgrees(lib, c);
    }
    assert l.groups[0].props.name != b.groups[0].props.name && r.groups[0].props.name == b.groups[0].props.name;
    assert r.groups[0].entries != b.groups[0].entries;
  }
}

/** The in-memory KDBX database: records, the parent and child-list structure, and
    the tree theory every other vault module builds on.

    A group knows its parent and lists its children in order; an entry knows its
    parent. The two views are independent data, so a database may be malformed:
    `Valid` says when the two views agree and every group hangs below the root. */
module Vault {

  datatype Option<+T> = None | Some(value: T)

  /** One UUID namespace is shared by groups, entries and custom icons. */
  type Id = nat

  type Time = Option<int>

  datatype IconRef = BuiltIn(index: nat) | Custom(id: Id)

  /** A string or attachment value with its in-memory protection flag. */
  datatype Value = Value(text: string, secret: bool)

  datatype Times = Times(
    creation: Time, lastAccess: Time, expiry: Time, expires: Option<bool>, usageCount: Option<nat>,
    lastModification: Time, locationChanged: Time)

  datatype GroupProps = GroupProps(
    name: string, notes: Option<string>, tags: seq<string>, customData: map<string, string>,
    isExpanded: bool, defaultAutotype: Option<string>, enableAutotype: Option<bool>,
    enableSearching: Option<bool>)

  datatype EntryProps = EntryProps(
    autotype: Option<string>, tags: seq<string>, customData: map<string, string>,
    foreground: Option<string>, background: Option<string>, overrideUrl: Option<string>,
    qualityCheck: Option<bool>)

  datatype Group = Group(
    parent: Option<Id>, previousParent: Option<Id>, groups: seq<Id>, entries: seq<Id>,
    props: GroupProps, times: Times, icon: Option<IconRef>)

  /** Everything an entry revision carries except its place in the tree. */
  datatype Revision = Revision(
    previousParent: Option<Id>, fields: map<string, Value>, attachments: map<string, Value>,
    props: EntryProps, times: Times, icon: Option<IconRef>)

  /** A historical revision; its structural parent is an artefact of parsing. */
  datatype HistoryItem = HistoryItem(parent: Id, state: Revision)

  /** `history` is newest first. */
  datatype Entry = Entry(parent: Id, state: Revision, history: seq<HistoryItem>)

  datatype Meta = Meta(
    recycleBinEnabled: Option<bool>, recycleBinUuid: Option<Id>, historyMaxItems: Option<int>,
    customData: map<string, string>)

  datatype Database = Database(
    root: Id, groups: map<Id, Group>, entries: map<Id, Entry>, icons: map<Id, string>,
    deleted: map<Id, Time>, meta: Meta)

  // ---------------------------------------------------------------- ancestors

  /** The n-th ancestor of `g`; `None` once the walk has left the tree. */
  function Climb(groups: map<Id, Group>, g: Id, n: nat): (r: Option<Id>)
  {
    if n == 0 then Some(g)
    else match Climb(groups, g, n - 1)
      case None => None
      case Some(x) => if x in groups then groups[x].parent else None
  }

  ghost predicate InSubtree(groups: map<Id, Group>, x: Id, top: Id)
  {
    exists n: nat :: Climb(groups, x, n) == Some(top)
  }

  /** The walk up from `g` leaves the groups: no cycle is met. */
  ghost predicate Ends(groups: map<Id, Group>, g: Id)
  {
    exists n: nat :: Climb(groups, g, n) == None
  }

  ghost predicate ReachesRoot(db: Database, g: Id)
  {
    InSubtree(db.groups, g, db.root)
  }

  predicate NoDup<T(==)>(s: seq<T>)
  {
    forall i, j :: 0 <= i < j < |s| ==> s[i] != s[j]
  }

  // ---------------------------------------------------------------- validity

  ghost predicate DistinctIds(db: Database)
  {
    && db.groups.Keys !! db.entries.Keys
    && db.groups.Keys !! db.icons.Keys
    && db.entries.Keys !! db.icons.Keys
    && db.deleted.Keys !! (db.groups.Keys + db.entries.Keys + db.icons.Keys)
  }

  /** Every child that `p` lists exists, points back at `p`, and is listed once. */
  ghost predicate ChildrenPointBack(db: Database, p: Id)
  {
    && p in db.groups
    && (forall c :: c in db.groups[p].groups ==> c in db.groups && db.groups[c].parent == Some(p))
    && (forall e :: e in db.groups[p].entries ==> e in db.entries && db.entries[e].parent == p)
    && NoDup(db.groups[p].groups)
    && NoDup(db.groups[p].entries)
  }

  ghost predicate ListedHaveParent(db: Database)
  {
    forall p {:trigger ChildrenPointBack(db, p)} :: p in db.groups ==> ChildrenPointBack(db, p)
  }

  ghost predicate GroupListed(db: Database, c: Id)
  {
    && c in db.groups
    && db.groups[c].parent.Some?
    && db.groups[c].parent.value in db.groups
    && c in db.groups[db.groups[c].parent.value].groups
  }

  ghost predicate EntryListed(db: Database, e: Id)
  {
    && e in db.entries
    && db.entries[e].parent in db.groups
    && e in db.groups[db.entries[e].parent].entries
  }

  /** Every non-root group and every entry is listed by its parent. */
  ghost predicate ParentLists(db: Database)
  {
    && (forall c {:trigger GroupListed(db, c)} :: c in db.groups && c != db.root ==> GroupListed(db, c))
    && (forall e {:trigger EntryListed(db, e)} :: e in db.entries ==> EntryListed(db, e))
  }

  predicate IconResolves(icons: set<Id>, icon: Option<IconRef>)
  {
    icon.Some? && icon.value.Custom? ==> icon.value.id in icons
  }

  predicate EntryIconsResolve(icons: set<Id>, e: Entry)
  {
    && IconResolves(icons, e.state.icon)
    && forall i :: 0 <= i < |e.history| ==> IconResolves(icons, e.history[i].state.icon)
  }

  ghost predicate IconsResolve(db: Database)
  {
    && (forall g :: g in db.groups ==> IconResolves(db.icons.Keys, db.groups[g].icon))
    && (forall e :: e in db.entries ==> EntryIconsResolve(db.icons.Keys, db.entries[e]))
  }

  /** The root is a parentless group and every group's ancestors lead to it. */
  ghost predicate Rooted(db: Database)
  {
    && db.root in db.groups
    && db.groups[db.root].parent == None
    && forall g {:trigger ReachesRoot(db, g)} :: g in db.groups ==> ReachesRoot(db, g)
  }

  ghost predicate ValidTree(db: Database)
  {
    Rooted(db) && ListedHaveParent(db) && ParentLists(db)
  }

  ghost predicate Valid(db: Database)
  {
    ValidTree(db) && DistinctIds(db) && IconsResolve(db)
  }

  // ---------------------------------------------------------------- climbing lemmas

  lemma {:induction false} ClimbAdd(groups: map<Id, Group>, g: Id, m: nat, x: Id, n: nat)
    requires Climb(groups, g, m) == Some(x)
    ensures Climb(groups, g, m + n) == Climb(groups, x, n)
    decreases n
  {
    if n > 0 {
      ClimbAdd(groups, g, m, x, n - 1);
      assert m + n - 1 == m + (n - 1);
    }
  }

  lemma {:induction false} ClimbNoneAfter(groups: map<Id, Group>, g: Id, m: nat, n: nat)
    requires m <= n && Climb(groups, g, m) == None
    ensures Climb(groups, g, n) == None
    decreases n
  {
    if m < n {
      ClimbNoneAfter(groups, g, m, n - 1);
    }
  }

  lemma SubtreeTransitive(groups: map<Id, Group>, x: Id, y: Id, z: Id)
    requires InSubtree(groups, x, y) && InSubtree(groups, y, z)
    ensures InSubtree(groups, x, z)
  {
    var m: nat :| Climb(groups, x, m) == Some(y);
    var n: nat :| Climb(groups, y, n) == Some(z);
    ClimbAdd(groups, x, m, y, n);
  }

  lemma SubtreeStep(groups: map<Id, Group>, x: Id, top: Id)
    requires x in groups
    ensures InSubtree(groups, x, x)
    ensures groups[x].parent.Some? ==>
              (InSubtree(groups, x, top) <==> x == top || InSubtree(groups, groups[x].parent.value, top))
    ensures groups[x].parent.None? ==> (InSubtree(groups, x, top) <==> x == top)
  {
    assert Climb(groups, x, 0) == Some(x);
    assert Climb(groups, x, 1) == groups[x].parent;
    if groups[x].parent.Some? {
      var p := groups[x].parent.value;
      if InSubtree(groups, p, top) {
        var n: nat :| Climb(groups, p, n) == Some(top);
        ClimbAdd(groups, x, 1, p, n);
      }
      if InSubtree(groups, x, top) && x != top {
        var n: nat :| Climb(groups, x, n) == Some(top);
        ClimbAdd(groups, x, 1, p, n - 1);
      }
    } else if InSubtree(groups, x, top) {
      var n: nat :| Climb(groups, x, n) == Some(top);
      if n > 0 {
        ClimbNoneAfter(groups, x, 1, n);
      }
    }
  }

  /** A walk that ends never meets a group twice. */
  lemma {:induction false} EndsInjective(groups: map<Id, Group>, g: Id, n: nat, i: nat, j: nat)
    requires Climb(groups, g, n) == None && i < j && Climb(groups, g, i).Some?
    ensures Climb(groups, g, i) != Climb(groups, g, j)
    decreases n
  {
    if n <= i {
      ClimbNoneAfter(groups, g, n, i);
    } else if Climb(groups, g, j) == Climb(groups, g, i) {
      if n <= j {
        ClimbNoneAfter(groups, g, n, j);
      } else {
        var at := Climb(groups, g, i).value;
        ClimbAdd(groups, g, i, at, n - j);
        ClimbAdd(groups, g, j, at, n - j);
        EndsInjective(groups, g, i + (n - j), i, j);
      }
    }
  }

  /** The root is met at one height only, so the walk to it cannot repeat a group. */
  lemma ClimbInjective(db: Database, g: Id, n: nat, i: nat, j: nat)
    requires db.root in db.groups && db.groups[db.root].parent == None
    requires Climb(db.groups, g, n) == Some(db.root)
    requires i < j && Climb(db.groups, g, i).Some?
    ensures Climb(db.groups, g, i) != Climb(db.groups, g, j)
  {
    EndsInjective(db.groups, g, n + 1, i, j);
  }

  /** A group strictly below `g` is not above it: subtree membership is antisymmetric. */
  lemma SubtreeAntisymmetric(db: Database, x: Id, y: Id)
    requires Rooted(db) && x in db.groups
    requires InSubtree(db.groups, x, y) && InSubtree(db.groups, y, x)
    ensures x == y
  {
    var m: nat :| Climb(db.groups, x, m) == Some(y);
    var k: nat :| Climb(db.groups, y, k) == Some(x);
    ClimbAdd(db.groups, x, m, y, k);
    assert ReachesRoot(db, x);
    var n: nat :| Climb(db.groups, x, n) == Some(db.root);
    if m + k > 0 {
      assert Climb(db.groups, x, 0) == Some(x);
      ClimbInjective(db, x, n, 0, m + k);
    }
  }

  lemma NotOwnParent(db: Database, g: Id)
    requires Rooted(db) && g in db.groups
    ensures db.groups[g].parent != Some(g)
  {
    assert ReachesRoot(db, g);
    var n: nat :| Climb(db.groups, g, n) == Some(db.root);
    assert Climb(db.groups, g, 0) == Some(g) && Climb(db.groups, g, 1) == db.groups[g].parent;
    ClimbInjective(db, g, n, 0, 1);
  }

  /** Two databases that agree on the links walked give the same walk. */
  lemma {:induction false} ClimbSame(a: map<Id, Group>, b: map<Id, Group>, x: Id, n: nat)
    requires forall i: nat :: i < n && Climb(a, x, i).Some? ==>
               var y := Climb(a, x, i).value;
               (y in a <==> y in b) && (y in a ==> a[y].parent == b[y].parent)
    ensures Climb(a, x, n) == Climb(b, x, n)
  {
    if n > 0 {
      ClimbSame(a, b, x, n - 1);
    }
  }

  /** The same groups with the same parents. */
  ghost predicate SameLinks(a: map<Id, Group>, b: map<Id, Group>)
  {
    a.Keys == b.Keys && forall x :: x in a ==> a[x].parent == b[x].parent
  }

  /** Ancestors of a tree's group are groups of the tree. */
  lemma {:induction false} AncestorLive(db: Database, x: Id, n: nat)
    requires x in db.groups && ParentLists(db) && db.root in db.groups && db.groups[db.root].parent == None
    requires Climb(db.groups, x, n).Some?
    ensures Climb(db.groups, x, n).value in db.groups
  {
    if n > 0 {
      AncestorLive(db, x, n - 1);
      var y := Climb(db.groups, x, n - 1).value;
      assert y != db.root ==> GroupListed(db, y);
    }
  }

  lemma ListedParent(db: Database, p: Id, c: Id)
    requires ValidTree(db) && p in db.groups && c in db.groups[p].groups
    ensures c in db.groups && db.groups[c].parent == Some(p)
  {
    assert ChildrenPointBack(db, p);
  }

  /** A parent is live and lists its child. */
  lemma ParentListed(db: Database, c: Id)
    requires ValidTree(db) && c in db.groups && db.groups[c].parent.Some?
    ensures GroupListed(db, c)
  {
    assert c != db.root;
  }

  lemma ListedEntryParent(db: Database, p: Id, e: Id)
    requires ValidTree(db) && p in db.groups && e in db.groups[p].entries
    ensures e in db.entries && db.entries[e].parent == p
  {
    assert ChildrenPointBack(db, p);
  }

  lemma EntryParentListed(db: Database, e: Id)
    requires ValidTree(db) && e in db.entries
    ensures EntryListed(db, e)
  {
    assert EntryListed(db, e);
  }

  lemma {:induction false} SubsetSize<T>(a: set<T>, b: set<T>)
    requires a <= b
    ensures |a| <= |b|
  {
    if a != {} {
      var x :| x in a;
      SubsetSize(a - {x}, b - {x});
    }
  }
}

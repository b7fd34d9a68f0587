/** The validator that guards every synchronization input and every merged result. */
module Validator {
  import opened Vault

  /** Adds one kind of identifier to the live set; fails on a clash or a tombstone. */
  method InsertLive(live: set<Id>, ids: set<Id>, deleted: set<Id>) returns (ok: bool, all: set<Id>)
    ensures ok <==> ids !! live && ids !! deleted
    ensures ok ==> all == live + ids
  {
    all := live;
    var rest := ids;
    while rest != {}
      invariant rest <= ids && all == live + (ids - rest)
      invariant (ids - rest) !! live && (ids - rest) !! deleted
      decreases rest
    {
      var id :| id in rest;
      if id in all || id in deleted {
        return false, all;
      }
      all, rest := all + {id}, rest - {id};
    }
    ok := true;
  }

  /** The walk so far: `path` holds the first ancestors of `g`, starting with `g`. */
  ghost predicate Walked(db: Database, g: Id, path: seq<Id>)
  {
    forall i :: 0 <= i < |path| ==> path[i] in db.groups && Climb(db.groups, g, i) == Some(path[i])
  }

  /** Walks the parents of `g`, remembering every group seen, so that cyclic parents end the walk. */
  method ClimbToRoot(db: Database, g: Id) returns (ok: bool)
    requires db.root in db.groups && db.groups[db.root].parent == None
    ensures ok <==> ReachesRoot(db, g)
  {
    var seen: set<Id> := {};
    var current := Some(g);
    ghost var path: seq<Id> := [];
    while current.Some?
      invariant current == Climb(db.groups, g, |path|)
      invariant Walked(db, g, path)
      invariant seen <= db.groups.Keys && forall x :: x in seen <==> x in path
      decreases db.groups.Keys - seen
    {
      var id := current.value;
      if id in seen {
        RevisitNeverReaches(db, g, path);
        return false;
      }
      if id !in db.groups {
        DanglingNeverReaches(db, g, path);
        return false;
      }
      seen := seen + {id};
      current := db.groups[id].parent;
      path := path + [id];
    }
    ok := db.root in seen;
    EndedWalk(db, g, path);
  }

  lemma EndedWalk(db: Database, g: Id, path: seq<Id>)
    requires Walked(db, g, path) && Climb(db.groups, g, |path|) == None
    ensures ReachesRoot(db, g) <==> db.root in path
  {
    if ReachesRoot(db, g) {
      var n: nat :| Climb(db.groups, g, n) == Some(db.root);
      if n >= |path| {
        ClimbNoneAfter(db.groups, g, |path|, n);
      }
      assert path[n] == db.root;
    }
  }

  lemma RevisitNeverReaches(db: Database, g: Id, path: seq<Id>)
    requires db.root in db.groups && db.groups[db.root].parent == None
    requires Walked(db, g, path)
    requires Climb(db.groups, g, |path|).Some? && Climb(db.groups, g, |path|).value in path
    ensures !ReachesRoot(db, g)
  {
    var i :| 0 <= i < |path| && path[i] == Climb(db.groups, g, |path|).value;
    if ReachesRoot(db, g) {
      var n: nat :| Climb(db.groups, g, n) == Some(db.root);
      ClimbInjective(db, g, n, i, |path|);
    }
  }

  lemma DanglingNeverReaches(db: Database, g: Id, path: seq<Id>)
    requires db.root in db.groups && db.groups[db.root].parent == None
    requires Walked(db, g, path)
    requires Climb(db.groups, g, |path|).Some? && Climb(db.groups, g, |path|).value !in db.groups
    ensures !ReachesRoot(db, g)
  {
    var k := |path|;
    if ReachesRoot(db, g) {
      var n: nat :| Climb(db.groups, g, n) == Some(db.root);
      if n < k {
        ClimbNoneAfter(db.groups, g, n + 1, k);
      } else if n > k {
        ClimbNoneAfter(db.groups, g, k + 1, n);
      }
    }
  }

  // The per-group obligations of one child list.

  ghost predicate GroupListOk(db: Database, p: Id)
    requires p in db.groups
  {
    && (forall c :: c in db.groups[p].groups ==> c in db.groups && db.groups[c].parent == Some(p))
    && NoDup(db.groups[p].groups)
  }

  ghost predicate EntryListOk(db: Database, p: Id)
    requires p in db.groups
  {
    && (forall e :: e in db.groups[p].entries ==> e in db.entries && db.entries[e].parent == p)
    && NoDup(db.groups[p].entries)
  }

  ghost predicate ListedGroup(db: Database, done: set<Id>, c: Id)
  {
    exists p :: p in done && p in db.groups && c in db.groups[p].groups
  }

  ghost predicate ListedEntry(db: Database, done: set<Id>, c: Id)
  {
    exists p :: p in done && p in db.groups && c in db.groups[p].entries
  }

  method CheckGroupList(db: Database, p: Id, ghost done: set<Id>, before: set<Id>)
    returns (ok: bool, after: set<Id>)
    requires p in db.groups && done <= db.groups.Keys && p !in done
    requires forall c :: c in before <==> ListedGroup(db, done, c)
    requires forall q :: q in done ==> GroupListOk(db, q)
    ensures ok <==> GroupListOk(db, p)
    ensures ok ==> forall c :: c in after <==> ListedGroup(db, done + {p}, c)
  {
    var children := db.groups[p].groups;
    after := before;
    for i := 0 to |children|
      invariant forall c :: c in after <==> c in before || c in children[..i]
      invariant forall j :: 0 <= j < i ==> children[j] in db.groups && db.groups[children[j]].parent == Some(p)
      invariant NoDup(children[..i])
    {
      var c := children[i];
      if c !in db.groups || db.groups[c].parent != Some(p) || c in after {
        if c in db.groups && db.groups[c].parent == Some(p) {
          assert c !in before;
          var j :| 0 <= j < i && children[j] == c;
        }
        return false, after;
      }
      after := after + {c};
    }
    assert children[..|children|] == children;
    ok := true;
  }

  method CheckEntryList(db: Database, p: Id, ghost done: set<Id>, before: set<Id>)
    returns (ok: bool, after: set<Id>)
    requires p in db.groups && done <= db.groups.Keys && p !in done
    requires forall e :: e in before <==> ListedEntry(db, done, e)
    requires forall q :: q in done ==> EntryListOk(db, q)
    ensures ok <==> EntryListOk(db, p)
    ensures ok ==> forall e :: e in after <==> ListedEntry(db, done + {p}, e)
  {
    var children := db.groups[p].entries;
    after := before;
    for i := 0 to |children|
      invariant forall e :: e in after <==> e in before || e in children[..i]
      invariant forall j :: 0 <= j < i ==> children[j] in db.entries && db.entries[children[j]].parent == p
      invariant NoDup(children[..i])
    {
      var e := children[i];
      if e !in db.entries || db.entries[e].parent != p || e in after {
        if e in db.entries && db.entries[e].parent == p {
          assert e !in before;
          var j :| 0 <= j < i && children[j] == e;
        }
        return false, after;
      }
      after := after + {e};
    }
    assert children[..|children|] == children;
    ok := true;
  }

  method CheckEntryIcons(db: Database) returns (ok: bool)
    ensures ok <==> forall e :: e in db.entries ==> EntryIconsResolve(db.icons.Keys, db.entries[e])
  {
    var rest := db.entries.Keys;
    while rest != {}
      invariant rest <= db.entries.Keys
      invariant forall e :: e in db.entries.Keys - rest ==> EntryIconsResolve(db.icons.Keys, db.entries[e])
      decreases rest
    {
      var e :| e in rest;
      if !IconResolves(db.icons.Keys, db.entries[e].state.icon) {
        return false;
      }
      for i := 0 to |db.entries[e].history|
        invariant forall j :: 0 <= j < i ==> IconResolves(db.icons.Keys, db.entries[e].history[j].state.icon)
      {
        if !IconResolves(db.icons.Keys, db.entries[e].history[i].state.icon) {
          return false;
        }
      }
      rest := rest - {e};
    }
    ok := true;
  }

  lemma FullSetBySize<T>(part: set<T>, whole: set<T>)
    requires part <= whole
    ensures |part| == |whole| <==> part == whole
  {
    if |part| == |whole| && part != whole {
      var x :| x in whole && x !in part;
      assert part <= whole - {x};
      SubsetSize(part, whole - {x});
    }
  }

  /** The closing head-count: with sound lists, `n - 1` listed groups means that every non-root
      group is listed by its own parent. */
  lemma GroupCount(db: Database, listed: set<Id>)
    requires Rooted(db) && ListedHaveParent(db)
    requires forall c :: c in listed <==> ListedGroup(db, db.groups.Keys, c)
    ensures |listed| + 1 == |db.groups| <==> forall c :: c in db.groups && c != db.root ==> GroupListed(db, c)
  {
    forall c ensures c in listed <==> c != db.root && GroupListed(db, c) {
      if c in listed {
        var p :| p in db.groups && c in db.groups[p].groups;
        assert ChildrenPointBack(db, p);
      }
    }
    assert listed <= db.groups.Keys - {db.root};
    FullSetBySize(listed, db.groups.Keys - {db.root});
    assert |db.groups.Keys - {db.root}| == |db.groups| - 1;
  }

  lemma EntryCount(db: Database, listed: set<Id>)
    requires ListedHaveParent(db)
    requires forall e :: e in listed <==> ListedEntry(db, db.groups.Keys, e)
    ensures |listed| == |db.entries| <==> forall e :: e in db.entries ==> EntryListed(db, e)
  {
    forall e ensures e in listed <==> EntryListed(db, e) {
      if e in listed {
        var p :| p in db.groups && e in db.groups[p].entries;
        assert ChildrenPointBack(db, p);
      }
    }
    assert listed <= db.entries.Keys;
    FullSetBySize(listed, db.entries.Keys);
  }

  ghost predicate GroupOk(db: Database, g: Id)
    requires g in db.groups
  {
    && ReachesRoot(db, g)
    && IconResolves(db.icons.Keys, db.groups[g].icon)
    && GroupListOk(db, g)
    && EntryListOk(db, g)
  }

  ghost predicate AllGroupsOk(db: Database)
  {
    forall g {:trigger GroupOk(db, g)} :: g in db.groups ==> GroupOk(db, g)
  }

  method CheckGroups(db: Database) returns (ok: bool, childGroups: set<Id>, childEntries: set<Id>)
    requires db.root in db.groups && db.groups[db.root].parent == None
    ensures ok <==> AllGroupsOk(db)
    ensures ok ==> forall c :: c in childGroups <==> ListedGroup(db, db.groups.Keys, c)
    ensures ok ==> forall e :: e in childEntries <==> ListedEntry(db, db.groups.Keys, e)
  {
    var rest := db.groups.Keys;
    ghost var done: set<Id> := {};
    childGroups, childEntries := {}, {};
    while rest != {}
      invariant rest + done == db.groups.Keys && rest !! done
      invariant forall c :: c in childGroups <==> ListedGroup(db, done, c)
      invariant forall e :: e in childEntries <==> ListedEntry(db, done, e)
      invariant forall g :: g in done ==> GroupOk(db, g)
      decreases rest
    {
      var g :| g in rest;
      assert AllGroupsOk(db) ==> GroupOk(db, g);
      ok := ClimbToRoot(db, g);
      if !ok || !IconResolves(db.icons.Keys, db.groups[g].icon) {
        return false, {}, {};
      }
      ok, childGroups := CheckGroupList(db, g, done, childGroups);
      if !ok {
        return;
      }
      ok, childEntries := CheckEntryList(db, g, done, childEntries);
      if !ok {
        return;
      }
      rest, done := rest - {g}, done + {g};
    }
    ok := true;
  }

  lemma GroupsOkMeans(db: Database)
    requires db.root in db.groups && db.groups[db.root].parent == None
    ensures AllGroupsOk(db) <==>
            && Rooted(db) && ListedHaveParent(db)
            && forall g :: g in db.groups ==> IconResolves(db.icons.Keys, db.groups[g].icon)
  {
    if AllGroupsOk(db) {
      forall g | g in db.groups
        ensures ReachesRoot(db, g) && IconResolves(db.icons.Keys, db.groups[g].icon) && ChildrenPointBack(db, g)
      {
        assert GroupOk(db, g);
      }
    } else {
      var g :| g in db.groups && !GroupOk(db, g);
      assert Rooted(db) ==> ReachesRoot(db, g);
      assert ListedHaveParent(db) ==> ChildrenPointBack(db, g);
    }
  }

  method CheckStructure(db: Database) returns (ok: bool)
    requires db.root in db.groups && db.groups[db.root].parent == None
    ensures ok <==> ValidTree(db) && IconsResolve(db)
  {
    var childGroups, childEntries;
    ok, childGroups, childEntries := CheckGroups(db);
    GroupsOkMeans(db);
    if !ok {
      return;
    }
    ok := CheckEntryIcons(db);
    if !ok {
      return;
    }
    GroupCount(db, childGroups);
    EntryCount(db, childEntries);
    ok := |childGroups| + 1 == |db.groups| && |childEntries| == |db.entries|;
  }

  /** Terminates on every finite database, cyclic parents included, and accepts exactly the valid
      ones. A database always has its root group. */
  method DatabaseValidForSync(db: Database) returns (ok: bool)
    requires db.root in db.groups
    ensures ok <==> Valid(db)
  {
    if db.groups[db.root].parent.Some? {
      return false;
    }
    var live: set<Id> := {};
    ok, live := InsertLive(live, db.entries.Keys, db.deleted.Keys);
    if !ok {
      return;
    }
    ok, live := InsertLive(live, db.groups.Keys, db.deleted.Keys);
    if !ok {
      return;
    }
    ok, live := InsertLive(live, db.icons.Keys, db.deleted.Keys);
    if !ok {
      return;
    }
    assert DistinctIds(db);
    ok := CheckStructure(db);
  }
}

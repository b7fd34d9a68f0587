/** Every tree primitive keeps a valid tree. */
module TreeLemmas {
  import opened Vault
  import opened TreeOps

  // ---------------------------------------------------------------- moving a group

  lemma AppendNoDup(s: seq<Id>, x: Id)
    requires NoDup(s) && x !in s
    ensures NoDup(s + [x])
  {
  }

  /** Outside the moved subtree no walk notices the move. */
  lemma ClimbAround(groups: map<Id, Group>, g: Id, dest: Id, x: Id, n: nat)
    requires g in groups && !InSubtree(groups, x, g)
    ensures Climb(Relink(groups, g, dest), x, n) == Climb(groups, x, n)
  {
    forall i: nat | i < n && Climb(groups, x, i).Some?
      ensures var y := Climb(groups, x, i).value;
              y in groups ==> groups[y].parent == Relink(groups, g, dest)[y].parent
    {
      assert Climb(groups, x, i).value != g;
    }
    ClimbSame(groups, Relink(groups, g, dest), x, n);
  }

  /** Below the moved group the walk is unchanged until it meets the group. */
  lemma ClimbToMoved(groups: map<Id, Group>, g: Id, dest: Id, x: Id, n: nat)
    requires g in groups && Ends(groups, x) && Climb(groups, x, n) == Some(g)
    ensures Climb(Relink(groups, g, dest), x, n) == Some(g)
  {
    var h: nat :| Climb(groups, x, h) == None;
    forall i: nat | i < n && Climb(groups, x, i).Some?
      ensures var y := Climb(groups, x, i).value;
              y in groups ==> groups[y].parent == Relink(groups, g, dest)[y].parent
    {
      EndsInjective(groups, x, h, i, n);
    }
    ClimbSame(groups, Relink(groups, g, dest), x, n);
  }

  lemma RootedEnds(db: Database, x: Id)
    requires Rooted(db) && x in db.groups
    ensures Ends(db.groups, x)
  {
    assert ReachesRoot(db, x);
    var n: nat :| Climb(db.groups, x, n) == Some(db.root);
    assert Climb(db.groups, x, n + 1) == None;
  }

  lemma MovedRooted(db: Database, g: Id, dest: Id)
    requires ValidTree(db) && g in db.groups && dest in db.groups && g != db.root
    requires !InSubtree(db.groups, dest, g)
    ensures Rooted(db.(groups := Relink(db.groups, g, dest)))
  {
    var after := db.(groups := Relink(db.groups, g, dest));
    assert ReachesRoot(db, dest);
    var h: nat :| Climb(db.groups, dest, h) == Some(db.root);
    ClimbAround(db.groups, g, dest, dest, h);
    forall x | x in after.groups ensures ReachesRoot(after, x) {
      if InSubtree(db.groups, x, g) {
        var n: nat :| Climb(db.groups, x, n) == Some(g);
        RootedEnds(db, x);
        ClimbToMoved(db.groups, g, dest, x, n);
        assert Climb(after.groups, x, n + 1) == Some(dest);
        ClimbAdd(after.groups, x, n + 1, dest, h);
      } else {
        assert ReachesRoot(db, x);
        var n: nat :| Climb(db.groups, x, n) == Some(db.root);
        ClimbAround(db.groups, g, dest, x, n);
      }
    }
  }

  lemma RelinkLists(db: Database, g: Id, dest: Id, p: Id)
    requires ValidTree(db) && g in db.groups && dest in db.groups && db.groups[g].parent.Some? && p in db.groups
    ensures var after := Relink(db.groups, g, dest);
            && NoDup(after[p].groups)
            && (forall c :: c in after[p].groups <==> if c == g then p == dest else c in db.groups[p].groups)
  {
    assert ChildrenPointBack(db, p);
    WithoutNoDup(db.groups[p].groups, g);
    ParentListed(db, g);
    var from := db.groups[g].parent;
    var kept := if from == Some(p) then Without(db.groups[p].groups, g) else db.groups[p].groups;
    assert g !in kept by {
      if g in db.groups[p].groups {
        ListedParent(db, p, g);
      }
    }
    AppendNoDup(kept, g);
  }

  lemma MovedGroupValid(db: Database, g: Id, dest: Id)
    requires ValidTree(db) && g in db.groups && MoveGroup(db, g, dest).Moved?
    ensures ValidTree(MoveGroup(db, g, dest).db)
  {
    var after := MoveGroup(db, g, dest).db;
    assert g != db.root;
    InsideIsSubtree(db, dest, g);
    MovedRooted(db, g, dest);
    forall p | p in after.groups
      ensures NoDup(after.groups[p].groups) && after.groups[p].entries == db.groups[p].entries
      ensures forall c :: c in after.groups[p].groups <==> if c == g then p == dest else c in db.groups[p].groups
    {
      RelinkLists(db, g, dest, p);
    }
    MovedLists(db, after, g, dest);
  }

  lemma MovedLists(db: Database, after: Database, g: Id, dest: Id)
    requires ValidTree(db) && g in db.groups && dest in db.groups && g != db.root
    requires after.groups.Keys == db.groups.Keys && after.entries == db.entries && after.root == db.root
    requires forall p :: p in after.groups ==>
               && NoDup(after.groups[p].groups) && after.groups[p].entries == db.groups[p].entries
               && after.groups[p].parent == (if p == g then Some(dest) else db.groups[p].parent)
    requires forall p, c :: p in after.groups ==>
               (c in after.groups[p].groups <==> if c == g then p == dest else c in db.groups[p].groups)
    ensures ListedHaveParent(after) && ParentLists(after)
  {
    forall p | p in after.groups ensures ChildrenPointBack(after, p) {
      assert ChildrenPointBack(db, p);
    }
    forall c | c in after.groups && c != after.root ensures GroupListed(after, c) {
      assert GroupListed(db, c);
    }
    forall e | e in after.entries ensures EntryListed(after, e) {
      assert EntryListed(db, e);
    }
  }

  // ---------------------------------------------------------------- moving and removing an entry

  /** A tree whose groups differ from a valid tree's in their entry lists only is rooted the same. */
  lemma SameLinksRooted(db: Database, after: Database)
    requires Rooted(db) && after.root == db.root && after.groups.Keys == db.groups.Keys
    requires forall x :: x in db.groups ==> after.groups[x].parent == db.groups[x].parent
    ensures Rooted(after)
  {
    forall x | x in after.groups ensures ReachesRoot(after, x) {
      assert ReachesRoot(db, x);
      var n: nat :| Climb(db.groups, x, n) == Some(db.root);
      ClimbSame(db.groups, after.groups, x, n);
    }
  }

  /** The same places: parents and child lists agree, whatever else the records say. */
  ghost predicate SameShape(a: Database, b: Database)
  {
    && a.root == b.root && a.groups.Keys == b.groups.Keys && a.entries.Keys == b.entries.Keys
    && (forall g :: g in a.groups ==>
          && a.groups[g].parent == b.groups[g].parent && a.groups[g].groups == b.groups[g].groups
          && a.groups[g].entries == b.groups[g].entries)
    && forall e :: e in a.entries ==> a.entries[e].parent == b.entries[e].parent
  }

  lemma SameShapeTree(a: Database, b: Database)
    requires ValidTree(a) && SameShape(a, b)
    ensures ValidTree(b)
  {
    SameLinksRooted(a, b);
    forall p | p in b.groups ensures ChildrenPointBack(b, p) {
      assert ChildrenPointBack(a, p);
    }
    forall c | c in b.groups && c != b.root ensures GroupListed(b, c) {
      assert GroupListed(a, c);
    }
    forall x | x in b.entries ensures EntryListed(b, x) {
      assert EntryListed(a, x);
    }
  }

  /** How the list of `p` changes when `e` moves to `place`, or vanishes. */
  ghost predicate EntryListMoved(db: Database, after: Database, e: Id, place: Option<Id>, p: Id)
    requires p in db.groups && p in after.groups
  {
    && after.groups[p].groups == db.groups[p].groups && after.groups[p].parent == db.groups[p].parent
    && NoDup(after.groups[p].entries)
    && forall x :: x in after.groups[p].entries <==> if x == e then Some(p) == place else x in db.groups[p].entries
  }

  lemma MovedEntryValid(db: Database, e: Id, dest: Id)
    requires ValidTree(db) && e in db.entries && dest in db.groups
    ensures ValidTree(MoveEntry(db, e, dest).db)
  {
    var after := MoveEntry(db, e, dest).db;
    SameLinksRooted(db, after);
    forall p | p in after.groups ensures EntryListMoved(db, after, e, Some(dest), p) {
      RelinkEntryList(db, e, dest, p);
    }
    EntryListsAgree(db, after, e, Some(dest));
  }

  lemma RelinkEntryList(db: Database, e: Id, dest: Id, p: Id)
    requires ValidTree(db) && e in db.entries && dest in db.groups && p in db.groups
    ensures EntryListMoved(db, MoveEntry(db, e, dest).db, e, Some(dest), p)
  {
    assert ChildrenPointBack(db, p);
    WithoutNoDup(db.groups[p].entries, e);
    var kept := if db.entries[e].parent == p then Without(db.groups[p].entries, e) else db.groups[p].entries;
    AppendNoDup(kept, e);
  }

  /** Reassembles the list agreement after one entry moved to `place`, or vanished. */
  lemma EntryListsAgree(db: Database, after: Database, e: Id, place: Option<Id>)
    requires ValidTree(db) && e in db.entries && after.root == db.root && after.groups.Keys == db.groups.Keys
    requires place.Some? ==> place.value in db.groups && e in after.entries && after.entries[e].parent == place.value
    requires after.entries.Keys == if place.Some? then db.entries.Keys else db.entries.Keys - {e}
    requires forall x :: x in after.entries && x != e ==> after.entries[x].parent == db.entries[x].parent
    requires forall p {:trigger EntryListMoved(db, after, e, place, p)} :: p in after.groups ==>
               EntryListMoved(db, after, e, place, p)
    ensures ListedHaveParent(after) && ParentLists(after)
  {
    forall p | p in after.groups ensures ChildrenPointBack(after, p) {
      assert EntryListMoved(db, after, e, place, p);
      assert ChildrenPointBack(db, p);
      forall c | c in after.groups[p].groups ensures c in after.groups && after.groups[c].parent == Some(p) {
        assert EntryListMoved(db, after, e, place, c);
      }
    }
    forall c | c in after.groups && c != after.root ensures GroupListed(after, c) {
      assert GroupListed(db, c);
      assert EntryListMoved(db, after, e, place, c);
      assert EntryListMoved(db, after, e, place, db.groups[c].parent.value);
    }
    forall x | x in after.entries ensures EntryListed(after, x) {
      assert EntryListed(db, x);
      assert EntryListMoved(db, after, e, place, after.entries[x].parent);
    }
  }

  lemma RemovedEntryValid(db: Database, e: Id)
    requires ValidTree(db) && e in db.entries
    ensures ValidTree(RemoveEntry(db, e))
  {
    var after := RemoveEntry(db, e);
    SameLinksRooted(db, after);
    forall p | p in after.groups ensures EntryListMoved(db, after, e, None, p) {
      assert ChildrenPointBack(db, p);
      WithoutNoDup(db.groups[p].entries, e);
    }
    EntryListsAgree(db, after, e, None);
  }

  // ---------------------------------------------------------------- removing a subtree

  /** A recursive removal, stated by ancestors: exactly the subtree of `g` is gone, with exactly the
      entries in it, and every survivor keeps its parent and its other children. */
  ghost predicate Cut(db: Database, g: Id, after: Database)
  {
    && after.root == db.root
    && (forall x :: x in after.groups <==> x in db.groups && !InSubtree(db.groups, x, g))
    && (forall x :: x in after.groups ==>
          && after.groups[x].parent == db.groups[x].parent && after.groups[x].entries == db.groups[x].entries
          && after.groups[x].icon == db.groups[x].icon)
    && (forall e :: e in after.entries <==> e in db.entries && !InSubtree(db.groups, db.entries[e].parent, g))
    && (forall e :: e in after.entries ==> after.entries[e] == db.entries[e])
  }

  lemma RemovedIsCut(db: Database, g: Id)
    requires ValidTree(db) && g in db.groups
    ensures Cut(db, g, RemoveGroup(db, g))
  {
    BelowIsSubtree(db, g);
    var gone := Below(db.groups, g);
    forall e | e in db.entries ensures e in EntriesIn(db, gone) <==> InSubtree(db.groups, db.entries[e].parent, g) {
      EntryParentListed(db, e);
      if e in EntriesIn(db, gone) {
        var p :| p in gone && p in db.groups && e in db.groups[p].entries;
        ListedEntryParent(db, p, e);
      }
    }
  }

  lemma RemovedGroupValid(db: Database, g: Id)
    requires ValidTree(db) && g in db.groups && g != db.root
    ensures ValidTree(RemoveGroup(db, g))
  {
    var after := RemoveGroup(db, g);
    RemovedIsCut(db, g);
    CutRooted(db, g, after);
    forall p | p in after.groups ensures CutList(db, g, after, p) {
      assert ChildrenPointBack(db, p);
      WithoutNoDup(db.groups[p].groups, g);
      if g in db.groups[p].groups {
        ListedParent(db, p, g);
      }
    }
    CutLists(db, g, after);
  }

  ghost predicate CutList(db: Database, g: Id, after: Database, p: Id)
    requires p in after.groups && p in db.groups
  {
    && NoDup(after.groups[p].groups)
    && forall c :: c in after.groups[p].groups <==> c != g && c in db.groups[p].groups
  }

  lemma CutRooted(db: Database, g: Id, after: Database)
    requires ValidTree(db) && g in db.groups && g != db.root && Cut(db, g, after)
    ensures Rooted(after)
  {
    SubtreeStep(db.groups, db.root, g);
    forall x | x in after.groups ensures ReachesRoot(after, x) {
      assert ReachesRoot(db, x);
      var n: nat :| Climb(db.groups, x, n) == Some(db.root);
      forall i: nat | i < n && Climb(db.groups, x, i).Some?
        ensures var y := Climb(db.groups, x, i).value;
                (y in db.groups <==> y in after.groups) && (y in db.groups ==> db.groups[y].parent == after.groups[y].parent)
      {
        var y := Climb(db.groups, x, i).value;
        if InSubtree(db.groups, y, g) {
          assert InSubtree(db.groups, x, y);
          SubtreeTransitive(db.groups, x, y, g);
        }
      }
      ClimbSame(db.groups, after.groups, x, n);
    }
  }

  lemma CutLists(db: Database, g: Id, after: Database)
    requires ValidTree(db) && g in db.groups && g != db.root && Cut(db, g, after)
    requires forall p {:trigger CutList(db, g, after, p)} :: p in after.groups ==> CutList(db, g, after, p)
    ensures ListedHaveParent(after) && ParentLists(after)
  {
    forall p | p in after.groups ensures ChildrenPointBack(after, p) {
      assert CutList(db, g, after, p);
      assert ChildrenPointBack(db, p);
      forall c | c in after.groups[p].groups ensures c in after.groups && after.groups[c].parent == Some(p) {
        SubtreeStep(db.groups, c, g);
      }
    }
    forall c | c in after.groups && c != after.root ensures GroupListed(after, c) {
      assert GroupListed(db, c);
      SubtreeStep(db.groups, c, g);
      SubtreeStep(db.groups, g, g);
      assert CutList(db, g, after, db.groups[c].parent.value);
    }
    forall e | e in after.entries ensures EntryListed(after, e) {
      EntryParentListed(db, e);
    }
  }

  // ---------------------------------------------------------------- adding a group

  lemma {:induction false} ClimbBelowOld(db: Database, after: Database, x: Id, n: nat)
    requires ValidTree(db) && x in db.groups && db.groups.Keys <= after.groups.Keys
    requires forall y :: y in db.groups ==> after.groups[y].parent == db.groups[y].parent
    ensures Climb(after.groups, x, n) == Climb(db.groups, x, n)
  {
    if n > 0 {
      ClimbBelowOld(db, after, x, n - 1);
      if Climb(db.groups, x, n - 1).Some? {
        AncestorLive(db, x, n - 1);
      }
    }
  }

  lemma AddedGroupValid(db: Database, parent: Id, id: Id, group: Group)
    requires ValidTree(db) && parent in db.groups && id !in db.groups
    requires group.parent == Some(parent) && group.groups == [] && group.entries == []
    ensures ValidTree(AddGroup(db, parent, id, group))
  {
    var after := AddGroup(db, parent, id, group);
    forall x | x in after.groups ensures ReachesRoot(after, x) {
      var start := if x == id then parent else x;
      assert ReachesRoot(db, start);
      var n: nat :| Climb(db.groups, start, n) == Some(db.root);
      ClimbBelowOld(db, after, start, n);
      if x == id {
        assert Climb(after.groups, x, 1) == Some(parent);
        ClimbAdd(after.groups, x, 1, parent, n);
      }
    }
    AddedLists(db, parent, id, group);
  }

  lemma AddedLists(db: Database, parent: Id, id: Id, group: Group)
    requires ValidTree(db) && parent in db.groups && id !in db.groups
    requires group.parent == Some(parent) && group.groups == [] && group.entries == []
    ensures ListedHaveParent(AddGroup(db, parent, id, group)) && ParentLists(AddGroup(db, parent, id, group))
  {
    var after := AddGroup(db, parent, id, group);
    forall p | p in after.groups ensures ChildrenPointBack(after, p) {
      if p != id {
        assert ChildrenPointBack(db, p);
        if p == parent {
          AppendNoDup(db.groups[p].groups, id);
        }
      }
    }
    forall c | c in after.groups && c != after.root ensures GroupListed(after, c) {
      assert c != id ==> GroupListed(db, c);
    }
    forall e | e in after.entries ensures EntryListed(after, e) {
      assert EntryListed(db, e);
    }
  }

  lemma AddedEntryValid(db: Database, parent: Id, id: Id, entry: Entry)
    requires ValidTree(db) && parent in db.groups && id !in db.entries && entry.parent == parent
    ensures ValidTree(AddEntry(db, parent, id, entry))
  {
    var after := AddEntry(db, parent, id, entry);
    SameLinksRooted(db, after);
    forall p | p in after.groups ensures ChildrenPointBack(after, p) {
      AddedEntryList(db, parent, id, entry, p);
    }
    forall c | c in after.groups && c != after.root ensures GroupListed(after, c) {
      assert GroupListed(db, c);
    }
    forall e | e in after.entries ensures EntryListed(after, e) {
      assert e != id ==> EntryListed(db, e);
    }
  }

  lemma AddedEntryList(db: Database, parent: Id, id: Id, entry: Entry, p: Id)
    requires ListedHaveParent(db) && parent in db.groups && id !in db.entries && entry.parent == parent
    requires p in db.groups
    ensures ChildrenPointBack(AddEntry(db, parent, id, entry), p)
  {
    assert ChildrenPointBack(db, p) && ChildrenPointBack(db, parent);
    AppendNoDup(db.groups[parent].entries, id);
  }
}

/** Parents without cycles, whatever the child lists say: what every edit of the merge keeps, even one
    that runs into conflicts. */
module Forest {
  import opened Vault
  import opened TreeOps
  import opened TreeLemmas

  /** Every walk ends, and the root, while it is there, is at the top. */
  ghost predicate Acyclic(db: Database)
  {
    && (forall g {:trigger Ends(db.groups, g)} :: g in db.groups ==> Ends(db.groups, g))
    && (db.root in db.groups ==> db.groups[db.root].parent.None?)
  }

  predicate ParentsLive(groups: map<Id, Group>)
  {
    forall g :: g in groups && groups[g].parent.Some? ==> groups[g].parent.value in groups
  }

  lemma TreeIsForest(db: Database)
    requires ValidTree(db)
    ensures Acyclic(db) && ParentsLive(db.groups)
  {
    forall g | g in db.groups ensures Ends(db.groups, g) {
      RootedEnds(db, g);
    }
    forall g | g in db.groups && db.groups[g].parent.Some? ensures db.groups[g].parent.value in db.groups {
      ParentListed(db, g);
    }
  }

  lemma SameLinksEnds(a: map<Id, Group>, b: map<Id, Group>, x: Id)
    requires SameLinks(a, b) && Ends(a, x)
    ensures Ends(b, x)
  {
    var n: nat :| Climb(a, x, n) == None;
    ClimbSame(a, b, x, n);
  }

  lemma SameLinksForest(a: Database, b: Database)
    requires Acyclic(a) && SameLinks(a.groups, b.groups) && a.root == b.root
    ensures Acyclic(b) && (ParentsLive(a.groups) ==> ParentsLive(b.groups))
  {
    forall x | x in b.groups ensures Ends(b.groups, x) {
      SameLinksEnds(a.groups, b.groups, x);
    }
  }

  lemma {:induction false} LiveAncestors(groups: map<Id, Group>, x: Id, n: nat)
    requires ParentsLive(groups) && x in groups && Climb(groups, x, n).Some?
    ensures Climb(groups, x, n).value in groups
  {
    if n > 0 {
      LiveAncestors(groups, x, n - 1);
    }
  }

  /** A new leaf changes no walk of the old groups. */
  lemma ClimbPastLeaf(groups: map<Id, Group>, after: map<Id, Group>, x: Id, n: nat)
    requires ParentsLive(groups) && x in groups
    requires forall y :: y in groups ==> y in after && after[y].parent == groups[y].parent
    ensures Climb(after, x, n) == Climb(groups, x, n)
  {
    forall i: nat | i < n && Climb(groups, x, i).Some? ensures Climb(groups, x, i).value in groups {
      LiveAncestors(groups, x, i);
    }
    ClimbSame(groups, after, x, n);
  }

  lemma LeafEnds(groups: map<Id, Group>, after: map<Id, Group>, id: Id, parent: Id)
    requires ParentsLive(groups) && parent in groups && Ends(groups, parent)
    requires forall y :: y in groups ==> y in after && after[y].parent == groups[y].parent
    requires id in after && after[id].parent == Some(parent)
    ensures Ends(after, id)
  {
    var n: nat :| Climb(groups, parent, n) == None;
    ClimbPastLeaf(groups, after, parent, n);
    assert Climb(after, id, 0) == Some(id);
    assert Climb(after, id, 1) == Some(parent);
    ClimbAdd(after, id, 1, parent, n);
  }

  lemma AddKeepsForest(c: Database, parent: Id, id: Id, group: Group)
    requires Acyclic(c) && ParentsLive(c.groups) && parent in c.groups && id !in c.groups && id != c.root
    requires group.parent == Some(parent)
    ensures var after := AddGroup(c, parent, id, group); Acyclic(after) && ParentsLive(after.groups)
  {
    var after := AddGroup(c, parent, id, group);
    assert Ends(c.groups, parent);
    LeafEnds(c.groups, after.groups, id, parent);
    forall x | x in after.groups ensures Ends(after.groups, x) {
      if x != id {
        assert Ends(c.groups, x);
        var n: nat :| Climb(c.groups, x, n) == None;
        ClimbPastLeaf(c.groups, after.groups, x, n);
      }
    }
  }

  lemma {:induction false} ShrunkClimb(groups: map<Id, Group>, after: map<Id, Group>, x: Id, n: nat)
    requires forall y :: y in after ==> y in groups && after[y].parent == groups[y].parent
    ensures Climb(after, x, n).Some? ==> Climb(after, x, n) == Climb(groups, x, n)
  {
    if n > 0 {
      ShrunkClimb(groups, after, x, n - 1);
    }
  }

  lemma RemoveKeepsForest(c: Database, id: Id)
    requires Acyclic(c) && id in c.groups
    ensures Acyclic(RemoveGroup(c, id))
  {
    var after := RemoveGroup(c, id);
    forall x | x in after.groups ensures Ends(after.groups, x) {
      assert Ends(c.groups, x);
      var n: nat :| Climb(c.groups, x, n) == None;
      ShrunkClimb(c.groups, after.groups, x, n);
    }
  }
}

/** The moves of a merge in identity order: the candidate's parents in every run, with or without
    conflicts, are those of the settled tree. */
module Settling {
  import opened Vault
  import opened TreeOps
  import opened MergeSpec
  import opened MergeLemmas
  import opened Divergence

  /** Exactly the groups before `x` have been judged. */
  predicate Before(l: Database, done: set<Id>, x: Id)
  {
    forall y :: y in l.groups ==> (y in done <==> y < x)
  }

  /** `groups` has the parents of the settled tree as far as `done` goes. */
  ghost predicate SettledSoFar(b: Database, l: Database, r: Database, groups: map<Id, Group>, done: set<Id>)
  {
    forall n: nat :: Before(l, done, n) ==> SameLinks(Settled(b, l, r, n), groups)
  }

  /** Identities that LOCAL does not have settle nothing. */
  lemma {:induction false} SettledSkips(b: Database, l: Database, r: Database, m: nat, n: nat)
    requires m <= n && forall x :: x in l.groups ==> x < m || n <= x
    ensures Settled(b, l, r, m) == Settled(b, l, r, n)
    decreases n
  {
    if m < n {
      SettledSkips(b, l, r, m, n - 1);
    }
  }

  lemma StartSettling(b: Database, l: Database, r: Database)
    ensures SettledSoFar(b, l, r, l.groups, {})
  {
    forall n: nat | Before(l, {}, n) ensures SameLinks(Settled(b, l, r, n), l.groups) {
      SettledSkips(b, l, r, 0, n);
    }
  }

  lemma SettleMore(b: Database, l: Database, r: Database, after: map<Id, Group>, done: set<Id>, id: Id)
    requires Before(l, done, id) && SameLinks(Settled(b, l, r, id + 1), after)
    ensures SettledSoFar(b, l, r, after, done + {id})
  {
    forall n: nat | Before(l, done + {id}, n) ensures SameLinks(Settled(b, l, r, n), after) {
      if n <= id {
        SettledSkips(b, l, r, n, id + 1);
      } else {
        SettledSkips(b, l, r, id + 1, n);
      }
    }
  }

  lemma SettleNothing(b: Database, l: Database, r: Database, groups: map<Id, Group>, done: set<Id>, id: Id)
    requires Before(l, done, id) && SettledSoFar(b, l, r, groups, done) && !InAll(b, l, r, id)
    ensures SettledSoFar(b, l, r, groups, done + {id})
  {
    assert SameLinks(Settled(b, l, r, id), groups);
    SettleMore(b, l, r, groups, done, id);
  }

  lemma EndSettling(b: Database, l: Database, r: Database, groups: map<Id, Group>, done: set<Id>)
    requires SettledSoFar(b, l, r, groups, done) && l.groups.Keys <= done
    ensures SameLinks(SettledTree(b, l, r), groups)
  {
    assert Before(l, done, Beyond(l.groups.Keys));
  }

  /** Placing a group in a tree with the settled parents is refused exactly if its move is, and settles
      it otherwise. */
  lemma PlaceSettles(b: Database, l: Database, r: Database, c: Database, id: Id, target: Group, stamp: Time)
    requires SameLinks(Settled(b, l, r, id), c.groups) && InAll(b, l, r, id) && SamePlace(c.groups[id], target)
    ensures var placing := PlaceGroup(c, id, target, l.groups[id].parent, MergedParent(b, l, r, id), stamp);
            && (placing.refused <==> MoveRefused(b, l, r, id))
            && SameLinks(Settled(b, l, r, id + 1), placing.db.groups)
  {
    var settled, p := Settled(b, l, r, id), MergedParent(b, l, r, id);
    PlacedParents(c, id, target, l.groups[id].parent, p, stamp);
    SameMoves(settled, c.groups[id := target], id, p);
  }

  lemma SameMoves(a: map<Id, Group>, b: map<Id, Group>, x: Id, p: Option<Id>)
    requires SameLinks(a, b)
    ensures CanMove(a, x, p) <==> CanMove(b, x, p)
  {
    if p.Some? {
      InsideSameLinks(a, b, p.value, x);
    }
  }

  /** Placing refuses what the library cannot move, and changes one parent at most. */
  lemma PlacedParents(c: Database, id: Id, target: Group, from: Option<Id>, parent: Option<Id>, stamp: Time)
    requires id in c.groups && target.parent == c.groups[id].parent
    ensures var placing := PlaceGroup(c, id, target, from, parent, stamp);
            && (placing.refused <==> parent != from && !CanMove(c.groups[id := target], id, parent))
            && (forall x :: x in c.groups && x != id ==> placing.db.groups[x].parent == c.groups[x].parent)
            && placing.db.groups[id].parent == if placing.refused || parent == from then c.groups[id].parent else parent
  {
  }
}

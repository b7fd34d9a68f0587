/** The tree primitives of the database library, and what each keeps of a valid tree. */
module TreeOps {
  import opened Vault
  import opened ThreeWay

  datatype MoveError = NotFound | CannotMoveRoot | WouldCreateCycle
  datatype Moved = Moved(db: Database) | Refused(error: MoveError)

  /** Drops `x` from a child list and keeps the order of the others. */
  function Without(s: seq<Id>, x: Id): (r: seq<Id>)
    ensures forall y :: y in r <==> y in s && y != x
  {
    RelativeOrder(s, Elements(s) - {x})
  }

  /** `top` is `x` or one of its ancestors. */
  predicate Inside(groups: map<Id, Group>, x: Id, top: Id)
  {
    exists n :: 0 <= n <= |groups| && Climb(groups, x, n) == Some(top)
  }

  function Relink(groups: map<Id, Group>, g: Id, dest: Id): (r: map<Id, Group>)
    requires g in groups
    ensures r.Keys == groups.Keys
  {
    var from := groups[g].parent;
    map x | x in groups ::
      var kept := if from == Some(x) then Without(groups[x].groups, g) else groups[x].groups;
      var listed := groups[x].(groups := if x == dest then kept + [g] else kept);
      if x == g then listed.(parent := Some(dest), previousParent := from) else listed
  }

  function MoveGroup(db: Database, g: Id, dest: Id): (r: Moved)
    requires g in db.groups
  {
    if dest !in db.groups then Refused(NotFound)
    else if db.groups[g].parent.None? then Refused(CannotMoveRoot)
    else if Inside(db.groups, dest, g) then Refused(WouldCreateCycle)
    else Moved(db.(groups := Relink(db.groups, g, dest)))
  }

  function RelinkEntry(groups: map<Id, Group>, e: Id, from: Id, dest: Id): (r: map<Id, Group>)
    ensures r.Keys == groups.Keys
  {
    map x | x in groups ::
      var kept := if from == x then Without(groups[x].entries, e) else groups[x].entries;
      groups[x].(entries := if x == dest then kept + [e] else kept)
  }

  function MoveEntry(db: Database, e: Id, dest: Id): (r: Moved)
    requires e in db.entries
  {
    if dest !in db.groups then Refused(NotFound)
    else
      var entry := db.entries[e];
      Moved(db.(groups := RelinkEntry(db.groups, e, entry.parent, dest),
                entries := db.entries[e := entry.(parent := dest, state := entry.state.(previousParent := Some(entry.parent)))]))
  }

  /** Appends a group that the database does not have yet below `parent`. */
  function AddGroup(db: Database, parent: Id, id: Id, group: Group): (r: Database)
    requires parent in db.groups && id !in db.groups
  {
    var p := db.groups[parent];
    db.(groups := db.groups[parent := p.(groups := p.groups + [id])][id := group])
  }

  function AddEntry(db: Database, parent: Id, id: Id, entry: Entry): (r: Database)
    requires parent in db.groups && id !in db.entries
  {
    var p := db.groups[parent];
    db.(groups := db.groups[parent := p.(entries := p.entries + [id])], entries := db.entries[id := entry])
  }

  function RemoveEntry(db: Database, e: Id): (r: Database)
    requires e in db.entries
  {
    var p := db.entries[e].parent;
    db.(entries := db.entries - {e},
        groups := map x | x in db.groups ::
          if x == p then db.groups[x].(entries := Without(db.groups[x].entries, e)) else db.groups[x])
  }

  function ChildrenOf(groups: map<Id, Group>, s: set<Id>): (r: set<Id>)
  {
    set c | c in groups && exists p :: p in s && p in groups && c in groups[p].groups
  }

  function Down(groups: map<Id, Group>, s: set<Id>, n: nat): (r: set<Id>)
    decreases n
  {
    if n == 0 then s else Down(groups, s + ChildrenOf(groups, s), n - 1)
  }

  /** `g` and everything below it, following the child lists. */
  function Below(groups: map<Id, Group>, g: Id): (r: set<Id>)
  {
    Down(groups, {g}, |groups|)
  }

  function EntriesIn(db: Database, s: set<Id>): (r: set<Id>)
  {
    set e | e in db.entries && exists p :: p in s && p in db.groups && e in db.groups[p].entries
  }

  /** Recursive removal, without tombstones. */
  function RemoveGroup(db: Database, g: Id): (r: Database)
    requires g in db.groups
  {
    var gone := Below(db.groups, g);
    db.(groups := map x | x in db.groups && x !in gone ::
          if db.groups[g].parent == Some(x) then db.groups[x].(groups := Without(db.groups[x].groups, g)) else db.groups[x],
        entries := db.entries - EntriesIn(db, gone))
  }

  // ---------------------------------------------------------------- child lists

  lemma {:induction false} RelativeOrderNoDup(s: seq<Id>, u: set<Id>)
    requires NoDup(s)
    ensures NoDup(RelativeOrder(s, u))
  {
    if s != [] {
      RelativeOrderNoDup(s[..|s| - 1], u);
    }
  }

  lemma WithoutNoDup(s: seq<Id>, x: Id)
    requires NoDup(s)
    ensures NoDup(Without(s, x))
  {
    RelativeOrderNoDup(s, Elements(s) - {x});
  }

  // ---------------------------------------------------------------- descending

  ghost predicate ListClosed(groups: map<Id, Group>, s: set<Id>)
  {
    forall p, c :: p in s && p in groups && c in groups[p].groups && c in groups ==> c in s
  }

  lemma {:induction false} DownContains(groups: map<Id, Group>, s: set<Id>, n: nat)
    ensures s <= Down(groups, s, n)
    decreases n
  {
    if n > 0 {
      DownContains(groups, s + ChildrenOf(groups, s), n - 1);
    }
  }

  lemma {:induction false} DownWithin(groups: map<Id, Group>, s: set<Id>, n: nat, bound: set<Id>)
    requires s <= bound && ListClosed(groups, bound)
    ensures Down(groups, s, n) <= bound
    decreases n
  {
    if n > 0 {
      DownWithin(groups, s + ChildrenOf(groups, s), n - 1, bound);
    }
  }

  lemma {:induction false} ClimbDown(db: Database, x: Id, n: nat, s: set<Id>)
    requires ValidTree(db) && x in db.groups
    requires Climb(db.groups, x, n).Some? && Climb(db.groups, x, n).value in s
    ensures x in Down(db.groups, s, n)
    decreases n
  {
    if n > 0 {
      var y := Climb(db.groups, x, n - 1).value;
      AncestorLive(db, x, n - 1);
      assert GroupListed(db, y);
      assert y in ChildrenOf(db.groups, s);
      ClimbDown(db, x, n - 1, s + ChildrenOf(db.groups, s));
    }
  }

  lemma {:induction false} DownMonotone(groups: map<Id, Group>, s: set<Id>, m: nat, n: nat)
    requires m <= n
    ensures Down(groups, s, m) <= Down(groups, s, n)
    decreases m
  {
    if m == 0 {
      DownContains(groups, s, n);
    } else {
      DownMonotone(groups, s + ChildrenOf(groups, s), m - 1, n - 1);
    }
  }

  function Ancestors(groups: map<Id, Group>, x: Id, n: nat): (r: set<Id>)
  {
    match Climb(groups, x, n)
    case None => {}
    case Some(y) => {y} + if n == 0 then {} else Ancestors(groups, x, n - 1)
  }

  lemma {:induction false} AncestorHeight(groups: map<Id, Group>, x: Id, n: nat, y: Id) returns (i: nat)
    requires y in Ancestors(groups, x, n)
    ensures i <= n && Climb(groups, x, i) == Some(y)
  {
    i := n;
    if n > 0 && Climb(groups, x, n) != Some(y) {
      i := AncestorHeight(groups, x, n - 1, y);
    }
  }

  lemma {:induction false} AncestorsDistinct(db: Database, x: Id, n: nat)
    requires ValidTree(db) && x in db.groups && Climb(db.groups, x, n).Some?
    ensures |Ancestors(db.groups, x, n)| == n + 1
    ensures Ancestors(db.groups, x, n) <= db.groups.Keys
  {
    var y := Climb(db.groups, x, n).value;
    AncestorLive(db, x, n);
    if n > 0 {
      AncestorsDistinct(db, x, n - 1);
      var below := Ancestors(db.groups, x, n - 1);
      if y in below {
        var i := AncestorHeight(db.groups, x, n - 1, y);
        assert ReachesRoot(db, x);
        var h: nat :| Climb(db.groups, x, h) == Some(db.root);
        ClimbInjective(db, x, h, i, n);
      }
      assert Ancestors(db.groups, x, n) == {y} + below;
    }
  }

  /** No walk in a tree is longer than the number of groups. */
  lemma ClimbBounded(db: Database, x: Id, n: nat)
    requires ValidTree(db) && x in db.groups && Climb(db.groups, x, n).Some?
    ensures n < |db.groups|
  {
    AncestorsDistinct(db, x, n);
    SubsetSize(Ancestors(db.groups, x, n), db.groups.Keys);
  }

  lemma InsideIsSubtree(db: Database, x: Id, top: Id)
    requires ValidTree(db) && x in db.groups
    ensures Inside(db.groups, x, top) <==> InSubtree(db.groups, x, top)
  {
    if InSubtree(db.groups, x, top) {
      var n: nat :| Climb(db.groups, x, n) == Some(top);
      ClimbBounded(db, x, n);
    }
  }

  /** In a tree the child lists and the parent pointers describe the same subtree. */
  lemma BelowIsSubtree(db: Database, g: Id)
    requires ValidTree(db) && g in db.groups
    ensures Below(db.groups, g) <= db.groups.Keys
    ensures forall x :: x in db.groups ==> (x in Below(db.groups, g) <==> InSubtree(db.groups, x, g))
  {
    var sub := set x | x in db.groups && InSubtree(db.groups, x, g);
    SubtreeStep(db.groups, g, g);
    forall p, c | p in sub && p in db.groups && c in db.groups[p].groups && c in db.groups ensures c in sub {
      ListedParent(db, p, c);
      SubtreeStep(db.groups, c, g);
    }
    DownWithin(db.groups, {g}, |db.groups|, sub);
    forall x | x in sub ensures x in Below(db.groups, g) {
      var n: nat :| Climb(db.groups, x, n) == Some(g);
      ClimbBounded(db, x, n);
      ClimbDown(db, x, n, {g});
      DownMonotone(db.groups, {g}, n, |db.groups|);
    }
  }

  lemma InsideSameLinks(a: map<Id, Group>, b: map<Id, Group>, x: Id, top: Id)
    requires SameLinks(a, b)
    ensures Inside(a, x, top) <==> Inside(b, x, top)
  {
    assert |a| == |a.Keys| == |b.Keys| == |b|;
    forall n: nat ensures Climb(a, x, n) == Climb(b, x, n) {
      ClimbSame(a, b, x, n);
    }
  }

  /** A descent that has found nothing new at some step has found everything; one that always finds
      something new soon has more than there is. */
  lemma {:induction false} DownSettles(groups: map<Id, Group>, s: set<Id>, n: nat)
    requires s <= groups.Keys
    ensures Down(groups, s, n) <= groups.Keys
    ensures ListClosed(groups, Down(groups, s, n)) || |Down(groups, s, n)| >= |s| + n
    decreases n
  {
    if n > 0 {
      var more := s + ChildrenOf(groups, s);
      if more == s {
        assert ListClosed(groups, s) by {
          forall p, c | p in s && p in groups && c in groups[p].groups && c in groups ensures c in s {
            assert c in ChildrenOf(groups, s);
          }
        }
        DownWithin(groups, s, n, s);
        DownContains(groups, s, n);
        assert Down(groups, s, n) == s;
      } else {
        var x :| x in more && x !in s;
        SubsetSize(s + {x}, more);
        DownSettles(groups, more, n - 1);
      }
    }
  }

  lemma BelowClosed(groups: map<Id, Group>, g: Id)
    requires g in groups
    ensures g in Below(groups, g) && Below(groups, g) <= groups.Keys && ListClosed(groups, Below(groups, g))
  {
    DownContains(groups, {g}, |groups|);
    DownSettles(groups, {g}, |groups|);
    SubsetSize(Below(groups, g), groups.Keys);
    assert |groups| == |groups.Keys|;
  }
}

/** What moves and removals do, told from outside: where everything is afterwards, in which order it is
    listed, what is recorded, and that nothing else has changed. */
module Placement {
  import opened Vault
  import opened ThreeWay
  import opened TreeOps
  import opened TreeLemmas
  import opened DocumentSpec
  import opened DocumentLaws

  // ---------------------------------------------------------------- child lists

  /** The same list without one occurrence of `x`. */
  predicate TakenOut(before: seq<Id>, after: seq<Id>, x: Id)
  {
    exists i :: 0 <= i < |before| && before[i] == x && after == before[..i] + before[i + 1..]
  }

  /** How a list changes when `x` leaves it, enters it at the end, does both or does neither. */
  predicate Relisted(before: seq<Id>, after: seq<Id>, x: Id, leaves: bool, enters: bool)
  {
    && (enters ==> after != [] && after[|after| - 1] == x)
    && var kept := if enters then after[..|after| - 1] else after;
       if leaves then TakenOut(before, kept, x) else kept == before
  }

  predicate Precedes(list: seq<Id>, x: Id, y: Id)
  {
    exists i, j :: 0 <= i < j < |list| && list[i] == x && list[j] == y
  }

  lemma {:induction false} RelativeOrderAll(s: seq<Id>, u: set<Id>)
    requires forall i :: 0 <= i < |s| ==> s[i] in u
    ensures RelativeOrder(s, u) == s
  {
    if s != [] {
      var init, last := s[..|s| - 1], s[|s| - 1];
      RelativeOrderAll(init, u);
      assert s[|s| - 1] in u;
      assert s == init + [last];
    }
  }

  lemma {:induction false} OneLeftOut(s: seq<Id>, u: set<Id>, k: nat)
    requires k < |s| && s[k] !in u && forall i :: 0 <= i < |s| && i != k ==> s[i] in u
    ensures RelativeOrder(s, u) == s[..k] + s[k + 1..]
  {
    var init, last := s[..|s| - 1], s[|s| - 1];
    if k == |s| - 1 {
      RelativeOrderAll(init, u);
    } else {
      OneLeftOut(init, u, k);
      assert s[|s| - 1] in u;
      LongerTail(s, k);
    }
  }

  lemma LongerTail(s: seq<Id>, i: nat)
    requires i < |s| - 1
    ensures s[..|s| - 1][..i] + s[..|s| - 1][i + 1..] + [s[|s| - 1]] == s[..i] + s[i + 1..]
  {
  }

  lemma WithoutTakesOut(s: seq<Id>, x: Id)
    requires NoDup(s) && x in s
    ensures TakenOut(s, Without(s, x), x)
  {
    var k :| 0 <= k < |s| && s[k] == x;
    OneLeftOut(s, Elements(s) - {x}, k);
  }

  lemma ListRelisted(before: seq<Id>, after: seq<Id>, x: Id, leaves: bool, enters: bool)
    requires NoDup(before) && (leaves ==> x in before)
    requires var kept := if leaves then Without(before, x) else before;
             after == if enters then kept + [x] else kept
    ensures Relisted(before, after, x, leaves, enters)
  {
    if leaves {
      WithoutTakesOut(before, x);
    }
    var kept := if leaves then Without(before, x) else before;
    assert (kept + [x])[..|kept|] == kept;
  }

  /** Positions before and after the element at `k` is taken out. */
  lemma TakenOutAt(before: seq<Id>, after: seq<Id>, k: nat)
    requires k < |before| && after == before[..k] + before[k + 1..]
    ensures |after| == |before| - 1
    ensures forall i {:trigger after[i]} :: 0 <= i < |after| ==> after[i] == before[if i < k then i else i + 1]
    ensures forall i {:trigger before[i]} :: 0 <= i < |before| && i != k ==>
              before[i] == after[if i < k then i else i - 1]
  {
  }

  lemma TakenOutOrder(before: seq<Id>, after: seq<Id>, x: Id, a: Id, b: Id)
    requires TakenOut(before, after, x) && a != x && b != x
    ensures Precedes(after, a, b) <==> Precedes(before, a, b)
  {
    var k :| 0 <= k < |before| && before[k] == x && after == before[..k] + before[k + 1..];
    TakenOutAt(before, after, k);
    if Precedes(after, a, b) {
      PrecedesAfter(before, after, k, a, b);
    }
    if Precedes(before, a, b) {
      PrecedesBefore(before, after, k, a, b);
    }
  }

  lemma PrecedesAfter(before: seq<Id>, after: seq<Id>, k: nat, a: Id, b: Id)
    requires |after| == |before| - 1 && Precedes(after, a, b)
    requires forall i {:trigger after[i]} :: 0 <= i < |after| ==> after[i] == before[if i < k then i else i + 1]
    ensures Precedes(before, a, b)
  {
    var i, j :| 0 <= i < j < |after| && after[i] == a && after[j] == b;
    var i', j' := if i < k then i else i + 1, if j < k then j else j + 1;
    assert i' < j' && before[i'] == a && before[j'] == b;
  }

  lemma PrecedesBefore(before: seq<Id>, after: seq<Id>, k: nat, a: Id, b: Id)
    requires k < |before| && |after| == |before| - 1 && Precedes(before, a, b) && a != before[k] && b != before[k]
    requires forall i {:trigger before[i]} :: 0 <= i < |before| && i != k ==>
               before[i] == after[if i < k then i else i - 1]
    ensures Precedes(after, a, b)
  {
    var i, j :| 0 <= i < j < |before| && before[i] == a && before[j] == b;
    var i', j' := if i < k then i else i - 1, if j < k then j else j - 1;
    assert i' < j' && after[i'] == a && after[j'] == b;
  }

  lemma AppendedOrder(list: seq<Id>, x: Id, a: Id, b: Id)
    requires x !in list && a != b && a in list + [x] && b in list + [x]
    ensures Precedes(list + [x], a, b) <==> a != x && (b == x || Precedes(list, a, b))
  {
    var all := list + [x];
    if a != x && b == x {
      var i :| 0 <= i < |all| && all[i] == a;
      assert all[|list|] == x;
    }
    if Precedes(list, a, b) {
      var i, j :| 0 <= i < j < |list| && list[i] == a && list[j] == b;
      assert all[i] == a && all[j] == b;
    }
  }

  lemma RelistedOrder(before: seq<Id>, after: seq<Id>, x: Id, leaves: bool, enters: bool, a: Id, b: Id)
    requires NoDup(before) && Relisted(before, after, x, leaves, enters) && NoDup(after) && (!enters ==> x !in after)
    requires a != b && a in after && b in after
    ensures Precedes(after, a, b) <==> a != x && (b == x || Precedes(before, a, b))
  {
    var kept := if enters then after[..|after| - 1] else after;
    if enters {
      assert after == kept + [x];
      AppendedOrder(kept, x, a, b);
    }
    if leaves && a != x && b != x {
      TakenOutOrder(before, kept, x, a, b);
    }
  }

  // ---------------------------------------------------------------- one entry

  /** The same entry in another place: its old place and the time are recorded, all else is kept. */
  predicate MovedRecord(x: Entry, y: Entry, from: Id, dest: Id, now: Time)
  {
    && y.parent == dest && y.history == x.history && y.state.previousParent == Some(from)
    && y.state.times == x.state.times.(locationChanged := now)
    && y.state.fields == x.state.fields && y.state.attachments == x.state.attachments
    && y.state.props == x.state.props && y.state.icon == x.state.icon
  }

  predicate SameTables(db: Database, after: Database)
  {
    after.root == db.root && after.icons == db.icons && after.deleted == db.deleted && after.meta == db.meta
  }

  predicate SameButEntryList(x: Group, y: Group)
  {
    && y.parent == x.parent && y.previousParent == x.previousParent && y.groups == x.groups
    && y.props == x.props && y.times == x.times && y.icon == x.icon
  }

  ghost predicate SameButEntryLists(db: Database, after: Database)
  {
    after.groups.Keys == db.groups.Keys && forall p :: p in db.groups ==> SameButEntryList(db.groups[p], after.groups[p])
  }

  /** `e` has moved to the end of `dest`'s list, and nothing else has changed. */
  ghost predicate EntryMoved(db: Database, after: Database, e: Id, dest: Id, now: Time)
  {
    && SameTables(db, after) && SameButEntryLists(db, after) && after.entries.Keys == db.entries.Keys
    && e in db.entries && dest in db.groups
    && MovedRecord(db.entries[e], after.entries[e], db.entries[e].parent, dest, now)
    && (forall x :: x in db.entries && x != e ==> after.entries[x] == db.entries[x])
    && (forall p :: p in db.groups ==>
          Relisted(db.groups[p].entries, after.groups[p].entries, e, p == db.entries[e].parent, p == dest))
  }

  lemma PlacedList(db: Database, e: Id, dest: Id, now: Time, p: Id)
    requires ValidTree(db) && e in db.entries && dest in db.groups && p in db.groups
    ensures Relisted(db.groups[p].entries, OutOfBin(db, e, dest, now).groups[p].entries, e, p == db.entries[e].parent, p == dest)
  {
    EntryParentListed(db, e);
    assert ChildrenPointBack(db, p);
    ListRelisted(db.groups[p].entries, OutOfBin(db, e, dest, now).groups[p].entries, e, p == db.entries[e].parent,
                 p == dest);
  }

  lemma PlacedTree(db: Database, e: Id, dest: Id, now: Time)
    requires ValidTree(db) && e in db.entries && dest in db.groups
    ensures ValidTree(OutOfBin(db, e, dest, now))
  {
    MovedEntryValid(db, e, dest);
    StampedEntryTree(MoveEntry(db, e, dest).db, e, now);
  }

  lemma PlacedExactly(db: Database, e: Id, dest: Id, now: Time)
    requires ValidTree(db) && e in db.entries && dest in db.groups
    ensures EntryMoved(db, OutOfBin(db, e, dest, now), e, dest, now) && ValidTree(OutOfBin(db, e, dest, now))
  {
    var after := OutOfBin(db, e, dest, now);
    forall p | p in db.groups
      ensures Relisted(db.groups[p].entries, after.groups[p].entries, e, p == db.entries[e].parent, p == dest)
    {
      PlacedList(db, e, dest, now, p);
    }
    PlacedTree(db, e, dest, now);
  }

  function ListOf(db: Database, p: Id): (r: seq<Id>)
  {
    if p in db.groups then db.groups[p].entries else []
  }

  lemma SharedList(db: Database, x: Id)
    requires ValidTree(db) && x in db.entries
    ensures x in ListOf(db, db.entries[x].parent) && NoDup(ListOf(db, db.entries[x].parent))
    ensures forall p :: x in ListOf(db, p) ==> p == db.entries[x].parent
  {
    EntryParentListed(db, x);
    assert ChildrenPointBack(db, db.entries[x].parent);
    forall p | x in ListOf(db, p) ensures p == db.entries[x].parent {
      ListedEntryParent(db, p, x);
    }
  }

  /** After a move, the moved entry is last in its group and all others keep their order. */
  lemma MovedOrder(db: Database, after: Database, e: Id, dest: Id, now: Time, x: Id, y: Id)
    requires ValidTree(db) && ValidTree(after) && EntryMoved(db, after, e, dest, now)
    requires x in db.entries && y in db.entries && x != y && after.entries[x].parent == after.entries[y].parent
    ensures Precedes(ListOf(after, after.entries[x].parent), x, y) <==>
              x != e && (y == e || Precedes(ListOf(db, after.entries[x].parent), x, y))
  {
    var p := after.entries[x].parent;
    SharedList(after, x);
    SharedList(after, y);
    SharedList(after, e);
    assert ChildrenPointBack(db, p);
    RelistedOrder(db.groups[p].entries, after.groups[p].entries, e, p == db.entries[e].parent, p == dest, x, y);
  }

  // ---------------------------------------------------------------- batches of moves

  /** Every entry of `to` is in its place there, with `from` recorded; nothing else has changed. */
  ghost predicate Replaced(db: Database, after: Database, from: map<Id, Id>, to: map<Id, Id>, now: Time)
  {
    && SameTables(db, after) && SameButEntryLists(db, after) && after.entries.Keys == db.entries.Keys
    && from.Keys == to.Keys && to.Keys <= db.entries.Keys
    && (forall x :: x in to ==> MovedRecord(db.entries[x], after.entries[x], from[x], to[x], now))
    && (forall x :: x in db.entries && x !in to ==> after.entries[x] == db.entries[x])
  }

  /** The first mention of `x` comes before any of `y`. */
  predicate FirstBefore(es: seq<Id>, x: Id, y: Id)
  {
    exists m :: 0 <= m < |es| && es[m] == x && y !in es[..m + 1]
  }

  /** The last mention of `y` comes after any of `x`. */
  predicate LastBefore(es: seq<Id>, x: Id, y: Id)
  {
    exists m :: 0 <= m < |es| && es[m] == y && x !in es[m..]
  }

  /** In every group those that stayed come first, in their old order; the others follow as mentioned. */
  ghost predicate Ordered(db: Database, after: Database, moved: set<Id>, es: seq<Id>, last: bool, x: Id, y: Id)
    requires x in after.entries
  {
    Precedes(ListOf(after, after.entries[x].parent), x, y) <==>
      if x in moved then y in moved && if last then LastBefore(es, x, y) else FirstBefore(es, x, y)
      else y in moved || Precedes(ListOf(db, after.entries[x].parent), x, y)
  }

  ghost predicate InOrder(db: Database, after: Database, moved: set<Id>, es: seq<Id>, last: bool)
  {
    forall x, y :: x in after.entries && y in after.entries && x != y && after.entries[x].parent == after.entries[y].parent ==>
                     Ordered(db, after, moved, es, last, x, y)
  }

  lemma FirstBeforeCons(es: seq<Id>, x: Id, y: Id)
    requires es != []
    ensures FirstBefore(es, x, y) <==> es[0] != y && (es[0] == x || FirstBefore(es[1..], x, y))
  {
    if FirstBefore(es, x, y) {
      var m :| 0 <= m < |es| && es[m] == x && y !in es[..m + 1];
      assert es[0] in es[..m + 1];
      if es[0] != x {
        assert es[1..][m - 1] == x && es[1..][..m] == es[..m + 1][1..];
      }
    }
    if es[0] != y {
      if es[0] == x {
        assert es[..1] == [x];
      } else if FirstBefore(es[1..], x, y) {
        var m :| 0 <= m < |es[1..]| && es[1..][m] == x && y !in es[1..][..m + 1];
        assert es[m + 1] == x && es[..m + 2] == [es[0]] + es[1..][..m + 1];
      }
    }
  }

  lemma LastBeforeCons(es: seq<Id>, x: Id, y: Id)
    requires es != []
    ensures LastBefore(es, x, y) <==> LastBefore(es[1..], x, y) || (es[0] == y && x !in es)
  {
    if LastBefore(es, x, y) {
      var m :| 0 <= m < |es| && es[m] == y && x !in es[m..];
      if m > 0 {
        assert es[1..][m - 1] == y && es[1..][m - 1..] == es[m..];
      }
    }
    if LastBefore(es[1..], x, y) {
      var m :| 0 <= m < |es[1..]| && es[1..][m] == y && x !in es[1..][m..];
      assert es[m + 1] == y && es[m + 1..] == es[1..][m..];
    }
    if es[0] == y && x !in es {
      assert es[0..] == es;
    }
  }

  lemma LastBeforeMentioned(es: seq<Id>, x: Id, y: Id)
    requires x !in es && y in es
    ensures LastBefore(es, x, y)
  {
    var m :| 0 <= m < |es| && es[m] == y;
    assert x !in es[m..];
  }

  function All(moved: set<Id>, dest: Id): (r: map<Id, Id>)
    ensures r.Keys == moved
  {
    map x | x in moved :: dest
  }

  function Parents(db: Database, moved: set<Id>): (r: map<Id, Id>)
    requires moved <= db.entries.Keys
    ensures r.Keys == moved
  {
    map x | x in moved :: db.entries[x].parent
  }

  /** `moved` has gone to `dest`, from wherever each one was. */
  ghost predicate Gathered(db: Database, after: Database, moved: set<Id>, es: seq<Id>, dest: Id, now: Time)
  {
    && moved <= db.entries.Keys
    && Replaced(db, after, Parents(db, moved), All(moved, dest), now) && InOrder(db, after, moved, es, false)
  }

  lemma NothingGathered(db: Database, es: seq<Id>, dest: Id, now: Time)
    ensures Gathered(db, db, {}, es, dest, now)
  {
  }

  /** A mention of an entry that does not move changes nothing. */
  lemma GatherSkip(db: Database, after: Database, moved: set<Id>, es: seq<Id>, dest: Id, now: Time)
    requires es != [] && es[0] !in moved && Gathered(db, after, moved, es[1..], dest, now)
    ensures Gathered(db, after, moved, es, dest, now)
  {
    forall x, y | x in after.entries && y in after.entries && x != y && after.entries[x].parent == after.entries[y].parent
      ensures Ordered(db, after, moved, es, false, x, y)
    {
      assert Ordered(db, after, moved, es[1..], false, x, y);
      FirstBeforeCons(es, x, y);
    }
  }

  lemma SameListsTwice(a: Database, b: Database, c: Database)
    requires SameButEntryLists(a, b) && SameButEntryLists(b, c)
    ensures SameButEntryLists(a, c)
  {
  }

  lemma GatherRecords(db: Database, next: Database, after: Database, moved: set<Id>, e: Id, dest: Id, now: Time)
    requires e !in moved && EntryMoved(db, next, e, dest, now) && moved <= next.entries.Keys
    requires Replaced(next, after, Parents(next, moved), All(moved, dest), now)
    ensures after.entries.Keys == db.entries.Keys && moved + {e} <= db.entries.Keys
    ensures forall x :: x in moved + {e} ==>
              MovedRecord(db.entries[x], after.entries[x], db.entries[x].parent, dest, now)
    ensures forall x :: x in db.entries && x !in moved + {e} ==> after.entries[x] == db.entries[x]
  {
    forall x | x in moved + {e} ensures MovedRecord(db.entries[x], after.entries[x], db.entries[x].parent, dest, now) {
      if x == e {
        assert after.entries[e] == next.entries[e];
      } else {
        assert MovedRecord(next.entries[x], after.entries[x], Parents(next, moved)[x], All(moved, dest)[x], now);
      }
    }
  }

  lemma GatherReplaced(db: Database, next: Database, after: Database, moved: set<Id>, e: Id, dest: Id, now: Time)
    requires e !in moved && EntryMoved(db, next, e, dest, now) && moved <= next.entries.Keys
    requires Replaced(next, after, Parents(next, moved), All(moved, dest), now)
    ensures moved + {e} <= db.entries.Keys
    ensures Replaced(db, after, Parents(db, moved + {e}), All(moved + {e}, dest), now)
  {
    GatherRecords(db, next, after, moved, e, dest, now);
    SameListsTwice(db, next, after);
  }

  lemma GatherOrdered(db: Database, next: Database, after: Database, moved: set<Id>, es: seq<Id>, dest: Id, now: Time,
                      x: Id, y: Id)
    requires ValidTree(db) && ValidTree(next) && es != [] && es[0] !in moved && EntryMoved(db, next, es[0], dest, now)
    requires x in after.entries && y in after.entries && x != y && after.entries[x].parent == after.entries[y].parent
    requires x in next.entries && y in next.entries
    requires x !in moved ==> after.entries[x] == next.entries[x]
    requires y !in moved ==> after.entries[y] == next.entries[y]
    requires Ordered(next, after, moved, es[1..], false, x, y)
    ensures Ordered(db, after, moved + {es[0]}, es, false, x, y)
  {
    FirstBeforeCons(es, x, y);
    if x !in moved && y !in moved {
      MovedOrder(db, next, es[0], dest, now, x, y);
    }
  }

  lemma GatherStep(db: Database, next: Database, after: Database, moved: set<Id>, es: seq<Id>, dest: Id, now: Time)
    requires ValidTree(db) && ValidTree(next) && es != [] && es[0] !in moved
    requires EntryMoved(db, next, es[0], dest, now) && Gathered(next, after, moved, es[1..], dest, now)
    ensures Gathered(db, after, moved + {es[0]}, es, dest, now)
  {
    GatherReplaced(db, next, after, moved, es[0], dest, now);
    forall x, y | x in after.entries && y in after.entries && x != y && after.entries[x].parent == after.entries[y].parent
      ensures Ordered(db, after, moved + {es[0]}, es, false, x, y)
    {
      assert Ordered(next, after, moved, es[1..], false, x, y);
      GatherOrdered(db, next, after, moved, es, dest, now, x, y);
    }
  }

  /** The entries that a batch names and that are not in `dest` yet. */
  function Elsewhere(db: Database, es: seq<Id>, dest: Id): (r: set<Id>)
  {
    set x | x in es && x in db.entries && db.entries[x].parent != dest
  }

  lemma ElsewhereNext(c: Database, next: Database, es: seq<Id>, dest: Id, now: Time)
    requires es != [] && es[0] in c.entries && c.entries[es[0]].parent != dest && EntryMoved(c, next, es[0], dest, now)
    ensures Elsewhere(c, es, dest) == Elsewhere(next, es[1..], dest) + {es[0]}
    ensures es[0] !in Elsewhere(next, es[1..], dest)
  {
    assert forall x :: x in es <==> x == es[0] || x in es[1..];
  }

  lemma {:induction false} MoveAllGathers(c: Database, es: seq<Id>, dest: Id, now: Time)
    requires ValidTree(c) && AllFound(c, es) && dest in c.groups
    ensures ValidTree(MoveAll(c, es, dest, now))
    ensures Gathered(c, MoveAll(c, es, dest, now), Elsewhere(c, es, dest), es, dest, now)
    decreases es
  {
    if es == [] {
      assert Elsewhere(c, es, dest) == {};
      NothingGathered(c, es, dest, now);
    } else {
      var e, r := es[0], MoveAll(c, es, dest, now);
      if c.entries[e].parent == dest {
        MoveAllGathers(c, es[1..], dest, now);
        assert Elsewhere(c, es, dest) == Elsewhere(c, es[1..], dest);
        GatherSkip(c, r, Elsewhere(c, es, dest), es, dest, now);
      } else {
        var next := OutOfBin(c, e, dest, now);
        PlacedExactly(c, e, dest, now);
        MoveAllGathers(next, es[1..], dest, now);
        ElsewhereNext(c, next, es, dest, now);
        GatherStep(c, next, r, Elsewhere(next, es[1..], dest), es, dest, now);
      }
    }
  }

  /** The entries that a batch names and that are not below `bin` yet. */
  ghost function OutsideBin(db: Database, es: seq<Id>, bin: Id): (r: set<Id>)
  {
    set x | x in es && x in db.entries && !InSubtree(db.groups, db.entries[x].parent, bin)
  }

  lemma SubtreeSameLinks(a: map<Id, Group>, b: map<Id, Group>, x: Id, top: Id)
    requires SameLinks(a, b)
    ensures InSubtree(a, x, top) <==> InSubtree(b, x, top)
  {
    forall n: nat ensures Climb(a, x, n) == Climb(b, x, n) {
      ClimbSame(a, b, x, n);
    }
  }

  lemma OutsideBinNext(c: Database, next: Database, es: seq<Id>, bin: Id, now: Time)
    requires ValidTree(c) && es != [] && es[0] in c.entries && !InSubtree(c.groups, c.entries[es[0]].parent, bin)
    requires EntryMoved(c, next, es[0], bin, now)
    ensures OutsideBin(c, es, bin) == OutsideBin(next, es[1..], bin) + {es[0]}
    ensures es[0] !in OutsideBin(next, es[1..], bin)
  {
    forall x ensures InSubtree(c.groups, x, bin) <==> InSubtree(next.groups, x, bin) {
      SubtreeSameLinks(c.groups, next.groups, x, bin);
    }
    SubtreeStep(next.groups, bin, bin);
  }

  lemma {:induction false} TrashAllGathers(c: Database, bin: Id, es: seq<Id>, now: Time)
    requires ValidTree(c) && AllFound(c, es) && bin in c.groups
    ensures ValidTree(TrashAll(c, bin, es, now))
    ensures Gathered(c, TrashAll(c, bin, es, now), OutsideBin(c, es, bin), es, bin, now)
    decreases es
  {
    if es == [] {
      assert OutsideBin(c, es, bin) == {};
      NothingGathered(c, es, bin, now);
    } else {
      var e, r := es[0], TrashAll(c, bin, es, now);
      EntryParentListed(c, e);
      InsideIsSubtree(c, c.entries[e].parent, bin);
      if InSubtree(c.groups, c.entries[e].parent, bin) {
        TrashAllGathers(c, bin, es[1..], now);
        assert OutsideBin(c, es, bin) == OutsideBin(c, es[1..], bin);
        GatherSkip(c, r, OutsideBin(c, es, bin), es, bin, now);
      } else {
        var next := OutOfBin(c, e, bin, now);
        PlacedExactly(c, e, bin, now);
        TrashAllGathers(next, bin, es[1..], now);
        OutsideBinNext(c, next, es, bin, now);
        GatherStep(c, next, r, OutsideBin(next, es[1..], bin), es, bin, now);
      }
    }
  }

  // ---------------------------------------------------------------- restoring a batch

  /** Where an entry goes back to: the group it remembers, if that is there and outside the bin. */
  ghost function Home(origin: Database, bin: Id, previous: Option<Id>): (r: Id)
  {
    if previous.Some? && previous.value in origin.groups && !InSubtree(origin.groups, previous.value, bin) then previous.value
    else origin.root
  }

  lemma TargetIsHome(db: Database, bin: Id, previous: Option<Id>)
    requires ValidTree(db)
    ensures RestoreTarget(db, bin, previous) == Home(db, bin, previous) && Home(db, bin, previous) in db.groups
  {
    if previous.Some? && previous.value in db.groups {
      InsideIsSubtree(db, previous.value, bin);
    }
  }

  ghost function Homes(origin: Database, bin: Id, es: seq<Id>): (r: map<Id, Id>)
  {
    map x | x in es && x in origin.entries :: Home(origin, bin, origin.entries[x].state.previousParent)
  }

  predicate Repeated(es: seq<Id>, x: Id)
  {
    exists i, j :: 0 <= i < j < |es| && es[i] == x && es[j] == x
  }

  /** What a restored entry remembers: where it was, or its new place if the batch names it again. */
  ghost function Origins(c: Database, homes: map<Id, Id>, es: seq<Id>): (r: map<Id, Id>)
    requires homes.Keys <= c.entries.Keys
    ensures r.Keys == homes.Keys
  {
    map x | x in homes :: if Repeated(es, x) then homes[x] else c.entries[x].parent
  }

  ghost predicate Returned(c: Database, after: Database, homes: map<Id, Id>, es: seq<Id>, now: Time)
  {
    && homes.Keys <= c.entries.Keys
    && Replaced(c, after, Origins(c, homes, es), homes, now) && InOrder(c, after, homes.Keys, es, true)
  }

  lemma RepeatedCons(es: seq<Id>, x: Id)
    requires es != []
    ensures Repeated(es, x) <==> Repeated(es[1..], x) || (es[0] == x && x in es[1..])
  {
    if Repeated(es, x) {
      var i, j :| 0 <= i < j < |es| && es[i] == x && es[j] == x;
      assert es[1..][j - 1] == x;
      if i > 0 {
        assert es[1..][i - 1] == x;
      }
    }
    if Repeated(es[1..], x) {
      var i, j :| 0 <= i < j < |es[1..]| && es[1..][i] == x && es[1..][j] == x;
      assert es[i + 1] == x && es[j + 1] == x;
    }
    if es[0] == x && x in es[1..] {
      var j :| 0 <= j < |es[1..]| && es[1..][j] == x;
      assert es[0] == x && es[j + 1] == x;
    }
  }

  lemma ReturnReplaced(c: Database, next: Database, after: Database, homes: map<Id, Id>, rest: map<Id, Id>, es: seq<Id>,
                       now: Time)
    requires es != [] && es[0] in homes && homes.Keys <= c.entries.Keys
    requires forall x :: x in homes <==> x in es
    requires forall x :: x in rest <==> x in es[1..]
    requires forall x :: x in rest ==> x in homes && rest[x] == homes[x]
    requires EntryMoved(c, next, es[0], homes[es[0]], now) && Returned(next, after, rest, es[1..], now)
    ensures Replaced(c, after, Origins(c, homes, es), homes, now)
  {
    var from := Origins(c, homes, es);
    forall x | x in homes ensures MovedRecord(c.entries[x], after.entries[x], from[x], homes[x], now) {
      RepeatedCons(es, x);
      assert x == es[0] || x in es[1..];
      assert x in rest ==> MovedRecord(next.entries[x], after.entries[x], Origins(next, rest, es[1..])[x], rest[x], now);
    }
  }

  lemma ReturnStep(c: Database, next: Database, after: Database, homes: map<Id, Id>, rest: map<Id, Id>, es: seq<Id>,
                   now: Time)
    requires ValidTree(c) && ValidTree(next) && es != [] && es[0] in homes && homes.Keys <= c.entries.Keys
    requires forall x :: x in homes <==> x in es
    requires forall x :: x in rest <==> x in es[1..]
    requires forall x :: x in rest ==> x in homes && rest[x] == homes[x]
    requires EntryMoved(c, next, es[0], homes[es[0]], now) && Returned(next, after, rest, es[1..], now)
    ensures InOrder(c, after, homes.Keys, es, true)
  {
    forall x, y | x in after.entries && y in after.entries && x != y && after.entries[x].parent == after.entries[y].parent
      ensures Ordered(c, after, homes.Keys, es, true, x, y)
    {
      assert Ordered(next, after, rest.Keys, es[1..], true, x, y);
      LastBeforeCons(es, x, y);
      if x !in rest && y in rest {
        LastBeforeMentioned(es[1..], x, y);
      }
      if x !in rest && y !in rest {
        MovedOrder(c, next, es[0], homes[es[0]], now, x, y);
      }
    }
  }

  lemma {:induction false} RestoreAllReturns(c: Database, origin: Database, bin: Id, es: seq<Id>, now: Time)
    requires ValidTree(c) && ValidTree(origin) && AllFound(c, es) && AllFound(origin, es)
    requires origin.root in c.groups && origin.groups.Keys == c.groups.Keys
    ensures ValidTree(RestoreAll(c, origin, bin, es, now))
    ensures Returned(c, RestoreAll(c, origin, bin, es, now), Homes(origin, bin, es), es, now)
    decreases es
  {
    var homes := Homes(origin, bin, es);
    if es != [] {
      var e := es[0];
      TargetIsHome(origin, bin, origin.entries[e].state.previousParent);
      var next := OutOfBin(c, e, homes[e], now);
      PlacedExactly(c, e, homes[e], now);
      RestoreAllReturns(next, origin, bin, es[1..], now);
      var after, rest := RestoreAll(next, origin, bin, es[1..], now), Homes(origin, bin, es[1..]);
      ReturnReplaced(c, next, after, homes, rest, es, now);
      ReturnStep(c, next, after, homes, rest, es, now);
    }
  }

  // ---------------------------------------------------------------- removals

  /** The named entries are gone and tombstoned; nothing else has changed. */
  ghost predicate Deleted(db: Database, after: Database, gone: set<Id>, now: Time)
  {
    && after.root == db.root && after.icons == db.icons && after.meta == db.meta && SameButEntryLists(db, after)
    && gone <= db.entries.Keys && after.entries.Keys == db.entries.Keys - gone
    && (forall x :: x in after.entries ==> after.entries[x] == db.entries[x])
    && after.deleted.Keys == db.deleted.Keys + gone
    && (forall x :: x in after.deleted ==> after.deleted[x] == if x in gone then now else db.deleted[x])
  }

  /** ... and what is left keeps its order. */
  ghost predicate KeepsOrder(db: Database, after: Database)
  {
    forall p, x, y :: x in ListOf(after, p) && y in ListOf(after, p) ==>
                        (Precedes(ListOf(after, p), x, y) <==> Precedes(ListOf(db, p), x, y))
  }

  lemma DeletedExactly(db: Database, e: Id, now: Time)
    requires ValidTree(db) && e in db.entries
    ensures Deleted(db, DeleteEntryEdit(db, e, now).db, {e}, now) && ValidTree(DeleteEntryEdit(db, e, now).db)
    ensures KeepsOrder(db, DeleteEntryEdit(db, e, now).db)
    ensures TakenOut(ListOf(db, db.entries[e].parent), ListOf(DeleteEntryEdit(db, e, now).db, db.entries[e].parent), e)
  {
    var after := DeleteEntryEdit(db, e, now).db;
    EntryParentListed(db, e);
    var home := db.entries[e].parent;
    assert ChildrenPointBack(db, home);
    WithoutTakesOut(db.groups[home].entries, e);
    RemovedEntryValid(db, e);
    SameShapeTree(RemoveEntry(db, e), after);
    forall p, x, y | x in ListOf(after, p) && y in ListOf(after, p)
      ensures Precedes(ListOf(after, p), x, y) <==> Precedes(ListOf(db, p), x, y)
    {
      if p == home {
        TakenOutOrder(db.groups[p].entries, after.groups[p].entries, e, x, y);
      } else {
        assert after.groups[p].entries == db.groups[p].entries;
      }
    }
  }

  lemma NothingDeleted(db: Database, now: Time)
    ensures Deleted(db, db, {}, now) && KeepsOrder(db, db)
  {
  }

  lemma DeletedTwice(db: Database, next: Database, after: Database, e: Id, gone: set<Id>, now: Time)
    requires Deleted(db, next, {e}, now) && Deleted(next, after, gone, now)
    ensures Deleted(db, after, gone + {e}, now)
  {
  }

  lemma DeleteStep(c: Database, next: Database, after: Database, es: seq<Id>, now: Time)
    requires es != [] && Deleted(c, next, {es[0]}, now) && Deleted(next, after, Elements(es[1..]), now)
    ensures Deleted(c, after, Elements(es), now)
  {
    assert Elements(es) == Elements(es[1..]) + {es[0]};
    DeletedTwice(c, next, after, es[0], Elements(es[1..]), now);
  }

  lemma OrderKeptTwice(db: Database, next: Database, after: Database, gone: set<Id>, now: Time)
    requires ValidTree(next) && ValidTree(after) && Deleted(next, after, gone, now) && KeepsOrder(db, next)
    requires KeepsOrder(next, after)
    ensures KeepsOrder(db, after)
  {
    forall p, x, y | x in ListOf(after, p) && y in ListOf(after, p)
      ensures Precedes(ListOf(after, p), x, y) <==> Precedes(ListOf(db, p), x, y)
    {
      forall z | z in ListOf(after, p) ensures z in ListOf(next, p) {
        ListedEntryParent(after, p, z);
        SharedList(next, z);
      }
    }
  }

  lemma {:induction false} DeleteAllFails(c: Database, es: seq<Id>, now: Time)
    ensures DeleteAll(c, es, now) == Fails(EntryNotFound) <==> !(AllFound(c, es) && NoDup(es))
    ensures DeleteAll(c, es, now).Changes? <==> AllFound(c, es) && NoDup(es)
    decreases es
  {
    if es != [] && es[0] in c.entries {
      var next := DeleteEntryEdit(c, es[0], now).db;
      DeleteAllFails(next, es[1..], now);
      FoundDistinctCons(c, next, es);
    }
  }

  lemma {:induction false} DeleteAllExactly(c: Database, es: seq<Id>, now: Time)
    requires ValidTree(c) && DeleteAll(c, es, now).Changes?
    ensures ValidTree(DeleteAll(c, es, now).db) && Deleted(c, DeleteAll(c, es, now).db, Elements(es), now)
    ensures KeepsOrder(c, DeleteAll(c, es, now).db)
    decreases es
  {
    if es == [] {
      NothingDeleted(c, now);
      assert Elements(es) == {};
    } else {
      var next, after := DeleteEntryEdit(c, es[0], now).db, DeleteAll(c, es, now).db;
      DeletedExactly(c, es[0], now);
      DeleteAllExactly(next, es[1..], now);
      OrderKeptTwice(c, next, after, Elements(es[1..]), now);
      DeleteStep(c, next, after, es, now);
    }
  }

  lemma FoundDistinctCons(c: Database, next: Database, es: seq<Id>)
    requires es != [] && es[0] in c.entries && next.entries.Keys == c.entries.Keys - {es[0]}
    ensures AllFound(c, es) && NoDup(es) <==> AllFound(next, es[1..]) && NoDup(es[1..])
  {
    if AllFound(c, es) && NoDup(es) {
      forall i | 0 <= i < |es[1..]| ensures es[1..][i] in next.entries {
        assert es[1..][i] == es[i + 1];
      }
    }
    if AllFound(next, es[1..]) && NoDup(es[1..]) {
      forall i | 0 <= i < |es| ensures es[i] in c.entries && (i > 0 ==> es[i] != es[0]) {
        assert i > 0 ==> es[1..][i - 1] == es[i];
      }
      forall i, j | 0 <= i < j < |es| ensures es[i] != es[j] {
        assert es[1..][j - 1] == es[j];
        assert i > 0 ==> es[1..][i - 1] == es[i];
      }
    }
  }

  // ---------------------------------------------------------------- groups

  predicate SameButGroupList(x: Group, y: Group)
  {
    && y.parent == x.parent && y.previousParent == x.previousParent && y.entries == x.entries
    && y.props == x.props && y.times == x.times && y.icon == x.icon
  }

  /** `g` has moved with all that is in it to the end of `dest`'s list, and nothing else has changed. */
  ghost predicate GroupMoved(db: Database, after: Database, g: Id, dest: Id, now: Time)
  {
    && SameTables(db, after) && after.entries == db.entries && after.groups.Keys == db.groups.Keys
    && g in db.groups && dest in db.groups && db.groups[g].parent.Some?
    && after.groups[g].parent == Some(dest) && after.groups[g].previousParent == db.groups[g].parent
    && after.groups[g].times == db.groups[g].times.(locationChanged := now)
    && after.groups[g].entries == db.groups[g].entries
    && after.groups[g].props == db.groups[g].props && after.groups[g].icon == db.groups[g].icon
    && (forall p :: p in db.groups && p != g ==> SameButGroupList(db.groups[p], after.groups[p]))
    && (forall p :: p in db.groups ==>
          Relisted(db.groups[p].groups, after.groups[p].groups, g, Some(p) == db.groups[g].parent, p == dest))
  }

  lemma GroupPlacedExactly(db: Database, g: Id, dest: Id, now: Time)
    requires ValidTree(db) && g in db.groups && MoveGroup(db, g, dest).Moved?
    ensures GroupMoved(db, StampGroup(MoveGroup(db, g, dest).db, g, now), g, dest, now)
  {
    var after := StampGroup(MoveGroup(db, g, dest).db, g, now);
    ParentListed(db, g);
    forall p | p in db.groups
      ensures Relisted(db.groups[p].groups, after.groups[p].groups, g, Some(p) == db.groups[g].parent, p == dest)
    {
      assert ChildrenPointBack(db, p);
      ListRelisted(db.groups[p].groups, after.groups[p].groups, g, Some(p) == db.groups[g].parent, p == dest);
    }
  }

  lemma RefusedExactly(db: Database, g: Id, dest: Id)
    requires ValidTree(db) && g in db.groups
    ensures MoveGroup(db, g, dest) == Refused(NotFound) <==> dest !in db.groups
    ensures MoveGroup(db, g, dest) == Refused(CannotMoveRoot) <==> dest in db.groups && g == db.root
    ensures MoveGroup(db, g, dest) == Refused(WouldCreateCycle) <==>
              dest in db.groups && g != db.root && InSubtree(db.groups, dest, g)
  {
    assert g != db.root ==> GroupListed(db, g);
    if dest in db.groups {
      InsideIsSubtree(db, dest, g);
    }
  }

  /** `g`, everything below it and every entry there are gone and tombstoned; if the recycle bin was
      among them, the vault has none; nothing else has changed. */
  ghost predicate SubtreeDeleted(db: Database, after: Database, g: Id, now: Time)
  {
    && after.root == db.root && after.icons == db.icons && g in db.groups && db.groups[g].parent.Some?
    && (forall x :: x in after.groups <==> x in db.groups && !InSubtree(db.groups, x, g))
    && (forall x :: x in after.groups ==>
          && SameButGroupList(db.groups[x], after.groups[x])
          && Relisted(db.groups[x].groups, after.groups[x].groups, g, Some(x) == db.groups[g].parent, false))
    && (forall e :: e in after.entries <==> e in db.entries && !InSubtree(db.groups, db.entries[e].parent, g))
    && (forall e :: e in after.entries ==> after.entries[e] == db.entries[e])
    && after.deleted.Keys == db.deleted.Keys + (db.groups.Keys - after.groups.Keys) + (db.entries.Keys - after.entries.Keys)
    && (forall x :: x in after.deleted ==>
          after.deleted[x] == if (x in db.groups && x !in after.groups) || (x in db.entries && x !in after.entries) then now
                              else if x in db.deleted then db.deleted[x] else now)
    && after.meta == db.meta.(recycleBinUuid :=
         if db.meta.recycleBinUuid.Some? && db.meta.recycleBinUuid.value in db.groups
            && InSubtree(db.groups, db.meta.recycleBinUuid.value, g) then None else db.meta.recycleBinUuid)
  }

  lemma SubtreeDeletedExactly(db: Database, g: Id, now: Time)
    requires ValidTree(db) && g in db.groups && g != db.root
    ensures SubtreeDeleted(db, DeleteGroupEdit(db, g, now).db, g, now)
  {
    var after := DeleteGroupEdit(db, g, now).db;
    DeletedGroupSets(db, g, now);
    BelowIsSubtree(db, g);
    assert GroupListed(db, g);
    DeletedStamps(db, g, now);
    forall x | x in after.groups
      ensures SameButGroupList(db.groups[x], after.groups[x])
      ensures Relisted(db.groups[x].groups, after.groups[x].groups, g, Some(x) == db.groups[g].parent, false)
    {
      assert ChildrenPointBack(db, x);
      if Some(x) == db.groups[g].parent {
        WithoutTakesOut(db.groups[x].groups, g);
      }
    }
  }

  lemma DeletedStamps(db: Database, g: Id, now: Time)
    requires ValidTree(db) && g in db.groups && g != db.root
    ensures var after := DeleteGroupEdit(db, g, now).db;
            forall x :: x in after.deleted ==>
              after.deleted[x] == if (x in db.groups && x !in after.groups) || (x in db.entries && x !in after.entries) then now
                                  else if x in db.deleted then db.deleted[x] else now
  {
    BelowIsSubtree(db, g);
    RemovedIsCut(db, g);
  }

  // ---------------------------------------------------------------- the recycle bin

  /** A vault with a recycle bin: the old one if there is one, else a new, empty group that comes last
      below the root. Nothing else has changed. */
  ghost predicate BinReady(db: Database, c: Database, bin: Id, newId: Id)
  {
    && c.entries == db.entries && c.root == db.root && c.icons == db.icons && c.deleted == db.deleted && bin in c.groups
    && if db.meta.recycleBinUuid.Some? && db.meta.recycleBinUuid.value in db.groups
       then c == db && bin == db.meta.recycleBinUuid.value
       else
         && bin == newId && c.groups.Keys == db.groups.Keys + {newId} && db.root in db.groups
         && c.groups[bin].parent == Some(db.root) && c.groups[bin].previousParent == None && c.groups[bin].icon == None
         && c.groups[bin].groups == [] && c.groups[bin].entries == [] && c.groups[bin].props.name == "Recycle Bin"
         && SameButGroupList(db.groups[db.root], c.groups[db.root])
         && c.groups[db.root].groups == db.groups[db.root].groups + [bin]
         && (forall x :: x in db.groups && x != db.root ==> c.groups[x] == db.groups[x])
         && c.meta == db.meta.(recycleBinEnabled := Some(true), recycleBinUuid := Some(bin))
  }

  lemma EnsuredExactly(db: Database, newId: Id)
    requires db.root in db.groups && newId !in db.groups
    ensures var r := EnsureRecycleBin(db, newId);
            if db.meta.recycleBinEnabled == Some(false) then r == NoBin(RecycleBinDisabled)
            else r.Bin? && BinReady(db, r.db, r.id, newId)
  {
  }
}

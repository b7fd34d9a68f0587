/** The value-level rules of the three-way merge: the pick, named maps, sibling order, history. */
module ThreeWay {
  import opened Vault

  // ---------------------------------------------------------------- the pick

  /** Keeps whichever side was edited; `None` is a clash of two different edits. */
  function ChooseThreeWay<T(==)>(base: T, local: T, remote: T): (r: Option<T>)
    ensures r.None? <==> local != base && remote != base && local != remote
    ensures r.Some? && local != base ==> r.value == local
    ensures r.Some? && remote != base ==> r.value == remote
    ensures local == base && remote == base ==> r == Some(base)
  {
    if local == remote then Some(local)
    else if local == base then Some(remote)
    else if remote == base then Some(local)
    else None
  }

  /** Swapping the two sides never changes the pick. */
  lemma ChooseSymmetric<T>(base: T, local: T, remote: T)
    ensures ChooseThreeWay(base, local, remote) == ChooseThreeWay(base, remote, local)
  {
  }

  /** `value` is the clash-free pick. */
  predicate Picks<T(==)>(base: T, local: T, remote: T, value: T)
  {
    ChooseThreeWay(base, local, remote) == Some(value)
  }

  // ---------------------------------------------------------------- named maps

  function Lookup<V>(m: map<string, V>, key: string): (r: Option<V>)
  {
    if key in m then Some(m[key]) else None
  }

  /** A clash-free merge of two named maps picks, name by name, among presence and value. */
  ghost predicate PicksMap<V(!new)>(base: map<string, V>, local: map<string, V>, remote: map<string, V>,
                             merged: map<string, V>)
  {
    forall key :: Picks(Lookup(base, key), Lookup(local, key), Lookup(remote, key), Lookup(merged, key))
  }

  /** `clashes` is exactly the set of names edited differently on both sides; every other name gets
      its pick, and a clashing name keeps LOCAL's value. */
  method MergeNamedMap<V(==, !new)>(base: map<string, V>, local: map<string, V>, remote: map<string, V>)
    returns (merged: map<string, V>, clashes: set<string>)
    ensures forall key :: key in clashes <==>
              ChooseThreeWay(Lookup(base, key), Lookup(local, key), Lookup(remote, key)).None?
    ensures forall key :: key !in clashes ==>
              Picks(Lookup(base, key), Lookup(local, key), Lookup(remote, key), Lookup(merged, key))
    ensures forall key :: key in clashes ==> Lookup(merged, key) == Lookup(local, key)
    ensures clashes == {} <==> PicksMap(base, local, remote, merged)
  {
    merged, clashes := map[], {};
    var keys := base.Keys + local.Keys + remote.Keys;
    var rest := keys;
    while rest != {}
      invariant rest <= keys && merged.Keys !! rest
      invariant forall key :: key in clashes <==>
                  (key in keys - rest && ChooseThreeWay(Lookup(base, key), Lookup(local, key), Lookup(remote, key)).None?)
      invariant forall key :: key !in rest && key !in clashes ==>
                  Picks(Lookup(base, key), Lookup(local, key), Lookup(remote, key), Lookup(merged, key))
      invariant forall key :: key in clashes ==> Lookup(merged, key) == Lookup(local, key)
      decreases rest
    {
      var key :| key in rest;
      var b, l, r := Lookup(base, key), Lookup(local, key), Lookup(remote, key);
      var selected := l;
      if l == r {
      } else if l == b {
        selected := r;
      } else if r == b {
      } else {
        clashes := clashes + {key};
      }
      if selected.Some? {
        merged := merged[key := selected.value];
      }
      rest := rest - {key};
    }
  }

  lemma PicksMapUnique<V(!new)>(base: map<string, V>, local: map<string, V>, remote: map<string, V>, m: map<string, V>,
                         n: map<string, V>)
    requires PicksMap(base, local, remote, m) && PicksMap(base, remote, local, n)
    ensures m == n
  {
    forall key ensures Lookup(m, key) == Lookup(n, key) {
      ChooseSymmetric(Lookup(base, key), Lookup(local, key), Lookup(remote, key));
      assert Picks(Lookup(base, key), Lookup(local, key), Lookup(remote, key), Lookup(m, key));
      assert Picks(Lookup(base, key), Lookup(remote, key), Lookup(local, key), Lookup(n, key));
    }
    forall key ensures (key in m <==> key in n) && (key in m ==> m[key] == n[key]) {
      assert Lookup(m, key) == Lookup(n, key);
    }
  }

  // ---------------------------------------------------------------- sibling order

  /** The members of `universe`, in the order in which `order` has them. */
  function RelativeOrder(order: seq<Id>, universe: set<Id>): (r: seq<Id>)
    ensures forall x :: x in r <==> x in order && x in universe
  {
    if order == [] then []
    else RelativeOrder(order[..|order| - 1], universe) +
         if order[|order| - 1] in universe then [order[|order| - 1]] else []
  }

  function Elements(s: seq<Id>): (r: set<Id>)
  {
    set x | x in s
  }

  lemma ElementsAppend(s: seq<Id>, x: Id)
    ensures Elements(s + [x]) == Elements(s) + {x}
  {
  }

  predicate OrderChanged(base: seq<Id>, branch: seq<Id>)
  {
    RelativeOrder(branch, Elements(base)) != RelativeOrder(base, Elements(branch))
  }

  function CommonChildren(base: seq<Id>, local: seq<Id>, remote: seq<Id>): (r: set<Id>)
  {
    set x | x in base && x in local && x in remote
  }

  predicate RemoteReorderWouldBeLost(base: seq<Id>, local: seq<Id>, remote: seq<Id>)
  {
    && OrderChanged(base, remote)
    && (|| !OrderChanged(base, local)
        || RelativeOrder(local, CommonChildren(base, local, remote)) != RelativeOrder(remote, CommonChildren(base, local, remote)))
  }

  lemma {:induction false} RelativeOrderTwice(s: seq<Id>, u: set<Id>, v: set<Id>)
    ensures RelativeOrder(RelativeOrder(s, u), v) == RelativeOrder(s, u * v)
  {
    if s != [] {
      var init, x := s[..|s| - 1], s[|s| - 1];
      RelativeOrderTwice(init, u, v);
      var r := RelativeOrder(init, u);
      if x in u {
        assert (r + [x])[..|r + [x]| - 1] == r;
      } else {
        assert r + [] == r;
      }
    }
  }

  lemma {:induction false} RelativeOrderSame(s: seq<Id>, u: set<Id>, v: set<Id>)
    requires forall x :: x in s ==> (x in u <==> x in v)
    ensures RelativeOrder(s, u) == RelativeOrder(s, v)
  {
    if s != [] {
      RelativeOrderSame(s[..|s| - 1], u, v);
    }
  }

  lemma {:induction false} RelativeOrderConcat(s: seq<Id>, t: seq<Id>, u: set<Id>)
    ensures RelativeOrder(s + t, u) == RelativeOrder(s, u) + RelativeOrder(t, u)
  {
    if t == [] {
      assert s + t == s;
    } else {
      assert (s + t)[..|s + t| - 1] == s + t[..|t| - 1];
      RelativeOrderConcat(s, t[..|t| - 1], u);
    }
  }

  /** Keeping LOCAL's order is the three-way pick of the orders that the three sides give to their
      common children. */
  predicate LocalOrderPicked(base: seq<Id>, local: seq<Id>, remote: seq<Id>)
  {
    var common := CommonChildren(base, local, remote);
    Picks(RelativeOrder(base, common), RelativeOrder(local, common), RelativeOrder(remote, common), RelativeOrder(local, common))
  }

  /** REMOTE reordered, but only around children that LOCAL dropped: the common ones stand as in BASE. */
  predicate ReorderIsGone(base: seq<Id>, local: seq<Id>, remote: seq<Id>)
  {
    var common := CommonChildren(base, local, remote);
    && OrderChanged(base, remote) && RelativeOrder(remote, common) == RelativeOrder(base, common)
    && (!OrderChanged(base, local) || RelativeOrder(local, common) != RelativeOrder(base, common))
  }

  /** Where a branch keeps BASE's order, it keeps it on the common children. */
  lemma UnchangedOnCommon(base: seq<Id>, branch: seq<Id>, other: seq<Id>, common: set<Id>)
    requires !OrderChanged(base, branch) && common == CommonChildren(base, branch, other)
    ensures RelativeOrder(branch, common) == RelativeOrder(base, common)
  {
    RelativeOrderTwice(branch, Elements(base), Elements(other));
    RelativeOrderTwice(base, Elements(branch), Elements(other));
    RelativeOrderSame(branch, Elements(base) * Elements(other), common);
    RelativeOrderSame(base, Elements(branch) * Elements(other), common);
  }

  /** The detector is exact up to one case: it fires if and only if LOCAL's order is not the pick, or
      REMOTE's reorder went away with children LOCAL dropped. The two exclude each other, and the
      second cannot arise while LOCAL has every child that BASE and REMOTE share. */
  lemma ChildOrderExact(base: seq<Id>, local: seq<Id>, remote: seq<Id>)
    ensures RemoteReorderWouldBeLost(base, local, remote) <==>
              !LocalOrderPicked(base, local, remote) || ReorderIsGone(base, local, remote)
    ensures ReorderIsGone(base, local, remote) ==> LocalOrderPicked(base, local, remote)
    ensures (forall x :: x in base && x in remote ==> x in local) ==> !ReorderIsGone(base, local, remote)
  {
    var common := CommonChildren(base, local, remote);
    if !OrderChanged(base, remote) {
      assert common == CommonChildren(base, remote, local);
      UnchangedOnCommon(base, remote, local, common);
    }
    if !OrderChanged(base, local) {
      UnchangedOnCommon(base, local, remote, common);
    }
    if forall x :: x in base && x in remote ==> x in local {
      RelativeOrderSame(remote, Elements(base), common);
      RelativeOrderSame(base, Elements(remote), common);
    }
  }

  /** If the detector stays silent, keeping LOCAL's order is the pick, whatever was added or removed. */
  lemma ChildOrderSound(base: seq<Id>, local: seq<Id>, remote: seq<Id>)
    requires !RemoteReorderWouldBeLost(base, local, remote)
    ensures LocalOrderPicked(base, local, remote)
  {
    ChildOrderExact(base, local, remote);
  }

  /** The second case does arise, as soon as LOCAL has dropped one of two swapped children. */
  lemma ChildOrderDetectorConservative(x: Id, y: Id)
    requires x != y
    ensures RemoteReorderWouldBeLost([x, y], [x], [y, x]) && ReorderIsGone([x, y], [x], [y, x])
  {
    OrderOfPair(x, y, {x});
    OrderOfPair(y, x, {x});
    OrderOfPair(x, y, {x, y});
    OrderOfPair(y, x, {x, y});
    assert Elements([x, y]) == {x, y} == Elements([y, x]) && Elements([x]) == {x};
    assert CommonChildren([x, y], [x], [y, x]) == {x};
    assert [y, x][0] != [x, y][0];
  }

  lemma OrderOfPair(x: Id, y: Id, u: set<Id>)
    ensures RelativeOrder([x], u) == if x in u then [x] else []
    ensures RelativeOrder([x, y], u) == (if x in u then [x] else []) + (if y in u then [y] else [])
  {
    assert [x][..0] == [];
    assert [x, y] == [x] + [y];
    RelativeOrderConcat([x], [y], u);
    assert [y][..0] == [];
  }

  // ---------------------------------------------------------------- history

  /** Historical revisions are compared without their structural parent. */
  predicate SameRevision(a: HistoryItem, b: HistoryItem)
  {
    a.state == b.state
  }

  predicate SameHistory(a: seq<HistoryItem>, b: seq<HistoryItem>)
  {
    |a| == |b| && forall i :: 0 <= i < |a| ==> SameRevision(a[i], b[i])
  }

  predicate HasAttachments(h: seq<HistoryItem>)
  {
    exists i :: 0 <= i < |h| && h[i].state.attachments != map[]
  }

  predicate Represented(h: seq<HistoryItem>, item: HistoryItem)
  {
    exists i :: 0 <= i < |h| && SameRevision(h[i], item)
  }

  /** The REMOTE revisions, in order, that neither LOCAL nor an earlier REMOTE revision equals. */
  function Novel(local: seq<HistoryItem>, remote: seq<HistoryItem>): (r: seq<HistoryItem>)
  {
    if remote == [] then []
    else
      var init, last := remote[..|remote| - 1], remote[|remote| - 1];
      Novel(local, init) + if Represented(local, last) || Represented(init, last) then [] else [last]
  }

  /** Pushing the items to the front, last one first, restores their order. */
  method RebuildHistory(items: seq<HistoryItem>) returns (history: seq<HistoryItem>)
    ensures history == items
  {
    history := [];
    var i := |items|;
    while i > 0
      invariant 0 <= i <= |items| && history == items[i..]
    {
      i := i - 1;
      history := [items[i]] + history;
    }
  }

  /** What the merged history is, before the item limit prunes it; `None` is a History conflict. */
  function MergedHistory(base: seq<HistoryItem>, local: seq<HistoryItem>,
                         remote: seq<HistoryItem>): (r: Option<seq<HistoryItem>>)
  {
    if SameHistory(local, remote) then Some(local)
    else if SameHistory(local, base) then (if HasAttachments(remote) then None else Some(remote))
    else if SameHistory(remote, base) then Some(local)
    else if HasAttachments(local) || HasAttachments(remote) then None
    else Some(local + Novel(local, remote))
  }

  /** Attachments in an old revision cannot be carried over from REMOTE, nor into a union. */
  predicate HistoryClash(base: seq<HistoryItem>, local: seq<HistoryItem>, remote: seq<HistoryItem>)
  {
    && !SameHistory(local, remote)
    && if SameHistory(local, base)
       then exists i, name :: 0 <= i < |remote| && name in remote[i].state.attachments
       else && !SameHistory(remote, base)
            && ((exists i, name :: 0 <= i < |local| && name in local[i].state.attachments)
                || exists i, name :: 0 <= i < |remote| && name in remote[i].state.attachments)
  }

  /** The changed side's history where one side changed; where both did, LOCAL's and then, in order, the
      first occurrence of every REMOTE revision that LOCAL lacks. */
  ghost predicate HistoryMerged(base: seq<HistoryItem>, local: seq<HistoryItem>, remote: seq<HistoryItem>, m: seq<HistoryItem>)
  {
    if SameHistory(local, remote) then m == local
    else if SameHistory(local, base) then m == remote
    else if SameHistory(remote, base) then m == local
    else local <= m && exists kept :: KeepsFirst(local, remote, kept, m[|local|..])
  }

  lemma AttachmentsByName(h: seq<HistoryItem>)
    ensures HasAttachments(h) <==> exists i, name :: 0 <= i < |h| && name in h[i].state.attachments
  {
    if HasAttachments(h) {
      var i :| 0 <= i < |h| && h[i].state.attachments != map[];
      assert exists name :: name in h[i].state.attachments;
    }
  }

  /** The function of the histories is the merged history as told above, and no revision is lost in it. */
  lemma MergedHistoryExactly(base: seq<HistoryItem>, local: seq<HistoryItem>, remote: seq<HistoryItem>)
    ensures MergedHistory(base, local, remote).None? <==> HistoryClash(base, local, remote)
    ensures MergedHistory(base, local, remote).Some? ==>
              HistoryMerged(base, local, remote, MergedHistory(base, local, remote).value)
  {
    AttachmentsByName(local);
    AttachmentsByName(remote);
    var kept := NovelIsFirstOccurrences(local, remote);
    assert (local + Novel(local, remote))[|local|..] == Novel(local, remote);
  }

  /** Where both histories changed, the merged one represents exactly the revisions of either. */
  lemma BothHistoriesRepresented(base: seq<HistoryItem>, local: seq<HistoryItem>, remote: seq<HistoryItem>, item: HistoryItem)
    requires MergedHistory(base, local, remote).Some?
    requires !SameHistory(local, base) && !SameHistory(remote, base)
    ensures Represented(MergedHistory(base, local, remote).value, item) <==> Represented(local, item) || Represented(remote, item)
  {
    UnionRepresents(local, remote, item);
    if SameHistory(local, remote) && Represented(remote, item) {
      var i :| 0 <= i < |remote| && SameRevision(remote[i], item);
      assert SameRevision(local[i], item);
    }
  }

  method MergeHistory(base: seq<HistoryItem>, local: seq<HistoryItem>, remote: seq<HistoryItem>)
    returns (merged: seq<HistoryItem>, conflict: bool)
    ensures conflict <==> MergedHistory(base, local, remote).None?
    ensures conflict <==> HistoryClash(base, local, remote)
    ensures !conflict ==> MergedHistory(base, local, remote) == Some(merged) && HistoryMerged(base, local, remote, merged)
    ensures conflict ==> merged == local
  {
    conflict := false;
    MergedHistoryExactly(base, local, remote);
    if SameHistory(local, remote) {
      return local, false;
    }
    if SameHistory(local, base) {
      if HasAttachments(remote) {
        return local, true;
      }
      return remote, false;
    }
    if SameHistory(remote, base) {
      return local, false;
    }
    if HasAttachments(local) || HasAttachments(remote) {
      return local, true;
    }
    var items := local;
    for i := 0 to |remote|
      invariant items == local + Novel(local, remote[..i])
    {
      assert remote[..i + 1][..i] == remote[..i];
      if !Represented(local, remote[i]) && !Represented(remote[..i], remote[i]) {
        items := items + [remote[i]];
      }
    }
    assert remote[..|remote|] == remote;
    merged := RebuildHistory(items);
  }

  lemma RepresentedConcat(a: seq<HistoryItem>, b: seq<HistoryItem>, item: HistoryItem)
    ensures Represented(a + b, item) <==> Represented(a, item) || Represented(b, item)
  {
    if Represented(a, item) {
      var i :| 0 <= i < |a| && SameRevision(a[i], item);
      assert (a + b)[i] == a[i];
    }
    if Represented(b, item) {
      var i :| 0 <= i < |b| && SameRevision(b[i], item);
      assert (a + b)[|a| + i] == b[i];
    }
  }

  /** The union represents exactly the revisions that LOCAL or REMOTE has. */
  lemma {:induction false} UnionRepresents(local: seq<HistoryItem>, remote: seq<HistoryItem>, item: HistoryItem)
    ensures Represented(local + Novel(local, remote), item) <==> Represented(local, item) || Represented(remote, item)
  {
    RepresentedConcat(local, Novel(local, remote), item);
    if remote != [] {
      var init, last := remote[..|remote| - 1], remote[|remote| - 1];
      assert remote == init + [last];
      RepresentedConcat(init, [last], item);
      UnionRepresents(local, init, item);
      RepresentedConcat(local, Novel(local, init), item);
      RepresentedConcat(Novel(local, init), [last], item);
      assert Represented([last], item) <==> SameRevision([last][0], item);
      if Represented(local, last) || Represented(init, last) {
        assert Novel(local, remote) == Novel(local, init);
        if SameRevision(last, item) {
          SameRepresented(local, last, item);
          SameRepresented(init, last, item);
        }
      } else {
        assert Novel(local, remote) == Novel(local, init) + [last];
      }
    }
  }

  lemma SameRepresented(h: seq<HistoryItem>, a: HistoryItem, b: HistoryItem)
    requires SameRevision(a, b)
    ensures Represented(h, a) <==> Represented(h, b)
  {
  }

  /** `kept` lists, in order, the indices of exactly the first occurrences, and `items` their items. */
  ghost predicate KeepsFirst(local: seq<HistoryItem>, remote: seq<HistoryItem>, kept: seq<nat>, items: seq<HistoryItem>)
  {
    && |kept| == |items|
    && (forall j :: 0 <= j < |kept| ==> kept[j] < |remote| && items[j] == remote[kept[j]])
    && (forall j, k :: 0 <= j < k < |kept| ==> kept[j] < kept[k])
    && forall i: nat {:trigger FirstOccurrence(local, remote, i)} :: i < |remote| ==>
          (i in kept <==> FirstOccurrence(local, remote, i))
  }

  lemma FirstOccurrenceInit(local: seq<HistoryItem>, remote: seq<HistoryItem>, i: nat)
    requires i < |remote| - 1
    ensures FirstOccurrence(local, remote[..|remote| - 1], i) <==> FirstOccurrence(local, remote, i)
  {
    assert remote[..|remote| - 1][..i] == remote[..i];
  }

  lemma KeepsOneMore(local: seq<HistoryItem>, remote: seq<HistoryItem>, kept: seq<nat>, items: seq<HistoryItem>)
    requires remote != [] && KeepsFirst(local, remote[..|remote| - 1], kept, items)
    ensures FirstOccurrence(local, remote, |remote| - 1) ==>
              KeepsFirst(local, remote, kept + [|remote| - 1], items + [remote[|remote| - 1]])
    ensures !FirstOccurrence(local, remote, |remote| - 1) ==> KeepsFirst(local, remote, kept, items)
  {
    var n := |remote| - 1;
    var longer := kept + [n];
    forall i: nat | i < |remote|
      ensures i < n ==> (i in kept <==> FirstOccurrence(local, remote, i)) && (i in longer <==> i in kept)
    {
      if i < n {
        FirstOccurrenceInit(local, remote, i);
      }
    }
    assert n !in kept;
    assert longer[|kept|] == n;
  }

  /** The kept REMOTE items are first occurrences, one by one and in order: an index contributes its
      item exactly when no LOCAL item and no earlier REMOTE item is the same revision. */
  lemma {:induction false} NovelIsFirstOccurrences(local: seq<HistoryItem>, remote: seq<HistoryItem>)
    returns (kept: seq<nat>)
    ensures KeepsFirst(local, remote, kept, Novel(local, remote))
  {
    if remote == [] {
      return [];
    }
    var init := remote[..|remote| - 1];
    kept := NovelIsFirstOccurrences(local, init);
    KeepsOneMore(local, remote, kept, Novel(local, init));
    if FirstOccurrence(local, remote, |init|) {
      assert Novel(local, remote) == Novel(local, init) + [remote[|init|]];
      kept := kept + [|init|];
    } else {
      assert Novel(local, remote) == Novel(local, init);
    }
  }

  predicate FirstOccurrence(local: seq<HistoryItem>, remote: seq<HistoryItem>, i: nat)
    requires i < |remote|
  {
    !Represented(local, remote[i]) && !Represented(remote[..i], remote[i])
  }
}

/** Steps of the merge on plain databases: what each leaves unchanged. */
module MergeLemmas {
  import opened Vault
  import opened ThreeWay
  import opened TreeOps
  import opened HistoryPolicy
  import opened MergeSpec

  /** Every listed child group points back at its lister. */
  ghost predicate ListsPointBack(groups: map<Id, Group>)
  {
    forall p, c :: p in groups && c in groups[p].groups ==> c in groups && groups[c].parent == Some(p)
  }

  /** What a conflict-free pass over group `x` has established about the inputs. */
  ghost predicate GroupJudged(b: Database, l: Database, r: Database, x: Id)
  {
    && (x in b.groups && x in l.groups && x !in r.groups ==> x in r.deleted && l.groups[x] == b.groups[x])
    && (x in b.groups && x !in l.groups && x in r.groups ==> x in l.deleted && r.groups[x] == b.groups[x])
    && (x !in b.groups && x in l.groups && x in r.groups ==> x !in b.deleted && l.groups[x] == r.groups[x])
  }

  ghost predicate EntryJudged(b: Database, l: Database, r: Database, x: Id)
  {
    && (x in b.entries && x in l.entries && x !in r.entries ==> x in r.deleted && l.entries[x] == b.entries[x])
    && (x in b.entries && x !in l.entries && x in r.entries ==> x in l.deleted && r.entries[x] == b.entries[x])
    && (x !in b.entries && x in l.entries && x in r.entries ==> x !in b.deleted && l.entries[x] == r.entries[x])
  }

  /** The record of a LOCAL group in the candidate: merged once judged, else LOCAL's, up to child lists. */
  ghost predicate LocalGroupRecord(b: Database, l: Database, r: Database, done: set<Id>, x: Id, m: Group)
    requires x in l.groups
  {
    && m.entries == l.groups[x].entries
    && if x in done && x in b.groups && x in r.groups
       then MergedGroup(b.groups[x], l.groups[x], r.groups[x], m)
       else SameButLists(m, l.groups[x])
  }

  /** The candidate while the known groups are merged: LOCAL with the judged groups replaced. */
  ghost predicate GroupsPhase(b: Database, l: Database, r: Database, c: Database, done: set<Id>)
  {
    && c.groups.Keys == l.groups.Keys
    && c.entries == l.entries
    && ListsPointBack(c.groups)
    && (forall x {:trigger LocalGroupRecord(b, l, r, done, x, c.groups[x])} :: x in c.groups ==>
          LocalGroupRecord(b, l, r, done, x, c.groups[x]))
    && GroupOrderKept(b, l, r, c.groups)
  }

  lemma WithoutOrder(s: seq<Id>, x: Id, u: set<Id>)
    requires x !in u
    ensures RelativeOrder(Without(s, x), u) == RelativeOrder(s, u)
  {
    RelativeOrderTwice(s, Elements(s) - {x}, u);
    RelativeOrderSame(s, (Elements(s) - {x}) * u, u);
  }

  lemma AppendOrder(s: seq<Id>, x: Id, u: set<Id>)
    requires x !in u
    ensures RelativeOrder(s + [x], u) == RelativeOrder(s, u)
  {
    assert (s + [x])[..|s + [x]| - 1] == s;
  }

  lemma RelinkPointsBack(groups: map<Id, Group>, g: Id, dest: Id)
    requires ListsPointBack(groups) && g in groups && dest in groups && groups[g].parent.Some? && g != dest
    ensures ListsPointBack(Relink(groups, g, dest))
  {
    forall p, c | p in groups && c in Relink(groups, g, dest)[p].groups
      ensures c in groups && Relink(groups, g, dest)[c].parent == Some(p)
    {
      RelinkedChild(groups, g, dest, p, c);
    }
  }

  lemma RelinkedChild(groups: map<Id, Group>, g: Id, dest: Id, p: Id, c: Id)
    requires ListsPointBack(groups) && g in groups && dest in groups && groups[g].parent.Some? && g != dest
    requires p in groups && c in Relink(groups, g, dest)[p].groups
    ensures c in groups && Relink(groups, g, dest)[c].parent == Some(p)
  {
    assert c == g || c in groups[p].groups;
  }

  lemma RelinkOrder(b: Database, l: Database, r: Database, groups: map<Id, Group>, g: Id, dest: Id)
    requires GroupOrderKept(b, l, r, groups) && g in groups && groups[g].parent.Some?
    requires forall x :: InAll(b, l, r, x) && (Some(x) == groups[g].parent || x == dest) ==>
               g !in CommonGroups(b, l, r, x)
    ensures GroupOrderKept(b, l, r, Relink(groups, g, dest))
  {
    var after := Relink(groups, g, dest);
    forall x | x in after && InAll(b, l, r, x)
      ensures RelativeOrder(after[x].groups, CommonGroups(b, l, r, x)) == RelativeOrder(l.groups[x].groups, CommonGroups(b, l, r, x))
    {
      var u := CommonGroups(b, l, r, x);
      var kept := if groups[g].parent == Some(x) then Without(groups[x].groups, g) else groups[x].groups;
      if groups[g].parent == Some(x) {
        WithoutOrder(groups[x].groups, g, u);
      }
      if x == dest {
        AppendOrder(kept, g, u);
      }
    }
  }

  /** Replacing one group's properties keeps lists and order. */
  lemma ReplaceProps(b: Database, l: Database, r: Database, groups: map<Id, Group>, x: Id, m: Group)
    requires x in groups && m.parent == groups[x].parent && m.groups == groups[x].groups
    requires ListsPointBack(groups) && GroupOrderKept(b, l, r, groups)
    ensures ListsPointBack(groups[x := m]) && GroupOrderKept(b, l, r, groups[x := m])
  {
  }

  /** The group record without its place: picked properties, times and icon. */
  function MergedGroupRecord(b: Group, l: Group, r: Group, current: Group): (m: Group)
    ensures m.parent == current.parent && m.groups == current.groups && m.entries == current.entries
  {
    current.(props := MergeGroupProps(b.props, l.props, r.props), times := MergeTimes(b.times, l.times, r.times),
             icon := OrLocal(b.icon, l.icon, r.icon))
  }

  /** Nothing about the record of a group live in all three inputs clashes. */
  predicate GroupRecordAgrees(b: Group, l: Group, r: Group)
  {
    && ChooseThreeWay(b.parent, l.parent, r.parent).Some?
    && GroupPropClashes(b.props, l.props, r.props) == 0
    && ChooseThreeWay(b.icon, l.icon, r.icon).Some?
    && TimeClashes(b.times, l.times, r.times) == 0
    && !PreviousClash(b.previousParent, l.previousParent, r.previousParent, OrLocal(b.parent, l.parent, r.parent) == l.parent)
    && !RemoteReorderWouldBeLost(b.groups, l.groups, r.groups)
    && !RemoteReorderWouldBeLost(b.entries, l.entries, r.entries)
  }

  lemma AgreeingRecordMerges(b: Group, l: Group, r: Group, m: Group)
    requires GroupRecordAgrees(b, l, r)
    requires m.props == MergeGroupProps(b.props, l.props, r.props) && m.icon == OrLocal(b.icon, l.icon, r.icon)
    requires m.parent == OrLocal(b.parent, l.parent, r.parent)
    requires var times := MergeTimes(b.times, l.times, r.times);
             m.times == if m.parent != l.parent then times.(locationChanged := r.times.locationChanged) else times
    requires m.previousParent == if m.parent != l.parent then l.parent else l.previousParent
    ensures MergedGroup(b, l, r, m)
  {
  }

  lemma JudgeMore(b: Database, l: Database, r: Database, c: Database, done: set<Id>, id: Id)
    requires GroupsPhase(b, l, r, c, done) && !InAll(b, l, r, id)
    ensures GroupsPhase(b, l, r, c, done + {id})
  {
    forall x | x in c.groups ensures LocalGroupRecord(b, l, r, done + {id}, x, c.groups[x]) {
      assert LocalGroupRecord(b, l, r, done, x, c.groups[x]);
    }
  }

  lemma StayStep(b: Database, l: Database, r: Database, c: Database, done: set<Id>, id: Id, m: Group)
    requires GroupsPhase(b, l, r, c, done) && InAll(b, l, r, id) && id !in done
    requires m == MergedGroupRecord(b.groups[id], l.groups[id], r.groups[id], c.groups[id])
    requires GroupRecordAgrees(b.groups[id], l.groups[id], r.groups[id])
    requires OrLocal(b.groups[id].parent, l.groups[id].parent, r.groups[id].parent) == l.groups[id].parent
    ensures GroupsPhase(b, l, r, c.(groups := c.groups[id := m]), done + {id})
  {
    var after := c.(groups := c.groups[id := m]);
    assert LocalGroupRecord(b, l, r, done, id, c.groups[id]);
    ReplaceProps(b, l, r, c.groups, id, m);
    AgreeingRecordMerges(b.groups[id], l.groups[id], r.groups[id], m);
    forall x | x in after.groups ensures LocalGroupRecord(b, l, r, done + {id}, x, after.groups[x]) {
      assert LocalGroupRecord(b, l, r, done, x, c.groups[x]);
    }
  }

  /** A group that changes parents is a common child of neither its old nor its new parent. */
  lemma MovedIsNotCommon(b: Database, l: Database, r: Database, id: Id, x: Id)
    requires ValidTree(l) && ValidTree(r) && InAll(b, l, r, id) && InAll(b, l, r, x)
    requires l.groups[id].parent != r.groups[id].parent
    ensures id !in CommonGroups(b, l, r, x)
  {
    assert ChildrenPointBack(l, x) && ChildrenPointBack(r, x);
  }

  lemma MoveStep(b: Database, l: Database, r: Database, c: Database, done: set<Id>, id: Id, m: Group, dest: Id,
                 placed: Group)
    requires ValidTree(l) && ValidTree(r)
    requires GroupsPhase(b, l, r, c, done) && InAll(b, l, r, id) && id !in done
    requires m == MergedGroupRecord(b.groups[id], l.groups[id], r.groups[id], c.groups[id])
    requires GroupRecordAgrees(b.groups[id], l.groups[id], r.groups[id])
    requires OrLocal(b.groups[id].parent, l.groups[id].parent, r.groups[id].parent) == Some(dest) != l.groups[id].parent
    requires dest in c.groups && dest != id && l.groups[id].parent.Some?
    requires var moved := Relink(c.groups[id := m], id, dest);
             placed == moved[id].(times := moved[id].times.(locationChanged := r.groups[id].times.locationChanged))
    ensures GroupsPhase(b, l, r, c.(groups := Relink(c.groups[id := m], id, dest)[id := placed]), done + {id})
  {
    var start := c.groups[id := m];
    var moved := Relink(start, id, dest);
    var after := c.(groups := moved[id := placed]);
    assert LocalGroupRecord(b, l, r, done, id, c.groups[id]);
    ReplaceProps(b, l, r, c.groups, id, m);
    RelinkPointsBack(start, id, dest);
    forall x | InAll(b, l, r, x) ensures id !in CommonGroups(b, l, r, x) {
      MovedIsNotCommon(b, l, r, id, x);
    }
    RelinkOrder(b, l, r, start, id, dest);
    ReplaceProps(b, l, r, moved, id, placed);
    AgreeingRecordMerges(b.groups[id], l.groups[id], r.groups[id], placed);
    forall x | x in after.groups ensures LocalGroupRecord(b, l, r, done + {id}, x, after.groups[x]) {
      assert LocalGroupRecord(b, l, r, done, x, c.groups[x]);
      if x == id {
      } else if x in done && x in b.groups && x in r.groups {
        assert MergedGroup(b.groups[x], l.groups[x], r.groups[x], after.groups[x]);
      } else {
        assert SameButLists(after.groups[x], l.groups[x]);
      }
    }
  }

  predicate SamePlace(g: Group, m: Group)
  {
    g.parent == m.parent && g.groups == m.groups && g.entries == m.entries
  }

  datatype Placing = Placing(db: Database, refused: bool)

  predicate SameHeader(a: Database, b: Database)
  {
    a.root == b.root && a.deleted == b.deleted && a.meta == b.meta && a.icons == b.icons
  }

  /** Installs a merged record and, where the merged parent is not LOCAL's, moves the group there. */
  function PlaceGroup(c: Database, id: Id, target: Group, from: Option<Id>, parent: Option<Id>,
                      stamp: Time): (p: Placing)
    requires id in c.groups
    ensures p.db.groups.Keys == c.groups.Keys && p.db.entries == c.entries && SameHeader(p.db, c)
  {
    var placed := c.(groups := c.groups[id := target]);
    if parent == from then Placing(placed, false)
    else if parent.None? then Placing(placed, true)
    else
      match MoveGroup(placed, id, parent.value)
      case Refused(_) => Placing(placed, true)
      case Moved(db) =>
        var g := db.groups[id];
        Placing(db.(groups := db.groups[id := g.(times := g.times.(locationChanged := stamp))]), false)
  }

  lemma PlaceStep(b: Database, l: Database, r: Database, c: Database, done: set<Id>, id: Id, m: Group, stamp: Time)
    requires ValidTree(l) && ValidTree(r)
    requires GroupsPhase(b, l, r, c, done) && InAll(b, l, r, id) && id !in done
    requires m == MergedGroupRecord(b.groups[id], l.groups[id], r.groups[id], c.groups[id])
    requires stamp == r.groups[id].times.locationChanged
    requires GroupRecordAgrees(b.groups[id], l.groups[id], r.groups[id])
    requires var parent := OrLocal(b.groups[id].parent, l.groups[id].parent, r.groups[id].parent);
             !PlaceGroup(c, id, m, l.groups[id].parent, parent, stamp).refused
    ensures var parent := OrLocal(b.groups[id].parent, l.groups[id].parent, r.groups[id].parent);
            GroupsPhase(b, l, r, PlaceGroup(c, id, m, l.groups[id].parent, parent, stamp).db, done + {id})
  {
    var parent := OrLocal(b.groups[id].parent, l.groups[id].parent, r.groups[id].parent);
    assert LocalGroupRecord(b, l, r, done, id, c.groups[id]);
    if parent == l.groups[id].parent {
      StayStep(b, l, r, c, done, id, m);
    } else {
      var placed := PlacedByMove(c, id, m, l.groups[id].parent, parent, stamp);
      MoveStep(b, l, r, c, done, id, m, parent.value, placed);
    }
  }

  lemma PlacedByMove(c: Database, id: Id, m: Group, from: Option<Id>, parent: Option<Id>, stamp: Time)
    returns (placed: Group)
    requires id in c.groups && parent != from && !PlaceGroup(c, id, m, from, parent, stamp).refused
    ensures parent.Some? && parent.value in c.groups && parent.value != id && m.parent.Some?
    ensures var moved := Relink(c.groups[id := m], id, parent.value);
            && placed == moved[id].(times := moved[id].times.(locationChanged := stamp))
            && PlaceGroup(c, id, m, from, parent, stamp).db == c.(groups := moved[id := placed])
  {
    var start := c.groups[id := m];
    assert Climb(start, parent.value, 0) == Some(parent.value);
    var g := Relink(start, id, parent.value)[id];
    placed := g.(times := g.times.(locationChanged := stamp));
  }

  // ---------------------------------------------------------------- additions and deletions

  /** Everything listed below a remotely deleted group is remotely deleted too. */
  ghost predicate DeletedClosed(b: Database, l: Database, r: Database, groups: map<Id, Group>)
  {
    forall g, k :: g in groups && g in RemoteDeleted(b, l, r) && k in groups[g].groups ==> k in RemoteDeleted(b, l, r)
  }

  /** The candidate between the two group passes: `added` of REMOTE's new groups are in, `dropped`
      of its deleted ones are out, with exactly the entries LOCAL kept in them. */
  ghost predicate TreePhase(b: Database, l: Database, r: Database, c: Database, added: set<Id>, dropped: set<Id>)
  {
    && added <= RemoteAdded(b, l, r)
    && dropped <= RemoteDeleted(b, l, r)
    && c.groups.Keys == (l.groups.Keys + added) - dropped
    && (forall e :: e in c.entries <==> e in l.entries && l.entries[e].parent !in dropped)
    && (forall e :: e in c.entries ==> c.entries[e] == l.entries[e])
    && (forall x {:trigger LocalGroupRecord(b, l, r, l.groups.Keys, x, c.groups[x])} ::
          x in c.groups && x in l.groups ==> LocalGroupRecord(b, l, r, l.groups.Keys, x, c.groups[x]))
    && (forall x {:trigger SameButLists(c.groups[x], r.groups[x])} ::
          x in c.groups && x !in l.groups ==> SameButLists(c.groups[x], r.groups[x]))
    && GroupOrderKept(b, l, r, c.groups)
    && DeletedClosed(b, l, r, c.groups)
  }

  /** The heart of the live-set theorem. LOCAL left a remotely deleted group exactly as BASE had it,
      so a child that REMOTE kept was moved out by REMOTE and has been moved out of the candidate. */
  lemma OnlyDeletedBelowDeleted(b: Database, l: Database, r: Database, c: Database, g: Id, k: Id)
    requires ValidTree(b) && ValidTree(l) && ValidTree(r)
    requires GroupsPhase(b, l, r, c, l.groups.Keys)
    requires g in RemoteDeleted(b, l, r) && GroupJudged(b, l, r, g)
    requires g in c.groups && k in c.groups[g].groups
    ensures k in RemoteDeleted(b, l, r)
  {
    assert LocalGroupRecord(b, l, r, l.groups.Keys, k, c.groups[k]);
    if k in r.groups && r.groups[k].parent.Some? {
      ParentListed(r, k);
    }
    if l.groups[k].parent == Some(g) {
      ChildOfUntouched(b, l, g, k);
    }
    OnlyDeletedCore(b, l, r, c.groups[k], g, k);
  }

  lemma ChildOfUntouched(b: Database, l: Database, g: Id, k: Id)
    requires ValidTree(b) && ValidTree(l) && g in b.groups && g in l.groups && l.groups[g] == b.groups[g]
    requires k in l.groups && l.groups[k].parent == Some(g)
    ensures k in b.groups && b.groups[k].parent == Some(g)
  {
    ParentListed(l, k);
    ListedParent(b, g, k);
  }

  lemma OnlyDeletedCore(b: Database, l: Database, r: Database, m: Group, g: Id, k: Id)
    requires k in l.groups && m.parent == Some(g) && LocalGroupRecord(b, l, r, l.groups.Keys, k, m)
    requires g !in r.groups
    requires k in r.groups && r.groups[k].parent.Some? ==> r.groups[k].parent.value in r.groups
    requires l.groups[k].parent == Some(g) ==> k in b.groups && b.groups[k].parent == Some(g)
    ensures k in RemoteDeleted(b, l, r)
  {
  }

  lemma StartGroupsPhase(b: Database, l: Database, r: Database, c: Database)
    requires ValidTree(l) && c.groups == l.groups && c.entries == l.entries
    ensures GroupsPhase(b, l, r, c, {})
  {
    forall p, k | p in c.groups && k in c.groups[p].groups ensures k in c.groups && c.groups[k].parent == Some(p) {
      ListedParent(l, p, k);
    }
    forall x | x in c.groups ensures LocalGroupRecord(b, l, r, {}, x, c.groups[x]) {
    }
  }

  lemma WidenPhase(b: Database, l: Database, r: Database, c: Database, done: set<Id>)
    requires GroupsPhase(b, l, r, c, done) && l.groups.Keys <= done
    ensures GroupsPhase(b, l, r, c, l.groups.Keys)
  {
    forall x | x in c.groups ensures LocalGroupRecord(b, l, r, l.groups.Keys, x, c.groups[x]) {
      assert LocalGroupRecord(b, l, r, done, x, c.groups[x]);
    }
  }

  lemma StartTreePhase(b: Database, l: Database, r: Database, c: Database)
    requires ValidTree(b) && ValidTree(l) && ValidTree(r)
    requires GroupsPhase(b, l, r, c, l.groups.Keys)
    requires forall x :: x in l.groups ==> GroupJudged(b, l, r, x)
    ensures TreePhase(b, l, r, c, {}, {})
  {
    forall g, k | g in c.groups && g in RemoteDeleted(b, l, r) && k in c.groups[g].groups
      ensures k in RemoteDeleted(b, l, r)
    {
      OnlyDeletedBelowDeleted(b, l, r, c, g, k);
    }
  }

  lemma AddStep(b: Database, l: Database, r: Database, c: Database, added: set<Id>, id: Id, parent: Id, group: Group)
    requires ValidTree(l) && ValidTree(r) && TreePhase(b, l, r, c, added, {})
    requires id in RemoteAdded(b, l, r) && id !in added && r.groups[id].parent == Some(parent) && parent in c.groups
    requires SameButLists(group, r.groups[id])
    ensures id !in c.groups && TreePhase(b, l, r, AddGroup(c, parent, id, group), added + {id}, {})
  {
    ParentListed(r, id);
    forall g | InAll(b, l, r, g) ensures id !in CommonGroups(b, l, r, g) {
      NewIsNotCommon(b, l, r, id, g);
    }
    AddStepCore(b, l, r, c, added, id, parent, group);
  }

  lemma AddStepCore(b: Database, l: Database, r: Database, c: Database, added: set<Id>, id: Id, parent: Id,
                    group: Group)
    requires TreePhase(b, l, r, c, added, {})
    requires id in RemoteAdded(b, l, r) && id !in added && parent in c.groups && parent in r.groups
    requires SameButLists(group, r.groups[id])
    requires forall g :: InAll(b, l, r, g) ==> id !in CommonGroups(b, l, r, g)
    ensures id !in c.groups && TreePhase(b, l, r, AddGroup(c, parent, id, group), added + {id}, {})
  {
    var after := AddGroup(c, parent, id, group);
    forall x | x in after.groups && x !in l.groups ensures SameButLists(after.groups[x], r.groups[x]) {
      assert x != id ==> SameButLists(c.groups[x], r.groups[x]);
    }
    forall x | x in after.groups && x in l.groups ensures LocalGroupRecord(b, l, r, l.groups.Keys, x, after.groups[x]) {
      assert LocalGroupRecord(b, l, r, l.groups.Keys, x, c.groups[x]);
    }
    AddedOrder(b, l, r, c, id, parent, group);
  }

  lemma AddedOrder(b: Database, l: Database, r: Database, c: Database, id: Id, parent: Id, group: Group)
    requires GroupOrderKept(b, l, r, c.groups) && parent in c.groups && id !in c.groups && !InAll(b, l, r, id)
    requires forall g :: InAll(b, l, r, g) ==> id !in CommonGroups(b, l, r, g)
    ensures GroupOrderKept(b, l, r, AddGroup(c, parent, id, group).groups)
  {
    var after := AddGroup(c, parent, id, group);
    forall g | g in after.groups && InAll(b, l, r, g)
      ensures RelativeOrder(after.groups[g].groups, CommonGroups(b, l, r, g)) == RelativeOrder(l.groups[g].groups, CommonGroups(b, l, r, g))
    {
      if g == parent {
        AppendOrder(c.groups[g].groups, id, CommonGroups(b, l, r, g));
      }
    }
  }

  /** A group missing from one input is a common child of nothing. */
  lemma NewIsNotCommon(b: Database, l: Database, r: Database, id: Id, g: Id)
    requires ValidTree(l) && InAll(b, l, r, g) && id !in l.groups
    ensures id !in CommonGroups(b, l, r, g)
  {
    assert ChildrenPointBack(l, g);
  }

  lemma GoneIsNotCommon(b: Database, l: Database, r: Database, id: Id, g: Id)
    requires ValidTree(r) && InAll(b, l, r, g) && id !in r.groups
    ensures id !in CommonGroups(b, l, r, g)
  {
    assert ChildrenPointBack(r, g);
  }

  lemma DropStep(b: Database, l: Database, r: Database, c: Database, added: set<Id>, dropped: set<Id>, id: Id)
    returns (more: set<Id>)
    requires ValidTree(l) && ValidTree(r) && TreePhase(b, l, r, c, added, dropped)
    requires id in RemoteDeleted(b, l, r) && id in c.groups
    ensures id in more && dropped <= more && TreePhase(b, l, r, RemoveGroup(c, id), added, more)
  {
    var gone := Below(c.groups, id);
    BelowDeleted(b, l, r, c.groups, id);
    more := dropped + gone * c.groups.Keys;
    forall g | InAll(b, l, r, g) ensures id !in CommonGroups(b, l, r, g) {
      GoneIsNotCommon(b, l, r, id, g);
    }
    RemoveGroupFacts(c, id);
    var after := RemoveGroup(c, id);
    forall e ensures e in after.entries <==> e in c.entries && l.entries[e].parent !in gone * c.groups.Keys {
      if e in c.entries {
        DroppedEntries(b, l, r, c, added, dropped, gone, e);
      }
    }
    DropStepCore(b, l, r, c, added, dropped, id, gone, after);
  }

  lemma BelowDeleted(b: Database, l: Database, r: Database, groups: map<Id, Group>, id: Id)
    requires id in RemoteDeleted(b, l, r) && DeletedClosed(b, l, r, groups)
    ensures id in Below(groups, id) && Below(groups, id) <= RemoteDeleted(b, l, r)
  {
    DownContains(groups, {id}, |groups|);
    DownWithin(groups, {id}, |groups|, RemoteDeleted(b, l, r));
  }

  lemma DroppedEntries(b: Database, l: Database, r: Database, c: Database, added: set<Id>, dropped: set<Id>,
                       gone: set<Id>, e: Id)
    requires ValidTree(l) && TreePhase(b, l, r, c, added, dropped) && gone <= RemoteDeleted(b, l, r) && e in c.entries
    ensures e in EntriesIn(c, gone) <==> l.entries[e].parent in gone * c.groups.Keys
  {
    forall p | p in gone && p in c.groups ensures c.groups[p].entries == l.groups[p].entries {
      assert LocalGroupRecord(b, l, r, l.groups.Keys, p, c.groups[p]);
    }
    EntryParentListed(l, e);
    if e in EntriesIn(c, gone) {
      var p :| p in gone && p in c.groups && e in c.groups[p].entries;
      ListedEntryParent(l, p, e);
    }
  }

  lemma RemoveGroupFacts(c: Database, id: Id)
    requires id in c.groups
    ensures var after := RemoveGroup(c, id);
            && after.groups.Keys == c.groups.Keys - Below(c.groups, id)
            && (forall x :: x in after.groups ==> Trimmed(c.groups[x], after.groups[x], id))
            && after.entries == c.entries - EntriesIn(c, Below(c.groups, id))
  {
  }

  lemma DropStepCore(b: Database, l: Database, r: Database, c: Database, added: set<Id>, dropped: set<Id>, id: Id,
                     gone: set<Id>, after: Database)
    requires TreePhase(b, l, r, c, added, dropped)
    requires gone <= RemoteDeleted(b, l, r)
    requires forall g :: InAll(b, l, r, g) ==> id !in CommonGroups(b, l, r, g)
    requires after.groups.Keys == c.groups.Keys - gone
    requires forall x :: x in after.groups ==> Trimmed(c.groups[x], after.groups[x], id)
    requires forall e :: e in after.entries <==> e in c.entries && l.entries[e].parent !in gone * c.groups.Keys
    requires forall e :: e in after.entries ==> after.entries[e] == c.entries[e]
    ensures TreePhase(b, l, r, after, added, dropped + gone * c.groups.Keys)
  {
    forall x | x in after.groups && x in l.groups ensures LocalGroupRecord(b, l, r, l.groups.Keys, x, after.groups[x]) {
      assert LocalGroupRecord(b, l, r, l.groups.Keys, x, c.groups[x]);
      assert Trimmed(c.groups[x], after.groups[x], id);
    }
    forall x | x in after.groups && x !in l.groups ensures SameButLists(after.groups[x], r.groups[x]) {
      assert SameButLists(c.groups[x], r.groups[x]);
      assert Trimmed(c.groups[x], after.groups[x], id);
    }
    TrimmedOrder(b, l, r, c.groups, after.groups, id);
  }

  /** The same group, possibly with `id` struck from its child groups. */
  ghost predicate Trimmed(before: Group, after: Group, id: Id)
  {
    before == after || after == before.(groups := Without(before.groups, id))
  }

  lemma TrimmedOrder(b: Database, l: Database, r: Database, before: map<Id, Group>, after: map<Id, Group>, id: Id)
    requires after.Keys <= before.Keys && forall x :: x in after ==> Trimmed(before[x], after[x], id)
    requires forall g :: InAll(b, l, r, g) ==> id !in CommonGroups(b, l, r, g)
    requires GroupOrderKept(b, l, r, before) && DeletedClosed(b, l, r, before)
    ensures GroupOrderKept(b, l, r, after) && DeletedClosed(b, l, r, after)
  {
    forall g | g in after && InAll(b, l, r, g)
      ensures RelativeOrder(after[g].groups, CommonGroups(b, l, r, g)) == RelativeOrder(l.groups[g].groups, CommonGroups(b, l, r, g))
    {
      WithoutOrder(before[g].groups, id, CommonGroups(b, l, r, g));
    }
  }

  // ---------------------------------------------------------------- entries

  predicate SameButEntries(x: Group, y: Group)
  {
    x.(entries := []) == y.(entries := [])
  }

  ghost predicate EntryRecord(b: Database, l: Database, r: Database, done: set<Id>, e: Id, m: Entry)
  {
    if EntryInAll(b, l, r, e) && e in done then MergedEntry(None, b.entries[e], l.entries[e], r.entries[e], m)
    else if e in l.entries then m == l.entries[e]
    else e in r.entries && m == r.entries[e]
  }

  predicate StillLive(b: Database, l: Database, r: Database, start: Database, done: set<Id>, e: Id)
  {
    || (e in start.entries && !(e in done && e in b.entries && e !in r.entries))
    || (e in done && e in r.entries && e !in b.entries && e !in l.entries)
  }

  /** The candidate while entries are merged, relative to the candidate `start` of the group passes. */
  ghost predicate EntryPhase(b: Database, l: Database, r: Database, start: Database, c: Database, done: set<Id>)
  {
    && c.groups.Keys == start.groups.Keys
    && (forall x {:trigger SameButEntries(start.groups[x], c.groups[x])} :: x in c.groups ==>
          SameButEntries(start.groups[x], c.groups[x]))
    && (forall e {:trigger StillLive(b, l, r, start, done, e)} :: e in c.entries <==>
          StillLive(b, l, r, start, done, e))
    && (forall e {:trigger EntryRecord(b, l, r, done, e, c.entries[e])} :: e in c.entries ==>
          EntryRecord(b, l, r, done, e, c.entries[e]))
    && (forall e :: e in done && EntryInAll(b, l, r, e) ==> e in start.entries)
    && EntryOrderKept(b, l, r, c.groups)
  }

  lemma StartEntryPhase(b: Database, l: Database, r: Database, c: Database, added: set<Id>, dropped: set<Id>)
    requires TreePhase(b, l, r, c, added, dropped)
    ensures EntryPhase(b, l, r, c, c, {})
  {
    forall e | e in c.entries ensures EntryRecord(b, l, r, {}, e, c.entries[e]) {
    }
    forall g | g in c.groups && InAll(b, l, r, g)
      ensures RelativeOrder(c.groups[g].entries, CommonEntries(b, l, r, g)) == RelativeOrder(l.groups[g].entries, CommonEntries(b, l, r, g))
    {
      assert LocalGroupRecord(b, l, r, l.groups.Keys, g, c.groups[g]);
    }
  }

  lemma EntryMovedIsNotCommon(b: Database, l: Database, r: Database, e: Id, g: Id)
    requires ValidTree(l) && ValidTree(r) && InAll(b, l, r, g) && e in l.entries && e in r.entries
    requires l.entries[e].parent != r.entries[e].parent
    ensures e !in CommonEntries(b, l, r, g)
  {
    assert ChildrenPointBack(l, g) && ChildrenPointBack(r, g);
  }

  lemma EntryAbsentIsNotCommon(b: Database, l: Database, r: Database, e: Id, g: Id)
    requires ValidTree(l) && ValidTree(r) && InAll(b, l, r, g) && (e !in l.entries || e !in r.entries)
    ensures e !in CommonEntries(b, l, r, g)
  {
    assert ChildrenPointBack(l, g) && ChildrenPointBack(r, g);
  }

  /** The same group, possibly with `e` struck from its entries and possibly with `e` at their end. */
  ghost predicate EntryShifted(before: Group, after: Group, e: Id)
  {
    && SameButEntries(before, after)
    && (after.entries == before.entries || after.entries == Without(before.entries, e)
        || after.entries == before.entries + [e] || after.entries == Without(before.entries, e) + [e])
  }

  lemma ShiftedOrder(b: Database, l: Database, r: Database, before: map<Id, Group>, after: map<Id, Group>, e: Id)
    requires after.Keys == before.Keys && forall x :: x in after ==> EntryShifted(before[x], after[x], e)
    requires forall g :: InAll(b, l, r, g) ==> e !in CommonEntries(b, l, r, g)
    requires EntryOrderKept(b, l, r, before)
    ensures EntryOrderKept(b, l, r, after)
  {
    forall g | g in after && InAll(b, l, r, g)
      ensures RelativeOrder(after[g].entries, CommonEntries(b, l, r, g)) == RelativeOrder(l.groups[g].entries, CommonEntries(b, l, r, g))
    {
      var u := CommonEntries(b, l, r, g);
      WithoutOrder(before[g].entries, e, u);
      AppendOrder(before[g].entries, e, u);
      AppendOrder(Without(before[g].entries, e), e, u);
    }
  }

  /** One judged entry: groups shift at most that entry, all other entries stay. */
  lemma EntryStep(b: Database, l: Database, r: Database, start: Database, c: Database, after: Database, done: set<Id>,
                  id: Id)
    requires EntryPhase(b, l, r, start, c, done) && id !in done
    requires after.groups.Keys == c.groups.Keys && forall x :: x in after.groups ==>
               EntryShifted(c.groups[x], after.groups[x], id)
    requires after.groups == c.groups || forall g :: InAll(b, l, r, g) ==> id !in CommonEntries(b, l, r, g)
    requires forall e :: e != id ==>
               (e in after.entries <==> e in c.entries) && (e in c.entries ==> after.entries[e] == c.entries[e])
    requires id in after.entries <==> StillLive(b, l, r, start, done + {id}, id)
    requires id in after.entries ==> EntryRecord(b, l, r, done + {id}, id, after.entries[id])
    requires EntryInAll(b, l, r, id) ==> id in start.entries
    ensures EntryPhase(b, l, r, start, after, done + {id})
  {
    forall x | x in after.groups ensures SameButEntries(start.groups[x], after.groups[x]) {
      assert SameButEntries(start.groups[x], c.groups[x]);
    }
    forall e ensures e in after.entries <==> StillLive(b, l, r, start, done + {id}, e) {
      if e != id {
        assert StillLive(b, l, r, start, done, e) <==> StillLive(b, l, r, start, done + {id}, e);
      }
    }
    forall e | e in after.entries ensures EntryRecord(b, l, r, done + {id}, e, after.entries[e]) {
      if e != id {
        assert EntryRecord(b, l, r, done, e, c.entries[e]);
      }
    }
    if after.groups != c.groups {
      ShiftedOrder(b, l, r, c.groups, after.groups, id);
    }
  }

  /** Nothing about an entry live in all three inputs clashes. */
  ghost predicate EntryRecordAgrees(b: Entry, l: Entry, r: Entry, m: Entry)
  {
    && ChooseThreeWay(b.parent, l.parent, r.parent).Some?
    && PicksMap(b.state.fields, l.state.fields, r.state.fields, m.state.fields)
    && PicksMap(b.state.attachments, l.state.attachments, r.state.attachments, m.state.attachments)
    && PicksEntryProps(b.state.props, l.state.props, r.state.props, m.state.props)
    && Picks(b.state.icon, l.state.icon, r.state.icon, m.state.icon)
    && MergedHistory(b.history, l.history, r.history) == Some(m.history)
    && PicksTimes(b.state.times, l.state.times, r.state.times, m.state.times, false)
    && m.state.previousParent == l.state.previousParent
    && !PreviousClash(b.state.previousParent, l.state.previousParent, r.state.previousParent,
                      OrLocal(b.parent, l.parent, r.parent) == l.parent)
  }

  /** Installs a merged entry and, where the merged parent is not LOCAL's, moves it there. */
  function PlaceEntry(c: Database, id: Id, target: Entry, from: Id, parent: Id, stamp: Time): (p: Placing)
    requires id in c.entries
    ensures p.db.groups.Keys == c.groups.Keys && p.db.entries.Keys == c.entries.Keys && SameHeader(p.db, c)
  {
    var placed := c.(entries := c.entries[id := target]);
    if parent == from then Placing(placed, false)
    else
      match MoveEntry(placed, id, parent)
      case Refused(_) => Placing(placed, true)
      case Moved(db) =>
        var e := db.entries[id];
        Placing(db.(entries := db.entries[id := e.(state := e.state.(times := e.state.times.(locationChanged := stamp)))]), false)
  }

  lemma PlaceEntryFacts(c: Database, id: Id, target: Entry, from: Id, parent: Id, stamp: Time)
    requires id in c.entries && !PlaceEntry(c, id, target, from, parent, stamp).refused
    ensures var after := PlaceEntry(c, id, target, from, parent, stamp).db;
            && (forall x :: x in after.groups ==> EntryShifted(c.groups[x], after.groups[x], id))
            && (parent == from ==> after.groups == c.groups)
            && (forall e :: e != id && e in c.entries ==> after.entries[e] == c.entries[e])
            && after.entries[id].parent == (if parent == from then target.parent else parent)
            && after.entries[id].history == target.history
            && after.entries[id].state == if parent == from then target.state else target.state.(
                 previousParent := Some(target.parent), times := target.state.times.(locationChanged := stamp))
  {
  }

  lemma PlacedRecord(b: Database, l: Database, r: Database, c: Database, done: set<Id>, id: Id, m: Entry, stamp: Time)
    requires EntryInAll(b, l, r, id) && id in c.entries && stamp == r.entries[id].state.times.locationChanged
    requires EntryRecordAgrees(b.entries[id], l.entries[id], r.entries[id], m) && m.parent == l.entries[id].parent
    requires var parent := OrLocal(b.entries[id].parent, l.entries[id].parent, r.entries[id].parent);
             !PlaceEntry(c, id, m, l.entries[id].parent, parent, stamp).refused
    ensures var parent := OrLocal(b.entries[id].parent, l.entries[id].parent, r.entries[id].parent);
            EntryRecord(b, l, r, done + {id}, id, PlaceEntry(c, id, m, l.entries[id].parent, parent, stamp).db.entries[id])
  {
    PlaceEntryFacts(c, id, m, l.entries[id].parent, OrLocal(b.entries[id].parent, l.entries[id].parent, r.entries[id].parent), stamp);
  }

  lemma EntryPlaced(b: Database, l: Database, r: Database, start: Database, c: Database, done: set<Id>, id: Id,
                    m: Entry, stamp: Time)
    requires ValidTree(l) && ValidTree(r)
    requires EntryPhase(b, l, r, start, c, done) && EntryInAll(b, l, r, id) && id !in done && id in c.entries
    requires stamp == r.entries[id].state.times.locationChanged
    requires EntryRecordAgrees(b.entries[id], l.entries[id], r.entries[id], m) && m.parent == l.entries[id].parent
    requires var parent := OrLocal(b.entries[id].parent, l.entries[id].parent, r.entries[id].parent);
             !PlaceEntry(c, id, m, l.entries[id].parent, parent, stamp).refused
    ensures var parent := OrLocal(b.entries[id].parent, l.entries[id].parent, r.entries[id].parent);
            EntryPhase(b, l, r, start, PlaceEntry(c, id, m, l.entries[id].parent, parent, stamp).db, done + {id})
  {
    var parent := OrLocal(b.entries[id].parent, l.entries[id].parent, r.entries[id].parent);
    var after := PlaceEntry(c, id, m, l.entries[id].parent, parent, stamp).db;
    PlaceEntryFacts(c, id, m, l.entries[id].parent, parent, stamp);
    PlacedRecord(b, l, r, c, done, id, m, stamp);
    if parent != l.entries[id].parent {
      forall g | InAll(b, l, r, g) ensures id !in CommonEntries(b, l, r, g) {
        EntryMovedIsNotCommon(b, l, r, id, g);
      }
    }
    assert StillLive(b, l, r, start, done, id);
    EntryStep(b, l, r, start, c, after, done, id);
  }

  lemma EntryRemoved(b: Database, l: Database, r: Database, start: Database, c: Database, done: set<Id>, id: Id)
    requires ValidTree(l) && ValidTree(r)
    requires EntryPhase(b, l, r, start, c, done) && id !in done && id in c.entries
    requires id in b.entries && id in l.entries && id !in r.entries
    ensures EntryPhase(b, l, r, start, RemoveEntry(c, id), done + {id})
  {
    forall g | InAll(b, l, r, g) ensures id !in CommonEntries(b, l, r, g) {
      EntryAbsentIsNotCommon(b, l, r, id, g);
    }
    EntryStep(b, l, r, start, c, RemoveEntry(c, id), done, id);
  }

  lemma EntryAdded(b: Database, l: Database, r: Database, start: Database, c: Database, done: set<Id>, id: Id)
    requires ValidTree(l) && ValidTree(r)
    requires EntryPhase(b, l, r, start, c, done) && id !in done && id !in c.entries
    requires id !in b.entries && id !in l.entries && id in r.entries && r.entries[id].parent in c.groups
    ensures EntryPhase(b, l, r, start, AddEntry(c, r.entries[id].parent, id, r.entries[id]), done + {id})
  {
    forall g | InAll(b, l, r, g) ensures id !in CommonEntries(b, l, r, g) {
      EntryAbsentIsNotCommon(b, l, r, id, g);
    }
    EntryStep(b, l, r, start, c, AddEntry(c, r.entries[id].parent, id, r.entries[id]), done, id);
  }

  /** An identity that needs no edit of the candidate. */
  lemma EntryUntouched(b: Database, l: Database, r: Database, start: Database, c: Database, done: set<Id>, id: Id)
    requires EntryPhase(b, l, r, start, c, done) && id !in done && !EntryInAll(b, l, r, id)
    requires id in b.entries && id in l.entries && id !in r.entries ==> id !in c.entries
    requires id in r.entries ==> id in b.entries || id in l.entries
    requires start.entries.Keys <= l.entries.Keys
    ensures EntryPhase(b, l, r, start, c, done + {id})
  {
    assert id in c.entries <==> StillLive(b, l, r, start, done, id);
    if id in c.entries {
      assert EntryRecord(b, l, r, done, id, c.entries[id]);
    }
    EntryStep(b, l, r, start, c, c, done, id);
  }

  // ---------------------------------------------------------------- conclusion

  /** An entry that LOCAL keeps in a remotely deleted group was already there in BASE. */
  lemma EntryOfDeletedIsOld(b: Database, l: Database, r: Database, e: Id)
    requires ValidTree(b) && ValidTree(l) && e in l.entries && l.entries[e].parent in RemoteDeleted(b, l, r)
    requires GroupJudged(b, l, r, l.entries[e].parent)
    ensures e in b.entries
  {
    EntryParentListed(l, e);
    ListedEntryParent(b, l.entries[e].parent, e);
  }

  lemma MergedEntrySet(b: Database, l: Database, r: Database, start: Database, c: Database, done: set<Id>)
    requires ValidTree(b) && ValidTree(l)
    requires TreePhase(b, l, r, start, RemoteAdded(b, l, r), RemoteDeleted(b, l, r))
    requires forall x :: x in l.groups ==> GroupJudged(b, l, r, x)
    requires done == b.entries.Keys + l.entries.Keys + r.entries.Keys && EntryPhase(b, l, r, start, c, done)
    ensures c.entries.Keys == LiveSet(b.entries.Keys, l.entries.Keys, r.entries.Keys)
  {
    forall e ensures e in c.entries <==> e in LiveSet(b.entries.Keys, l.entries.Keys, r.entries.Keys) {
      assert e in c.entries <==> StillLive(b, l, r, start, done, e);
      if e in l.entries && l.entries[e].parent in RemoteDeleted(b, l, r) {
        EntryOfDeletedIsOld(b, l, r, e);
      }
    }
  }

  lemma MergedGroupOf(b: Database, l: Database, r: Database, start: Database, c: Database, added: set<Id>,
                      dropped: set<Id>, done: set<Id>, g: Id)
    requires TreePhase(b, l, r, start, added, dropped) && EntryPhase(b, l, r, start, c, done)
    requires g in c.groups && InAll(b, l, r, g)
    ensures MergedGroup(b.groups[g], l.groups[g], r.groups[g], c.groups[g])
    ensures PicksOrderAt(b, l, r, g, c.groups[g])
  {
    assert LocalGroupRecord(b, l, r, l.groups.Keys, g, start.groups[g]);
    assert SameButEntries(start.groups[g], c.groups[g]);
    ChildOrderSound(b.groups[g].groups, l.groups[g].groups, r.groups[g].groups);
    ChildOrderSound(b.groups[g].entries, l.groups[g].entries, r.groups[g].entries);
  }

  lemma AddedGroupKept(b: Database, l: Database, r: Database, start: Database, c: Database, added: set<Id>,
                       dropped: set<Id>, done: set<Id>, g: Id)
    requires TreePhase(b, l, r, start, added, dropped) && EntryPhase(b, l, r, start, c, done)
    requires g in c.groups && g !in b.groups && (g in l.groups ==> GroupJudged(b, l, r, g))
    ensures g in l.groups ==> SameButLists(c.groups[g], l.groups[g])
    ensures g in r.groups ==> SameButLists(c.groups[g], r.groups[g])
  {
    assert SameButEntries(start.groups[g], c.groups[g]);
    if g in l.groups {
      assert LocalGroupRecord(b, l, r, l.groups.Keys, g, start.groups[g]);
    } else {
      assert SameButLists(start.groups[g], r.groups[g]);
    }
  }

  lemma FinishMerge(b: Database, l: Database, r: Database, start: Database, c: Database, done: set<Id>, m: Database)
    requires ValidTree(b) && ValidTree(l)
    requires TreePhase(b, l, r, start, RemoteAdded(b, l, r), RemoteDeleted(b, l, r))
    requires forall x :: GroupJudged(b, l, r, x)
    requires done == b.entries.Keys + l.entries.Keys + r.entries.Keys && EntryPhase(b, l, r, start, c, done)
    requires forall e :: e in done ==> EntryJudged(b, l, r, e)
    requires m.groups == c.groups && m.entries == c.entries
    requires m.deleted.Keys == b.deleted.Keys + l.deleted.Keys + r.deleted.Keys
    ensures IsMergeOf(None, b, l, r, m)
  {
    MergedEntrySet(b, l, r, start, c, done);
    LiveGroupSet(b, l, r, start);
    FinishGroups(b, l, r, start, c, done, m);
    FinishAdded(b, l, r, start, c, done, m);
    FinishDeleted(b, l, r, m);
    forall e | e in m.entries && EntryInAll(b, l, r, e)
      ensures MergedEntry(None, b.entries[e], l.entries[e], r.entries[e], m.entries[e])
    {
      assert EntryRecord(b, l, r, done, e, c.entries[e]);
    }
  }

  /** Without conflicts the group passes leave exactly the live groups. */
  lemma LiveGroupSet(b: Database, l: Database, r: Database, c: Database)
    requires TreePhase(b, l, r, c, RemoteAdded(b, l, r), RemoteDeleted(b, l, r))
    ensures c.groups.Keys == LiveSet(b.groups.Keys, l.groups.Keys, r.groups.Keys)
  {
  }

  lemma FinishGroups(b: Database, l: Database, r: Database, start: Database, c: Database, done: set<Id>, m: Database)
    requires TreePhase(b, l, r, start, RemoteAdded(b, l, r), RemoteDeleted(b, l, r))
    requires EntryPhase(b, l, r, start, c, done) && m.groups == c.groups
    ensures forall g :: g in m.groups && InAll(b, l, r, g) ==>
              MergedGroup(b.groups[g], l.groups[g], r.groups[g], m.groups[g])
    ensures PicksOrder(b, l, r, m)
  {
    forall g | g in m.groups && InAll(b, l, r, g)
      ensures MergedGroup(b.groups[g], l.groups[g], r.groups[g], m.groups[g]) && PicksOrderAt(b, l, r, g, m.groups[g])
    {
      MergedGroupOf(b, l, r, start, c, RemoteAdded(b, l, r), RemoteDeleted(b, l, r), done, g);
    }
  }

  lemma FinishDeleted(b: Database, l: Database, r: Database, m: Database)
    requires forall x :: GroupJudged(b, l, r, x)
    requires forall e :: e in b.entries ==> EntryJudged(b, l, r, e)
    requires m.groups.Keys == LiveSet(b.groups.Keys, l.groups.Keys, r.groups.Keys)
    requires m.entries.Keys == LiveSet(b.entries.Keys, l.entries.Keys, r.entries.Keys)
    ensures NoEditDeleted(b, l, r, m)
  {
    forall x | x in b.groups && x !in m.groups
      ensures (x in l.groups ==> x !in r.groups && x in r.deleted && l.groups[x] == b.groups[x])
      ensures (x in r.groups ==> x !in l.groups && x in l.deleted && r.groups[x] == b.groups[x])
    {
      assert GroupJudged(b, l, r, x);
    }
  }

  lemma FinishAdded(b: Database, l: Database, r: Database, start: Database, c: Database, done: set<Id>, m: Database)
    requires TreePhase(b, l, r, start, RemoteAdded(b, l, r), RemoteDeleted(b, l, r))
    requires forall x :: x in l.groups ==> GroupJudged(b, l, r, x)
    requires EntryPhase(b, l, r, start, c, done) && m.groups == c.groups && m.entries == c.entries
    requires forall e :: e in l.entries ==> EntryJudged(b, l, r, e)
    ensures AddedKept(None, b, l, r, m)
  {
    forall g | g in m.groups && g !in b.groups
      ensures (g in l.groups ==> SameButLists(m.groups[g], l.groups[g]))
      ensures (g in r.groups ==> SameButLists(m.groups[g], r.groups[g]))
    {
      AddedGroupKept(b, l, r, start, c, RemoteAdded(b, l, r), RemoteDeleted(b, l, r), done, g);
    }
    forall e | e in m.entries && e !in b.entries
      ensures (e in l.entries ==> m.entries[e] == PrunedEntry(None, l.entries[e]))
      ensures (e in r.entries ==> m.entries[e] == PrunedEntry(None, r.entries[e]))
    {
      assert EntryRecord(b, l, r, done, e, c.entries[e]);
    }
  }

  /** Cutting the histories of a merge gives the merge with cut histories. */
  lemma PruneMerge(limit: Option<nat>, b: Database, l: Database, r: Database, m: Database)
    requires IsMergeOf(None, b, l, r, m)
    ensures IsMergeOf(limit, b, l, r, Pruned(limit, m))
  {
    var p := Pruned(limit, m);
    assert p.entries.Keys == m.entries.Keys && p.groups == m.groups && p.deleted == m.deleted;
    forall e | e in p.entries && EntryInAll(b, l, r, e)
      ensures MergedEntry(limit, b.entries[e], l.entries[e], r.entries[e], p.entries[e])
    {
      assert MergedEntry(None, b.entries[e], l.entries[e], r.entries[e], m.entries[e]);
    }
    assert PicksOrder(b, l, r, p);
    PruneAdded(limit, b, l, r, m);
  }

  lemma PruneAdded(limit: Option<nat>, b: Database, l: Database, r: Database, m: Database)
    requires AddedKept(None, b, l, r, m)
    ensures AddedKept(limit, b, l, r, Pruned(limit, m))
  {
    var p := Pruned(limit, m);
    forall e | e in p.entries && e !in b.entries
      ensures (e in l.entries ==> p.entries[e] == PrunedEntry(limit, l.entries[e]))
      ensures (e in r.entries ==> p.entries[e] == PrunedEntry(limit, r.entries[e]))
    {
    }
  }
}

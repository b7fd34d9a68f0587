/** Where the merge candidate stands between two steps of a run: what holds of it in any case, and
    what holds of it as long as no conflict was met. */
module Stages {
  import opened Vault
  import opened ThreeWay
  import opened TreeOps
  import opened TreeLemmas
  import opened MergeSpec
  import opened MergeLemmas
  import opened Divergence
  import opened Forest
  import opened ConflictLemmas
  import opened MergeFit
  import opened Settling
  import opened Removal

  datatype Work = Work(candidate: Database, told: seq<Conflict>) {
    predicate Clean() { told == [] }
  }

  ghost predicate Trees(b: Database, l: Database, r: Database)
  {
    ValidTree(b) && ValidTree(l) && ValidTree(r)
  }

  /** As long as no conflict was met, the candidate is on its way to what decides the last validation. */
  ghost predicate Tracks(b: Database, l: Database, r: Database, lib: Library, w: Work, added: set<Id>, done: set<Id>)
  {
    w.Clean() && l.root in r.groups ==> OnTrack(b, l, r, lib, w.candidate, added, done)
  }

  // ---------------------------------------------------------------- merging the icon tables

  /** All icons but `rest` stand as in the merged table, and `rest` as in LOCAL's. */
  predicate IconsSoFar(b: Database, l: Database, r: Database, icons: map<Id, string>, rest: set<Id>)
  {
    && icons.Keys <= l.icons.Keys
    && (forall x :: x in l.icons && x in rest ==> x in icons && icons[x] == l.icons[x])
    && (forall x :: x in l.icons && x !in rest ==> (x in icons <==> x in MergedIcons(b, l, r)))
    && (forall x :: x in icons && x !in rest ==> icons[x] == MergedIcons(b, l, r)[x])
  }

  lemma IconStep(b: Database, l: Database, r: Database, icons: map<Id, string>, rest: set<Id>, id: Id)
    requires IconsSoFar(b, l, r, icons, rest) && id in rest
    ensures IconInAll(b, l, r, id) ==>
              IconsSoFar(b, l, r, icons[id := OrLocal(b.icons[id], l.icons[id], r.icons[id])], rest - {id})
    ensures IconDropped(b, l, r, id) ==> IconsSoFar(b, l, r, icons - {id}, rest - {id})
    ensures !IconInAll(b, l, r, id) && !IconDropped(b, l, r, id) ==> IconsSoFar(b, l, r, icons, rest - {id})
  {
  }

  lemma IconsMerged(b: Database, l: Database, r: Database, icons: map<Id, string>)
    requires IconsSoFar(b, l, r, icons, {})
    ensures icons == MergedIcons(b, l, r)
  {
  }

  // ---------------------------------------------------------------- merging the known groups

  /** `done` of the groups are judged: in any run the candidate is a valid tree with the settled parents. */
  ghost predicate GroupStage(b: Database, l: Database, r: Database, w: Work, done: set<Id>)
  {
    && Trees(b, l, r) && ValidTree(w.candidate) && w.candidate.root == l.root
    && w.candidate.groups.Keys == l.groups.Keys && w.candidate.icons == MergedIcons(b, l, r)
    && (forall p :: p in l.groups ==> w.candidate.groups[p].entries == l.groups[p].entries)
    && SettledSoFar(b, l, r, w.candidate.groups, done)
    && (w.Clean() ==> GroupsPhase(b, l, r, w.candidate, done))
  }

  lemma StartGroups(b: Database, l: Database, r: Database, w: Work)
    requires Trees(b, l, r) && w.candidate.groups == l.groups && w.candidate.entries == l.entries
    requires w.candidate.root == l.root && w.candidate.icons == MergedIcons(b, l, r)
    ensures GroupStage(b, l, r, w, {})
  {
    SameShapeTree(l, w.candidate);
    StartSettling(b, l, r);
    StartGroupsPhase(b, l, r, w.candidate);
  }

  function Placed(b: Database, l: Database, r: Database, c: Database, id: Id, target: Group): (p: Placing)
    requires InAll(b, l, r, id) && id in c.groups
  {
    PlaceGroup(c, id, target, l.groups[id].parent, MergedParent(b, l, r, id), r.groups[id].times.locationChanged)
  }

  /** In every run a move is refused exactly if the inputs say so. */
  lemma RefusedExactly(b: Database, l: Database, r: Database, w: Work, done: set<Id>, id: Id, target: Group)
    requires GroupStage(b, l, r, w, done) && InAll(b, l, r, id) && id !in done && Before(l, done, id)
    requires SamePlace(w.candidate.groups[id], target)
    ensures Placed(b, l, r, w.candidate, id, target).refused <==> MoveRefused(b, l, r, id)
  {
    assert SameLinks(Settled(b, l, r, id), w.candidate.groups);
    PlaceSettles(b, l, r, w.candidate, id, target, r.groups[id].times.locationChanged);
  }

  lemma PlacedKeepsEntries(c: Database, id: Id, target: Group, from: Option<Id>, parent: Option<Id>, stamp: Time)
    requires id in c.groups && SamePlace(c.groups[id], target)
    ensures forall p :: p in c.groups ==>
              PlaceGroup(c, id, target, from, parent, stamp).db.groups[p].entries == c.groups[p].entries
  {
  }

  lemma GroupMerged(b: Database, l: Database, r: Database, w: Work, done: set<Id>, id: Id, target: Group,
                    told: seq<Conflict>)
    requires GroupStage(b, l, r, w, done) && InAll(b, l, r, id) && id !in done && Before(l, done, id)
    requires SamePlace(w.candidate.groups[id], target)
    requires told == [] ==>
               && w.Clean()
               && target == MergedGroupRecord(b.groups[id], l.groups[id], r.groups[id], w.candidate.groups[id])
               && GroupRecordAgrees(b.groups[id], l.groups[id], r.groups[id]) && !MoveRefused(b, l, r, id)
    ensures GroupStage(b, l, r, Work(Placed(b, l, r, w.candidate, id, target).db, told), done + {id})
  {
    var c, stamp := w.candidate, r.groups[id].times.locationChanged;
    assert SameLinks(Settled(b, l, r, id), c.groups);
    PlaceKeepsTree(c, id, target, l.groups[id].parent, MergedParent(b, l, r, id), stamp);
    PlacedKeepsEntries(c, id, target, l.groups[id].parent, MergedParent(b, l, r, id), stamp);
    PlaceSettles(b, l, r, c, id, target, stamp);
    SettleMore(b, l, r, Placed(b, l, r, c, id, target).db.groups, done, id);
    if told == [] {
      PlaceStep(b, l, r, c, done, id, target, stamp);
    }
  }

  lemma GroupSkipped(b: Database, l: Database, r: Database, w: Work, done: set<Id>, id: Id, told: seq<Conflict>)
    requires GroupStage(b, l, r, w, done) && !InAll(b, l, r, id) && Before(l, done, id) && (told == [] ==> w.Clean())
    ensures GroupStage(b, l, r, Work(w.candidate, told), done + {id})
  {
    SettleNothing(b, l, r, w.candidate.groups, done, id);
    if told == [] {
      JudgeMore(b, l, r, w.candidate, done, id);
    }
  }

  datatype Todo = Nothing | Add | Delete

  predicate TodoRight(b: Database, l: Database, r: Database, id: Id, todo: Todo)
  {
    && (todo.Add? <==> id in Addable(b, l, r))
    && (todo.Delete? <==> id in Queued(b, l, r))
  }

  /** What the first pass hands on: the additions to try and the deletions to make; and everything that
      is wrong with the other groups is reported. */
  ghost predicate Sorted(b: Database, l: Database, r: Database, lib: Library, told: seq<Conflict>,
                         additions: seq<Id>, deletions: seq<Id>, done: set<Id>)
  {
    && NoDup(additions) && Elements(additions) == Addable(b, l, r) * done
    && Elements(deletions) == Queued(b, l, r) * done
    && forall x :: x in done && x !in Addable(b, l, r) ==> GroupReported(b, l, r, lib, told, x)
  }

  lemma SortedStep(b: Database, l: Database, r: Database, lib: Library, told: seq<Conflict>, more: seq<Conflict>,
                   additions: seq<Id>, deletions: seq<Id>, done: set<Id>, id: Id, todo: Todo)
    requires Sorted(b, l, r, lib, told, additions, deletions, done) && id !in done && told <= more
    requires TodoRight(b, l, r, id, todo) && (id !in Addable(b, l, r) ==> GroupReported(b, l, r, lib, more, id))
    ensures Sorted(b, l, r, lib, more, if todo.Add? then additions + [id] else additions,
                   if todo.Delete? then deletions + [id] else deletions, done + {id})
  {
    ElementsAppend(additions, id);
    ElementsAppend(deletions, id);
    assert id !in Elements(additions);
    StillReported(b, l, r, lib, told, more);
  }

  // ---------------------------------------------------------------- adding REMOTE's groups

  /** `added` are in, `pending` wait. */
  ghost predicate AddStage(b: Database, l: Database, r: Database, lib: Library, w: Work, pending: set<Id>,
                           added: set<Id>)
  {
    && Trees(b, l, r) && Tracks(b, l, r, lib, w, added, {}) && Tracked(b, l, r, pending, added)
    && w.candidate.root == l.root && Acyclic(w.candidate) && ParentsLive(w.candidate.groups)
    && Layout(l, r, lib, SettledTree(b, l, r), added, w.candidate)
    && (w.Clean() ==> TreePhase(b, l, r, w.candidate, added, {}) && pending + added == Addable(b, l, r))
  }

  /** Everything that is wrong with a group that is not to be added is reported. */
  ghost predicate KnownReported(b: Database, l: Database, r: Database, lib: Library, told: seq<Conflict>)
  {
    forall x :: x !in Addable(b, l, r) ==> GroupReported(b, l, r, lib, told, x)
  }

  lemma SilentKnownAgree(b: Database, l: Database, r: Database, lib: Library)
    requires KnownReported(b, l, r, lib, [])
    ensures KnownAgree(b, l, r, lib)
  {
    forall x | x !in Addable(b, l, r) ensures GroupAgrees(b, l, r, lib, x) {
      SilentAgrees(b, l, r, lib, x);
    }
  }

  lemma StartAdding(b: Database, l: Database, r: Database, lib: Library, w: Work, additions: seq<Id>,
                    deletions: seq<Id>)
    requires GroupStage(b, l, r, w, KnownGroups(b, l, r))
    requires Sorted(b, l, r, lib, w.told, additions, deletions, KnownGroups(b, l, r))
    ensures AddStage(b, l, r, lib, w, Elements(additions), {}) && Elements(additions) == Addable(b, l, r)
    ensures Elements(deletions) == Queued(b, l, r) && KnownReported(b, l, r, lib, w.told)
  {
    AllSorted(b, l, r, lib, w.told, additions, deletions);
    TreeIsForest(w.candidate);
    EndSettling(b, l, r, w.candidate.groups, KnownGroups(b, l, r));
    StartLayout(l, r, lib, SettledTree(b, l, r), w.candidate);
    if w.Clean() {
      StartClean(b, l, r, lib, w.candidate);
    }
  }

  lemma AllSorted(b: Database, l: Database, r: Database, lib: Library, told: seq<Conflict>, additions: seq<Id>,
                  deletions: seq<Id>)
    requires Sorted(b, l, r, lib, told, additions, deletions, KnownGroups(b, l, r))
    ensures Elements(additions) == Addable(b, l, r) && Elements(deletions) == Queued(b, l, r)
    ensures KnownReported(b, l, r, lib, told)
  {
    forall x | x !in Addable(b, l, r) ensures GroupReported(b, l, r, lib, told, x) {
      UnknownIsReported(b, l, r, lib, told, x);
    }
  }

  lemma StartClean(b: Database, l: Database, r: Database, lib: Library, c: Database)
    requires Trees(b, l, r) && GroupsPhase(b, l, r, c, KnownGroups(b, l, r)) && KnownReported(b, l, r, lib, [])
    ensures TreePhase(b, l, r, c, {}, {})
  {
    SilentKnownAgree(b, l, r, lib);
    AgreeingInputsJudged(b, l, r, lib);
    WidenPhase(b, l, r, c, KnownGroups(b, l, r));
    StartTreePhase(b, l, r, c);
  }

  lemma TrackAdded(b: Database, l: Database, r: Database, pending: set<Id>, added: set<Id>, id: Id)
    requires Tracked(b, l, r, pending, added) && id in pending
    ensures r.groups[id].parent.None? ==> Tracked(b, l, r, pending - {id}, added)
    ensures r.groups[id].parent.Some? && r.groups[id].parent.value in l.groups.Keys + added ==>
              Tracked(b, l, r, pending - {id}, added + {id})
  {
  }

  lemma GroupAdded(b: Database, l: Database, r: Database, lib: Library, w: Work, pending: set<Id>, added: set<Id>,
                   id: Id, parent: Id)
    requires AddStage(b, l, r, lib, w, pending, added) && id in pending
    requires r.groups[id].parent == Some(parent) && parent in w.candidate.groups
    ensures id !in w.candidate.groups
    ensures AddStage(b, l, r, lib, Work(AddGroup(w.candidate, parent, id, CopiedGroup(r.groups[id], lib)), w.told),
                     pending - {id}, added + {id})
  {
    TrackAdded(b, l, r, pending, added, id);
    AddedInAnyRun(b, l, r, lib, w.candidate, added, id, parent);
    if w.Clean() {
      AddedWhileClean(b, l, r, lib, w.candidate, added, id, parent);
      PendingShrinks(pending, added, id);
    }
  }

  lemma PendingShrinks(pending: set<Id>, added: set<Id>, id: Id)
    requires id in pending
    ensures pending - {id} + (added + {id}) == pending + added
  {
  }

  lemma AddedInAnyRun(b: Database, l: Database, r: Database, lib: Library, c: Database, added: set<Id>, id: Id,
                      parent: Id)
    requires ValidTree(l) && ValidTree(r) && c.root == l.root && Acyclic(c) && ParentsLive(c.groups)
    requires Layout(l, r, lib, SettledTree(b, l, r), added, c)
    requires id in RemoteAdded(b, l, r) && id !in added && r.groups[id].parent == Some(parent) && parent in c.groups
    requires forall y :: y in added ==> y in r.groups && r.groups[y].parent != Some(id)
    ensures id !in c.groups
    ensures var after := AddGroup(c, parent, id, CopiedGroup(r.groups[id], lib));
            && after.root == l.root && Acyclic(after) && ParentsLive(after.groups)
            && Layout(l, r, lib, SettledTree(b, l, r), added + {id}, after)
  {
    AddKeepsForest(c, parent, id, CopiedGroup(r.groups[id], lib));
    AddLayout(l, r, lib, SettledTree(b, l, r), added, c, id, parent);
  }

  lemma AddedWhileClean(b: Database, l: Database, r: Database, lib: Library, c: Database, added: set<Id>, id: Id,
                        parent: Id)
    requires Trees(b, l, r) && TreePhase(b, l, r, c, added, {}) && id in RemoteAdded(b, l, r) && id !in added
    requires r.groups[id].parent == Some(parent) && parent in c.groups
    requires forall y :: y in added ==> r.groups[y].parent != Some(id)
    requires l.root in r.groups ==> OnTrack(b, l, r, lib, c, added, {})
    ensures id !in c.groups
    ensures TreePhase(b, l, r, AddGroup(c, parent, id, CopiedGroup(r.groups[id], lib)), added + {id}, {})
    ensures l.root in r.groups ==>
              OnTrack(b, l, r, lib, AddGroup(c, parent, id, CopiedGroup(r.groups[id], lib)), added + {id}, {})
  {
    AddStep(b, l, r, c, added, id, parent, CopiedGroup(r.groups[id], lib));
    if l.root in r.groups {
      TrackGroup(b, l, r, lib, c, added, id, parent);
    }
  }

  lemma GroupUnplaced(b: Database, l: Database, r: Database, lib: Library, w: Work, pending: set<Id>, added: set<Id>,
                      id: Id, told: seq<Conflict>)
    requires AddStage(b, l, r, lib, w, pending, added) && id in pending && r.groups[id].parent.None? && told != []
    ensures AddStage(b, l, r, lib, Work(w.candidate, told), pending - {id}, added)
  {
    TrackAdded(b, l, r, pending, added, id);
  }

  /** A sweep over `pending` has come to `i`: what it put off and what is still to come is `open`. */
  ghost predicate Sweep(pending: seq<Id>, i: nat, later: seq<Id>, open: set<Id>)
    requires i <= |pending|
  {
    |later| <= i && NoDup(later + pending[i..]) && Elements(later + pending[i..]) == open
  }

  lemma StartSweep(pending: seq<Id>)
    requires NoDup(pending)
    ensures Sweep(pending, 0, [], Elements(pending))
  {
    assert [] + pending[0..] == pending;
  }

  lemma EndSweep(pending: seq<Id>, later: seq<Id>, open: set<Id>)
    requires Sweep(pending, |pending|, later, open)
    ensures NoDup(later) && Elements(later) == open
  {
    assert later + pending[|pending|..] == later;
  }

  /** The next pending group is put off, or leaves the queue. */
  lemma SweepStep(pending: seq<Id>, i: nat, later: seq<Id>, open: set<Id>)
    requires i < |pending| && Sweep(pending, i, later, open)
    ensures pending[i] in open
    ensures Sweep(pending, i + 1, later + [pending[i]], open) && Sweep(pending, i + 1, later, open - {pending[i]})
  {
    var all, kept, x, n := later + pending[i..], later + pending[i + 1..], pending[i], |later|;
    assert all[n] == x && later + [x] + pending[i + 1..] == all;
    forall j | 0 <= j < |kept| ensures kept[j] == all[if j < n then j else j + 1] {
    }
    forall y ensures y in kept <==> y in all && y != x {
      if y in kept {
        var j :| 0 <= j < |kept| && kept[j] == y;
        assert all[if j < n then j else j + 1] == y;
      }
      if y in all && y != x {
        var j :| 0 <= j < |all| && all[j] == y;
        assert kept[if j < n then j else j - 1] == y;
      }
    }
  }

  /** Exactly the additions that find their place are in. */
  ghost predicate AddedStage(b: Database, l: Database, r: Database, lib: Library, w: Work)
  {
    && Trees(b, l, r) && Tracks(b, l, r, lib, w, Addable(b, l, r), {})
    && w.candidate.root == l.root && Acyclic(w.candidate) && Laid(b, l, r, lib, w.candidate)
    && (w.Clean() ==> TreePhase(b, l, r, w.candidate, Addable(b, l, r), {}))
  }

  lemma DoneAdding(b: Database, l: Database, r: Database, lib: Library, w: Work, orphans: set<Id>, added: set<Id>)
    requires AddStage(b, l, r, lib, w, orphans, added) && Stuck(b, l, r, orphans, added)
    requires RootlessReported(b, l, r, w.told, orphans)
    requires forall y :: y in orphans ==> Conflict(OfGroup(y), GroupDeleteVsDescendantChange) in w.told
    ensures AddedStage(b, l, r, lib, w)
    ensures forall x :: x in Addable(b, l, r) ==> GroupReported(b, l, r, lib, w.told, x)
  {
    AddedIsArriving(b, l, r, orphans, added);
    AdditionsReported(b, l, r, lib, w.told, orphans, added);
    assert w.Clean() ==> orphans == {} && added == Addable(b, l, r);
  }

  /** Reporting the orphans changes nothing else. */
  lemma StillOrphans(b: Database, l: Database, r: Database, lib: Library, w: Work, told: seq<Conflict>, open: set<Id>,
                     added: set<Id>)
    requires AddStage(b, l, r, lib, w, open, added) && w.told <= told && RootlessReported(b, l, r, w.told, open)
    ensures AddStage(b, l, r, lib, Work(w.candidate, told), open, added) && RootlessReported(b, l, r, told, open)
  {
    forall c | c in w.told ensures c in told {
    }
  }

  // ---------------------------------------------------------------- making REMOTE's deletions

  /** The candidate, once `before`, without some of the groups that are to be taken. */
  ghost predicate DropStage(b: Database, l: Database, r: Database, lib: Library, w: Work, before: Database,
                            dropped: set<Id>)
  {
    && Trees(b, l, r) && Tracks(b, l, r, lib, w, RemoteAdded(b, l, r), {})
    && w.candidate.root == l.root && Acyclic(w.candidate) && Laid(b, l, r, lib, before) && CutFrom(before, w.candidate)
    && (forall p :: p in before.groups && p !in w.candidate.groups ==> Taken(b, l, r, lib, p))
    && (w.Clean() ==> TreePhase(b, l, r, w.candidate, RemoteAdded(b, l, r), dropped))
  }

  lemma StartDropping(b: Database, l: Database, r: Database, lib: Library, w: Work)
    requires AddedStage(b, l, r, lib, w) && KnownReported(b, l, r, lib, w.told)
    ensures DropStage(b, l, r, lib, w, w.candidate, {})
  {
    NothingCut(w.candidate);
    if w.Clean() {
      SilentKnownAgree(b, l, r, lib);
      AgreeingInputsJudged(b, l, r, lib);
    }
  }

  lemma GroupDropped(b: Database, l: Database, r: Database, lib: Library, w: Work, before: Database, dropped: set<Id>,
                     id: Id)
    returns (more: set<Id>)
    requires DropStage(b, l, r, lib, w, before, dropped) && id in w.candidate.groups && id in Queued(b, l, r)
    ensures id !in RemoveGroup(w.candidate, id).groups
    ensures RemoveGroup(w.candidate, id).groups.Keys <= w.candidate.groups.Keys
    ensures id in more && dropped <= more
    ensures DropStage(b, l, r, lib, Work(RemoveGroup(w.candidate, id), w.told), before, more)
  {
    more := dropped + {id};
    if w.Clean() {
      more := DropStep(b, l, r, w.candidate, RemoteAdded(b, l, r), dropped, id);
      if l.root in r.groups {
        TrackRemoved(b, l, r, lib, w.candidate, dropped, id);
      }
    }
    RemoveKeepsForest(w.candidate, id);
    RemoveGroupFacts(w.candidate, id);
    CutMore(before, w.candidate, id);
    forall p | p in w.candidate.groups && p in Below(w.candidate.groups, id) ensures Taken(b, l, r, lib, p) {
      RemovedAreTaken(b, l, r, lib, before, w.candidate, id, p);
    }
  }

  /** What the group passes leave: in any run exactly the groups that stand, and of the entries of all
      three inputs exactly those that were not taken. */
  ghost predicate GroupsDone(b: Database, l: Database, r: Database, lib: Library, w: Work)
  {
    && Trees(b, l, r) && Tracks(b, l, r, lib, w, RemoteAdded(b, l, r), {}) && Acyclic(w.candidate)
    && StandsExactly(b, l, r, lib, w.candidate.groups) && w.candidate.entries.Keys <= l.entries.Keys
    && (forall e :: EntryInAll(b, l, r, e) ==> (e in w.candidate.entries <==> !EntryTaken(b, l, r, lib, e)))
    && (w.Clean() ==> TreePhase(b, l, r, w.candidate, RemoteAdded(b, l, r), RemoteDeleted(b, l, r)))
  }

  ghost predicate StandsExactly(b: Database, l: Database, r: Database, lib: Library, groups: map<Id, Group>)
  {
    forall p :: p in groups <==> Stands(b, l, r, lib, p)
  }

  lemma DoneDropping(b: Database, l: Database, r: Database, lib: Library, before: Work, w: Work, dropped: set<Id>)
    requires AddedStage(b, l, r, lib, before) && before.candidate.entries == l.entries
    requires KnownReported(b, l, r, lib, w.told) && w.told == before.told
    requires DropStage(b, l, r, lib, w, before.candidate, dropped)
    requires Queued(b, l, r) !! w.candidate.groups.Keys && (w.Clean() ==> Queued(b, l, r) <= dropped)
    ensures GroupsDone(b, l, r, lib, w)
  {
    LeftStands(b, l, r, lib, before.candidate, w.candidate);
    CutEntriesKept(before.candidate, w.candidate);
    if w.Clean() {
      SilentKnownAgree(b, l, r, lib);
      AgreeingInputsJudged(b, l, r, lib);
      assert dropped == RemoteDeleted(b, l, r);
    }
  }

  lemma CutEntriesKept(before: Database, c: Database)
    requires CutFrom(before, c)
    ensures c.entries.Keys <= before.entries.Keys
  {
    forall e | e in c.entries ensures e in before.entries {
      assert e in c.entries <==> e in before.entries && !GoneWith(before, c, e);
    }
  }

  // ---------------------------------------------------------------- merging the entries

  /** Without conflicts exactly the entries whose LOCAL home is not deleted are left. */
  lemma StrandedExactly(b: Database, l: Database, r: Database, c: Database)
    requires TreePhase(b, l, r, c, RemoteAdded(b, l, r), RemoteDeleted(b, l, r))
    ensures Stranded(b, l, r) <==> exists e :: EntryInAll(b, l, r, e) && e !in c.entries
  {
  }

  /** `done` of the entries are judged, since the group passes left `start`. */
  ghost predicate EntryStage(b: Database, l: Database, r: Database, lib: Library, w: Work, start: Database,
                             done: set<Id>)
  {
    && Trees(b, l, r) && Tracks(b, l, r, lib, w, RemoteAdded(b, l, r), done)
    && StandsExactly(b, l, r, lib, start.groups) && w.candidate.icons == MergedIcons(b, l, r)
    && start.entries.Keys <= l.entries.Keys && w.candidate.entries.Keys <= l.entries.Keys + done
    && SameLinks(start.groups, w.candidate.groups)
    && (forall e :: EntryInAll(b, l, r, e) ==> (e in w.candidate.entries <==> e in start.entries))
    && (w.Clean() ==> EntryPhase(b, l, r, start, w.candidate, done))
  }

  lemma StartEntries(b: Database, l: Database, r: Database, lib: Library, w: Work)
    requires GroupsDone(b, l, r, lib, w) && w.candidate.icons == MergedIcons(b, l, r)
    ensures EntryStage(b, l, r, lib, w, w.candidate, {})
    ensures AnyTaken(b, l, r, lib) <==> exists e :: EntryInAll(b, l, r, e) && e !in w.candidate.entries
    ensures w.Clean() ==> (Stranded(b, l, r) <==> AnyTaken(b, l, r, lib))
  {
    if AnyTaken(b, l, r, lib) {
      var e :| EntryTaken(b, l, r, lib, e);
      assert EntryInAll(b, l, r, e);
    }
    if w.Clean() {
      StartEntryPhase(b, l, r, w.candidate, RemoteAdded(b, l, r), RemoteDeleted(b, l, r));
      StrandedExactly(b, l, r, w.candidate);
    }
  }

  lemma PlaceEntryLinks(c: Database, id: Id, target: Entry, from: Id, parent: Id, stamp: Time)
    requires id in c.entries
    ensures SameLinks(c.groups, PlaceEntry(c, id, target, from, parent, stamp).db.groups)
    ensures PlaceEntry(c, id, target, from, parent, stamp).refused <==> parent != from && parent !in c.groups
  {
  }

  lemma AddEntryLinks(c: Database, parent: Id, id: Id, entry: Entry)
    requires parent in c.groups && id !in c.entries
    ensures SameLinks(c.groups, AddEntry(c, parent, id, entry).groups)
  {
  }

  lemma RemoveEntryLinks(c: Database, id: Id)
    requires id in c.entries
    ensures SameLinks(c.groups, RemoveEntry(c, id).groups)
  {
  }

  function PlacedEntry(b: Database, l: Database, r: Database, c: Database, id: Id, target: Entry): (p: Placing)
    requires EntryInAll(b, l, r, id) && id in c.entries
  {
    PlaceEntry(c, id, target, l.entries[id].parent, MergedEntryParent(b, l, r, id), r.entries[id].state.times.locationChanged)
  }

  /** In every run moving an entry is refused exactly if its new home does not stand. */
  lemma EntryRefusal(b: Database, l: Database, r: Database, lib: Library, w: Work, start: Database, done: set<Id>,
                     id: Id, target: Entry)
    requires EntryStage(b, l, r, lib, w, start, done) && EntryInAll(b, l, r, id) && id in w.candidate.entries
    ensures var p := MergedEntryParent(b, l, r, id);
            PlacedEntry(b, l, r, w.candidate, id, target).refused <==> p != l.entries[id].parent && !Stands(b, l, r, lib, p)
  {
    PlaceEntryLinks(w.candidate, id, target, l.entries[id].parent, MergedEntryParent(b, l, r, id),
                    r.entries[id].state.times.locationChanged);
  }

  lemma EntryMerged(b: Database, l: Database, r: Database, lib: Library, w: Work, start: Database, done: set<Id>,
                    id: Id, target: Entry, told: seq<Conflict>)
    requires EntryStage(b, l, r, lib, w, start, done) && EntryInAll(b, l, r, id) && id !in done
    requires id in w.candidate.entries
    requires told == [] ==>
               && w.Clean() && EntryRecordAgrees(b.entries[id], l.entries[id], r.entries[id], target)
               && target.parent == l.entries[id].parent && !PlacedEntry(b, l, r, w.candidate, id, target).refused
    ensures EntryStage(b, l, r, lib, Work(PlacedEntry(b, l, r, w.candidate, id, target).db, told), start, done + {id})
  {
    var parent, stamp := MergedEntryParent(b, l, r, id), r.entries[id].state.times.locationChanged;
    PlaceEntryLinks(w.candidate, id, target, l.entries[id].parent, parent, stamp);
    if told == [] {
      EntryPlaced(b, l, r, start, w.candidate, done, id, target, stamp);
      assert EntryRecord(b, l, r, done, id, w.candidate.entries[id]);
      if l.root in r.groups {
        TrackEntryPlaced(b, l, r, lib, w.candidate, done, id, target, parent, stamp);
      }
    }
  }

  lemma EntryNew(b: Database, l: Database, r: Database, lib: Library, w: Work, start: Database, done: set<Id>, id: Id,
                 told: seq<Conflict>)
    requires EntryStage(b, l, r, lib, w, start, done) && id !in done && NewEntry(b, l, r, id)
    ensures id !in w.candidate.entries
    ensures told != [] ==> EntryStage(b, l, r, lib, Work(w.candidate, told), start, done + {id})
    ensures r.entries[id].parent in w.candidate.groups <==> Stands(b, l, r, lib, r.entries[id].parent)
  {
  }

  lemma EntryNewAdded(b: Database, l: Database, r: Database, lib: Library, w: Work, start: Database, done: set<Id>,
                      id: Id)
    requires EntryStage(b, l, r, lib, w, start, done) && id !in done && id !in w.candidate.entries
    requires NewEntry(b, l, r, id)
    requires r.entries[id].parent in w.candidate.groups
    ensures EntryStage(b, l, r, lib, Work(AddEntry(w.candidate, r.entries[id].parent, id, r.entries[id]), w.told), start, done + {id})
  {
    AddEntryLinks(w.candidate, r.entries[id].parent, id, r.entries[id]);
    if w.Clean() {
      EntryAdded(b, l, r, start, w.candidate, done, id);
      if l.root in r.groups {
        TrackEntryAdded(b, l, r, lib, w.candidate, done, id);
      }
    }
  }

  lemma EntryDropped(b: Database, l: Database, r: Database, lib: Library, w: Work, start: Database, done: set<Id>,
                     id: Id, told: seq<Conflict>)
    requires EntryStage(b, l, r, lib, w, start, done) && id !in done && id in w.candidate.entries
    requires (told == [] ==> w.Clean())
    requires id in b.entries && id in l.entries && id !in r.entries
    ensures EntryStage(b, l, r, lib, Work(RemoveEntry(w.candidate, id), told), start, done + {id})
  {
    RemoveEntryLinks(w.candidate, id);
    if told == [] {
      EntryRemoved(b, l, r, start, w.candidate, done, id);
      DroppedTracks(b, l, r, lib, w, start, done, id);
    }
  }

  lemma DroppedTracks(b: Database, l: Database, r: Database, lib: Library, w: Work, start: Database, done: set<Id>,
                      id: Id)
    requires EntryPhase(b, l, r, start, w.candidate, done) && Tracks(b, l, r, lib, w, RemoteAdded(b, l, r), done)
    requires ValidTree(l)
    requires id !in done && id in w.candidate.entries && id in l.entries && id !in r.entries
    ensures Tracks(b, l, r, lib, Work(RemoveEntry(w.candidate, id), w.told), RemoteAdded(b, l, r), done + {id})
  {
    assert EntryRecord(b, l, r, done, id, w.candidate.entries[id]);
    if w.Clean() && l.root in r.groups {
      TrackEntryRemoved(b, l, r, lib, w.candidate, done, id);
    }
  }

  lemma UnjudgedIsLocal(b: Database, l: Database, r: Database, start: Database, c: Database, done: set<Id>, id: Id)
    requires EntryPhase(b, l, r, start, c, done) && start.entries.Keys <= l.entries.Keys && id !in done
    ensures id in c.entries ==> id in l.entries && c.entries[id] == l.entries[id]
  {
    if id in c.entries {
      assert StillLive(b, l, r, start, done, id);
      assert EntryRecord(b, l, r, done, id, c.entries[id]);
    }
  }

  lemma EntrySkipped(b: Database, l: Database, r: Database, lib: Library, w: Work, start: Database, done: set<Id>,
                     id: Id, told: seq<Conflict>)
    requires EntryStage(b, l, r, lib, w, start, done) && id !in done && (told == [] ==> w.Clean())
    requires !EntryInAll(b, l, r, id) && !NewEntry(b, l, r, id) && (told == [] ==> EntryAgrees(b, l, r, lib, id))
    requires told == [] && id in b.entries && id in l.entries ==> id !in w.candidate.entries
    ensures EntryStage(b, l, r, lib, Work(w.candidate, told), start, done + {id})
  {
    if told == [] {
      AgreeingEntry(b, l, r, lib, id);
      EntryUntouched(b, l, r, start, w.candidate, done, id);
      UnjudgedIsLocal(b, l, r, start, w.candidate, done, id);
      if l.root in r.groups {
        TrackEntrySkipped(b, l, r, lib, w.candidate, done, id);
      }
    }
  }

  // ---------------------------------------------------------------- the end of a run

  /** The three parts of a run report everything between them. */
  lemma EverythingReported(b: Database, l: Database, r: Database, lib: Library, header: seq<Conflict>,
                           groups: seq<Conflict>, told: seq<Conflict>)
    requires header <= groups <= told && DatabaseReported(b, l, r, header)
    requires forall x :: GroupReported(b, l, r, lib, groups, x)
    requires forall e :: e in KnownEntries(b, l, r) ==> EntryReported(b, l, r, lib, told, e)
    requires forall c :: c in told ==> Justified(b, l, r, lib, c)
    ensures (forall c :: c in told <==> Justified(b, l, r, lib, c)) && (told != [] <==> Diverges(b, l, r, lib))
  {
    StillReported(b, l, r, lib, header, told);
    StillReported(b, l, r, lib, groups, told);
    forall e | e !in KnownEntries(b, l, r) ensures EntryReported(b, l, r, lib, told, e) {
      UnknownIsReported(b, l, r, lib, told, e);
    }
    ReportedExactly(b, l, r, lib, told);
  }

  /** Without a divergence, the candidate is the merge. */
  lemma FinishRun(b: Database, l: Database, r: Database, lib: Library, start: Work, w: Work, m: Database)
    requires !Diverges(b, l, r, lib) && GroupsDone(b, l, r, lib, start) && w.Clean() && start.Clean()
    requires EntryStage(b, l, r, lib, w, start.candidate, KnownEntries(b, l, r))
    requires m.groups == w.candidate.groups && m.entries == w.candidate.entries
    requires m.deleted.Keys == b.deleted.Keys + l.deleted.Keys + r.deleted.Keys
    ensures IsMergeOf(None, b, l, r, m)
  {
    NothingJustified(b, l, r, lib);
    AgreeingInputsJudged(b, l, r, lib);
    AgreeingEntriesJudged(b, l, r, lib);
    FinishMerge(b, l, r, start.candidate, w.candidate, KnownEntries(b, l, r), m);
  }

  /** ... and it is valid exactly if the inputs fit. */
  lemma FinishValidation(b: Database, l: Database, r: Database, lib: Library, start: Database, w: Work, m: Database)
    requires !Diverges(b, l, r, lib) && IsMergeOf(None, b, l, r, m)
    requires EntryStage(b, l, r, lib, w, start, KnownEntries(b, l, r)) && w.Clean()
    requires m.groups == w.candidate.groups && m.entries == w.candidate.entries && m.root == w.candidate.root
    requires m.icons == MergedIcons(b, l, r)
    ensures (Valid(m) <==> Fits(b, l, r, lib)) && b.root == l.root == r.root
  {
    NothingJustified(b, l, r, lib);
    assert !DatabaseJustified(b, l, r, HierarchyCycle);
    SameTrack(b, l, r, lib, w.candidate, m, KnownEntries(b, l, r));
    ValidExactly(b, l, r, lib, m, KnownEntries(b, l, r));
  }

  /** The parents are free of cycles at the end of every run. */
  lemma StillAcyclic(b: Database, l: Database, r: Database, lib: Library, start: Work, w: Work, m: Database)
    requires GroupsDone(b, l, r, lib, start) && EntryStage(b, l, r, lib, w, start.candidate, KnownEntries(b, l, r))
    requires m.groups == w.candidate.groups && m.root == start.candidate.root
    ensures Acyclic(m)
  {
    SameLinksForest(start.candidate, m);
  }
}

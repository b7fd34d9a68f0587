/** The divergent three-way merge: a builder that edits a copy of LOCAL and collects conflicts. */
module Merge {
  import opened Vault
  import opened Validator
  import opened ThreeWay
  import opened TreeOps
  import opened MergeSpec
  import opened MergeLemmas
  import opened Divergence
  import opened ConflictLemmas
  import opened Forest
  import opened Settling
  import opened MergeFit
  import opened Stages

  class MergeBuilder {
    const base: Database
    const local: Database
    const remote: Database
    const lib: Library
    var candidate: Database
    var conflicts: seq<Conflict>

    constructor (base: Database, local: Database, remote: Database, lib: Library)
      ensures this.base == base && this.local == local && this.remote == remote && this.lib == lib
      ensures candidate == local && conflicts == []
    {
      this.base, this.local, this.remote, this.lib := base, local, remote, lib;
      candidate, conflicts := local, [];
    }

    /** Every conflict is justified by the inputs. */
    ghost predicate Sound()
      reads this`conflicts
    {
      forall c :: c in conflicts ==> Justified(base, local, remote, lib, c)
    }

    ghost predicate Told(subject: ConflictObject, kind: ConflictKind)
      reads this`conflicts
    {
      Conflict(subject, kind) in conflicts
    }

    ghost function Now(): (w: Work)
      reads this
    {
      Work(candidate, conflicts)
    }

    // A stage is stated of the work as it is now through a bound variable: a proof that only hands it
    // on does not unfold it.

    ghost predicate AtGroups(done: set<Id>)
      reads this
    {
      forall w :: w == Now() ==> GroupStage(base, local, remote, w, done)
    }

    ghost predicate AtAdditions(pending: set<Id>, added: set<Id>)
      reads this
    {
      forall w :: w == Now() ==> AddStage(base, local, remote, lib, w, pending, added)
    }

    ghost predicate AtDeletions(before: Database, dropped: set<Id>)
      reads this
    {
      forall w :: w == Now() ==> DropStage(base, local, remote, lib, w, before, dropped)
    }

    ghost predicate AtEntries(start: Database, done: set<Id>)
      reads this
    {
      forall w :: w == Now() ==> EntryStage(base, local, remote, lib, w, start, done)
    }

    method Report(subject: ConflictObject, kind: ConflictKind, times: nat)
      requires Sound() && (times > 0 ==> Justified(base, local, remote, lib, Conflict(subject, kind)))
      modifies this`conflicts
      ensures Sound() && old(conflicts) <= conflicts && (times > 0 ==> Told(subject, kind))
      ensures times == 0 ==> conflicts == old(conflicts)
    {
      ghost var before := conflicts;
      conflicts := conflicts + seq(times, _ => Conflict(subject, kind));
      assert times > 0 ==> conflicts[|before|] == Conflict(subject, kind);
    }

    // -------------------------------------------------------------- groups

    /** Reports every clash in the record of a group live in all three inputs. */
    method JudgeGroupRecord(id: Id)
      requires Sound() && InAll(base, local, remote, id)
      modifies this`conflicts
      ensures Sound() && old(conflicts) <= conflicts
      ensures GroupReportedAs(base, local, remote, lib, conflicts, id, {MoveVsMove, UnsupportedSemantic, Metadata})
      ensures ChooseThreeWay(base.groups[id].icon, local.groups[id].icon, remote.groups[id].icon).None? ==>
                Told(OfGroup(id), CustomIcon)
    {
      JudgeGroupPlace(id);
      JudgeGroupProperties(id);
      JudgeGroupOrder(id);
      GroupRecordReported(base, local, remote, lib, conflicts, id);
    }

    method JudgeGroupPlace(id: Id)
      requires Sound() && InAll(base, local, remote, id)
      modifies this`conflicts
      ensures Sound() && old(conflicts) <= conflicts
      ensures ChooseThreeWay(base.groups[id].parent, local.groups[id].parent, remote.groups[id].parent).None? ==>
                Told(OfGroup(id), MoveVsMove)
      ensures GroupUnsupported(base, local, remote, lib, id) ==> Told(OfGroup(id), UnsupportedSemantic)
    {
      var b, l, r := base.groups[id], local.groups[id], remote.groups[id];
      Report(OfGroup(id), MoveVsMove, Clash(b.parent, l.parent, r.parent));
      if r != b && id !in lib.representable {
        Report(OfGroup(id), UnsupportedSemantic, 1);
      }
      var mergedPrevious := ChooseThreeWay(b.previousParent, l.previousParent, r.previousParent);
      if mergedPrevious.None?
         || (OrLocal(b.parent, l.parent, r.parent) == l.parent && mergedPrevious != Some(l.previousParent)) {
        Report(OfGroup(id), UnsupportedSemantic, 1);
      }
    }

    method JudgeGroupProperties(id: Id)
      requires Sound() && InAll(base, local, remote, id)
      modifies this`conflicts
      ensures Sound() && old(conflicts) <= conflicts
      ensures GroupPropClashes(base.groups[id].props, local.groups[id].props, remote.groups[id].props) > 0 ==>
                Told(OfGroup(id), Metadata)
      ensures TimeClashes(base.groups[id].times, local.groups[id].times, remote.groups[id].times) > 0 ==>
                Told(OfGroup(id), Metadata)
      ensures ChooseThreeWay(base.groups[id].icon, local.groups[id].icon, remote.groups[id].icon).None? ==>
                Told(OfGroup(id), CustomIcon)
    {
      var b, l, r := base.groups[id], local.groups[id], remote.groups[id];
      Report(OfGroup(id), Metadata,
             GroupPropClashes(b.props, l.props, r.props) + TimeClashes(b.times, l.times, r.times));
      Report(OfGroup(id), CustomIcon, Clash(b.icon, l.icon, r.icon));
    }

    method JudgeGroupOrder(id: Id)
      requires Sound() && InAll(base, local, remote, id)
      modifies this`conflicts
      ensures Sound() && old(conflicts) <= conflicts
      ensures RemoteReorderWouldBeLost(base.groups[id].groups, local.groups[id].groups, remote.groups[id].groups)
              || RemoteReorderWouldBeLost(base.groups[id].entries, local.groups[id].entries, remote.groups[id].entries)
              ==> Told(OfGroup(id), Metadata)
    {
      var b, l, r := base.groups[id], local.groups[id], remote.groups[id];
      if RemoteReorderWouldBeLost(b.groups, l.groups, r.groups) {
        Report(OfGroup(id), Metadata, 1);
      }
      if RemoteReorderWouldBeLost(b.entries, l.entries, r.entries) {
        Report(OfGroup(id), Metadata, 1);
      }
    }

    /** The merged record of a group, still at its place, with a missing icon reported and left out. */
    method JudgeExistingGroup(id: Id) returns (target: Group)
      requires Sound() && InAll(base, local, remote, id) && id in candidate.groups
      requires candidate.icons == MergedIcons(base, local, remote)
      modifies this`conflicts
      ensures Sound() && old(conflicts) <= conflicts && SamePlace(candidate.groups[id], target)
      ensures GroupReportedAs(base, local, remote, lib, conflicts, id, {MoveVsMove, UnsupportedSemantic, Metadata, CustomIcon})
      ensures conflicts == [] ==>
                && target == MergedGroupRecord(base.groups[id], local.groups[id], remote.groups[id], candidate.groups[id])
                && GroupRecordAgrees(base.groups[id], local.groups[id], remote.groups[id])
    {
      var b, l, r := base.groups[id], local.groups[id], remote.groups[id];
      JudgeGroupRecord(id);
      target := MergedGroupRecord(b, l, r, candidate.groups[id]);
      if ChooseThreeWay(b.icon, l.icon, r.icon).Some? && !IconResolves(candidate.icons.Keys, target.icon) {
        Report(OfGroup(id), CustomIcon, 1);
        target := target.(icon := candidate.groups[id].icon);
      }
    }

    method MergeExistingGroup(id: Id, ghost done: set<Id>)
      requires Sound() && AtGroups(done) && InAll(base, local, remote, id) && id !in done && Before(local, done, id)
      modifies this
      ensures SameHeader(candidate, old(candidate)) && candidate.entries == old(candidate.entries)
      ensures Sound() && AtGroups(done + {id}) && old(conflicts) <= conflicts
      ensures GroupReported(base, local, remote, lib, conflicts, id)
    {
      ghost var before := Now();
      assert GroupStage(base, local, remote, before, done);
      var target := JudgeExistingGroup(id);
      ghost var told := conflicts;
      var from, parent := local.groups[id].parent, OrLocal(base.groups[id].parent, local.groups[id].parent, remote.groups[id].parent);
      var placing := PlaceGroup(candidate, id, target, from, parent, remote.groups[id].times.locationChanged);
      RefusedExactly(base, local, remote, before, done, id, target);
      if placing.refused {
        Report(OfGroup(id), HierarchyCycle, 1);
      }
      KnownGroupReported(base, local, remote, lib, told, conflicts, id);
      GroupMerged(base, local, remote, before, done, id, target, conflicts);
      candidate := placing.db;
    }

    method JudgeGroup(id: Id, ghost done: set<Id>) returns (todo: Todo)
      requires Sound() && AtGroups(done) && id !in done && Before(local, done, id)
      modifies this
      ensures SameHeader(candidate, old(candidate)) && candidate.entries == old(candidate.entries)
      ensures Sound() && AtGroups(done + {id}) && old(conflicts) <= conflicts
      ensures TodoRight(base, local, remote, id, todo)
      ensures id !in Addable(base, local, remote) ==> GroupReported(base, local, remote, lib, conflicts, id)
    {
      if id in base.groups && id in local.groups && id in remote.groups {
        MergeExistingGroup(id, done);
        todo := Nothing;
      } else {
        ghost var before := Now();
        todo := SortGroup(id);
        GroupSkipped(base, local, remote, before, done, id, conflicts);
      }
    }

    /** A group that some input does not have. */
    method SortGroup(id: Id) returns (todo: Todo)
      requires Sound() && !InAll(base, local, remote, id)
      modifies this`conflicts
      ensures Sound() && old(conflicts) <= conflicts
      ensures TodoRight(base, local, remote, id, todo)
      ensures id !in Addable(base, local, remote) ==> GroupReported(base, local, remote, lib, conflicts, id)
    {
      todo := Nothing;
      if id in base.groups && id in local.groups {
        if id !in remote.deleted {
          Report(OfGroup(id), UnsupportedSemantic, 1);
        } else if local.groups[id] == base.groups[id] {
          todo := Delete;
        } else {
          Report(OfGroup(id), DeleteVsModify, 1);
        }
      } else if id in base.groups && id in remote.groups {
        if id !in local.deleted {
          Report(OfGroup(id), UnsupportedSemantic, 1);
        } else if remote.groups[id] != base.groups[id] {
          Report(OfGroup(id), DeleteVsModify, 1);
        }
      } else if id in base.groups {
      } else if id in local.groups && id in remote.groups {
        if id in base.deleted || local.groups[id] != remote.groups[id] {
          Report(OfGroup(id), UuidCollision, 1);
        }
      } else if id in remote.groups {
        if id in local.deleted {
          Report(OfGroup(id), UuidCollision, 1);
        } else {
          todo := Add;
        }
      } else if id in local.groups && id in remote.deleted {
        Report(OfGroup(id), UuidCollision, 1);
      }
      if id !in Addable(base, local, remote) {
        MissingGroupReported(base, local, remote, lib, conflicts, id);
      }
    }

    /** The first pass, in the order of identities: merges the groups all three inputs have and sorts
        the others out. */
    method JudgeGroups() returns (additions: seq<Id>, deletions: seq<Id>)
      requires Sound() && AtGroups({})
      modifies this
      ensures SameHeader(candidate, old(candidate)) && candidate.entries == old(candidate.entries)
      ensures Sound() && AtGroups(KnownGroups(base, local, remote)) && old(conflicts) <= conflicts
      ensures Sorted(base, local, remote, lib, conflicts, additions, deletions, KnownGroups(base, local, remote))
    {
      additions, deletions := [], [];
      var all := KnownGroups(base, local, remote);
      var rest := all;
      ghost var done: set<Id> := {};
      while rest != {}
        invariant SameHeader(candidate, old(candidate)) && candidate.entries == old(candidate.entries)
        invariant Sound() && AtGroups(done) && old(conflicts) <= conflicts
        invariant Sorted(base, local, remote, lib, conflicts, additions, deletions, done)
        invariant rest + done == all && forall x, y :: x in done && y in rest ==> x < y
        decreases rest
      {
        var id := Least(rest);
        ghost var told := conflicts;
        var todo := JudgeGroup(id, done);
        SortedStep(base, local, remote, lib, told, conflicts, additions, deletions, done, id, todo);
        additions := if todo.Add? then additions + [id] else additions;
        deletions := if todo.Delete? then deletions + [id] else deletions;
        rest, done := rest - {id}, done + {id};
      }
      assert done == all;
    }

    /** Adds one REMOTE group below its parent, unless the parent is not there yet. The library
        refuses an identity it already has; a pending group never is one. */
    method TryAddGroup(id: Id, ghost pending: set<Id>, ghost added: set<Id>)
      returns (waits: bool, ghost nowAdded: set<Id>)
      requires Sound() && AtAdditions(pending, added) && id in pending
      modifies this
      ensures SameHeader(candidate, old(candidate)) && candidate.entries == old(candidate.entries)
      ensures Sound() && old(conflicts) <= conflicts && AtAdditions(if waits then pending else pending - {id}, nowAdded)
      ensures waits ==> nowAdded == added && MissesParent(remote, local.groups.Keys + added, id)
      ensures !waits && id in remote.groups && remote.groups[id].parent.None? ==> Told(OfGroup(id), HierarchyCycle)
    {
      waits, nowAdded := false, added;
      ghost var before := Now();
      assert AddStage(base, local, remote, lib, before, pending, added);
      var source := remote.groups[id];
      if source.parent.None? {
        Report(OfGroup(id), HierarchyCycle, 1);
        GroupUnplaced(base, local, remote, lib, before, pending, added, id, conflicts);
      } else if source.parent.value !in candidate.groups {
        waits := true;
      } else {
        GroupAdded(base, local, remote, lib, before, pending, added, id, source.parent.value);
        candidate := AddGroup(candidate, source.parent.value, id, CopiedGroup(source, lib));
        nowAdded := added + {id};
      }
    }

    /** One sweep over the pending additions: adds every group whose parent is already there. A sweep
        that adds nothing leaves only groups that miss their parents. */
    method AddReadyGroups(pending: seq<Id>, ghost added: set<Id>) returns (later: seq<Id>, ghost nowAdded: set<Id>)
      requires Sound() && AtAdditions(Elements(pending), added) && NoDup(pending)
      requires RootlessReported(base, local, remote, conflicts, Elements(pending))
      modifies this
      ensures SameHeader(candidate, old(candidate)) && candidate.entries == old(candidate.entries)
      ensures Sound() && old(conflicts) <= conflicts && AtAdditions(Elements(later), nowAdded)
      ensures RootlessReported(base, local, remote, conflicts, Elements(later))
      ensures |later| <= |pending| && NoDup(later)
      ensures |later| == |pending| ==> forall y :: y in later ==> MissesParent(remote, local.groups.Keys + nowAdded, y)
    {
      later, nowAdded := [], added;
      ghost var open := Elements(pending);
      StartSweep(pending);
      for i := 0 to |pending|
        invariant SameHeader(candidate, old(candidate)) && candidate.entries == old(candidate.entries)
        invariant Sound() && old(conflicts) <= conflicts && AtAdditions(open, nowAdded)
        invariant Sweep(pending, i, later, open) && RootlessReported(base, local, remote, conflicts, open)
        invariant |later| == i ==> forall y :: y in later ==> MissesParent(remote, local.groups.Keys + nowAdded, y)
      {
        var id := pending[i];
        SweepStep(pending, i, later, open);
        var waits;
        waits, nowAdded := TryAddGroup(id, open, nowAdded);
        if waits {
          later := later + [id];
        } else {
          open := open - {id};
        }
      }
      EndSweep(pending, later, open);
    }

    /** Sweeps until nothing is pending; a sweep without progress reports the rest as orphans. Every
        group of REMOTE is then in the candidate, or in no way coming. */
    method AddRemoteGroups(additions: seq<Id>)
      requires Sound() && AtAdditions(Elements(additions), {}) && NoDup(additions)
      requires Elements(additions) == Addable(base, local, remote)
      modifies this
      ensures SameHeader(candidate, old(candidate)) && candidate.entries == old(candidate.entries)
      ensures Sound() && old(conflicts) <= conflicts && AddedStage(base, local, remote, lib, Now())
      ensures forall x :: x in Addable(base, local, remote) ==> GroupReported(base, local, remote, lib, conflicts, x)
    {
      var pending := additions;
      ghost var added: set<Id>, orphans: set<Id>, open := {}, {}, Elements(additions);
      while pending != []
        invariant SameHeader(candidate, old(candidate)) && candidate.entries == old(candidate.entries)
        invariant Sound() && NoDup(pending) && AtAdditions(open, added) && old(conflicts) <= conflicts
        invariant RootlessReported(base, local, remote, conflicts, open)
        invariant orphans == {} ==> open == Elements(pending)
        invariant orphans != {} ==> pending == [] && open == orphans && Stuck(base, local, remote, orphans, added)
        invariant forall y :: y in orphans ==> Told(OfGroup(y), GroupDeleteVsDescendantChange)
        decreases |pending|
      {
        var before := |pending|;
        var later;
        later, added := AddReadyGroups(pending, added);
        open := Elements(later);
        if |later| == before {
          ghost var work := Now();
          assert AddStage(base, local, remote, lib, work, open, added);
          ReportOrphans(later, added);
          StillOrphans(base, local, remote, lib, work, conflicts, open, added);
          orphans, later := open, [];
        }
        pending := later;
      }
      assert AddStage(base, local, remote, lib, Now(), open, added);
      DoneAdding(base, local, remote, lib, Now(), orphans, added);
    }

    method ReportOrphans(later: seq<Id>, ghost added: set<Id>)
      requires ValidTree(remote) && Sound() && Stuck(base, local, remote, Elements(later), added)
      modifies this`conflicts
      ensures Sound() && old(conflicts) <= conflicts
      ensures forall y :: y in later ==> Told(OfGroup(y), GroupDeleteVsDescendantChange)
    {
      for i := 0 to |later|
        invariant Sound() && old(conflicts) <= conflicts
        invariant forall y :: y in later[..i] ==> Told(OfGroup(y), GroupDeleteVsDescendantChange)
      {
        assert later[i] in Elements(later) && later[..i + 1] == later[..i] + [later[i]];
        StuckBlocked(base, local, remote, Elements(later), added, later[i]);
        Report(OfGroup(later[i]), GroupDeleteVsDescendantChange, 1);
      }
      assert later[..|later|] == later;
    }

    /** Removes the remotely deleted groups, each with everything the child lists put below it. */
    method DropRemoteDeleted(deletions: seq<Id>) returns (ghost dropped: set<Id>)
      requires AtDeletions(candidate, {}) && Elements(deletions) == Queued(base, local, remote)
      modifies this`candidate
      ensures SameHeader(candidate, old(candidate)) && AtDeletions(old(candidate), dropped)
      ensures Elements(deletions) !! candidate.groups.Keys && (conflicts == [] ==> Elements(deletions) <= dropped)
    {
      dropped := {};
      for i := 0 to |deletions|
        invariant SameHeader(candidate, old(candidate)) && AtDeletions(old(candidate), dropped)
        invariant Elements(deletions[..i]) !! candidate.groups.Keys
        invariant (conflicts == [] ==> Elements(deletions[..i]) <= dropped)
      {
        var id := deletions[i];
        assert id in Elements(deletions);
        assert deletions[..i + 1] == deletions[..i] + [id];
        ElementsAppend(deletions[..i], id);
        dropped := DropGroup(id, old(candidate), dropped);
      }
      assert deletions[..|deletions|] == deletions;
    }

    method DropGroup(id: Id, ghost before: Database, ghost dropped: set<Id>) returns (ghost more: set<Id>)
      requires AtDeletions(before, dropped) && id in Queued(base, local, remote)
      modifies this`candidate
      ensures SameHeader(candidate, old(candidate)) && AtDeletions(before, more) && dropped <= more
      ensures id !in candidate.groups && candidate.groups.Keys <= old(candidate.groups.Keys)
      ensures (conflicts == [] ==> id in more)
    {
      more := dropped;
      if id in candidate.groups {
        assert DropStage(base, local, remote, lib, Now(), before, dropped);
        more := GroupDropped(base, local, remote, lib, Now(), before, dropped, id);
        candidate := RemoveGroup(candidate, id);
      } else if conflicts == [] {
        assert DropStage(base, local, remote, lib, Now(), before, dropped);
      }
    }

    /** The first two passes: exactly the additions that find their place are then in, and everything
        that is wrong with a group is reported. */
    method PlaceGroups() returns (deletions: seq<Id>)
      requires Sound() && AtGroups({})
      modifies this
      ensures SameHeader(candidate, old(candidate)) && candidate.entries == old(candidate.entries)
      ensures Sound() && old(conflicts) <= conflicts && AddedStage(base, local, remote, lib, Now())
      ensures Elements(deletions) == Queued(base, local, remote)
      ensures forall x :: GroupReported(base, local, remote, lib, conflicts, x)
    {
      var additions;
      additions, deletions := JudgeGroups();
      StartAdding(base, local, remote, lib, Now(), additions, deletions);
      ghost var told := conflicts;
      AddRemoteGroups(additions);
      StillReported(base, local, remote, lib, told, conflicts);
    }

    method MergeGroups()
      requires Sound() && AtGroups({}) && candidate.entries == local.entries
      modifies this
      ensures SameHeader(candidate, old(candidate)) && old(conflicts) <= conflicts
      ensures Sound() && GroupsDone(base, local, remote, lib, Now())
      ensures forall x :: GroupReported(base, local, remote, lib, conflicts, x)
    {
      var deletions := PlaceGroups();
      ghost var before := Now();
      StartDropping(base, local, remote, lib, before);
      ghost var dropped := DropRemoteDeleted(deletions);
      DoneDropping(base, local, remote, lib, before, Now(), dropped);
    }

    // -------------------------------------------------------------- entries

    /** Reports every clash in an entry live in all three inputs and returns the merged entry, still
        at LOCAL's place. */
    method JudgeEntryRecord(id: Id) returns (m: Entry)
      requires Sound() && EntryInAll(base, local, remote, id)
      modifies this`conflicts
      ensures Sound() && old(conflicts) <= conflicts && m.parent == local.entries[id].parent
      ensures m.state.icon == OrLocal(base.entries[id].state.icon, local.entries[id].state.icon, remote.entries[id].state.icon)
      ensures EntryReportedAs(base, local, remote, lib, conflicts, id,
                              {MoveVsMove, UnsupportedSemantic, FieldEdit, Binary, HistoryConflict})
      ensures ChooseThreeWay(base.entries[id].state.icon, local.entries[id].state.icon, remote.entries[id].state.icon).None? ==>
                Told(OfEntry(id), CustomIcon)
      ensures conflicts == [] ==> EntryRecordAgrees(base.entries[id], local.entries[id], remote.entries[id], m)
    {
      var b, l, r := base.entries[id], local.entries[id], remote.entries[id];
      JudgeEntryPlace(id);
      var fields, attachments := JudgeEntryMaps(id);
      var history := JudgeEntryHistory(id);
      JudgeEntryProperties(id);
      m := Entry(l.parent,
                 Revision(l.state.previousParent, fields, attachments, MergeEntryProps(b.state.props, l.state.props, r.state.props),
                          MergeTimes(b.state.times, l.state.times, r.state.times), OrLocal(b.state.icon, l.state.icon, r.state.icon)),
                 history);
      EntryRecordReported(base, local, remote, lib, conflicts, id);
    }

    method JudgeEntryHistory(id: Id) returns (history: seq<HistoryItem>)
      requires Sound() && EntryInAll(base, local, remote, id)
      modifies this`conflicts
      ensures Sound() && old(conflicts) <= conflicts
      ensures var merged := MergedHistory(base.entries[id].history, local.entries[id].history,
                                          remote.entries[id].history);
              if merged.Some? then history == merged.value else Told(OfEntry(id), HistoryConflict)
    {
      var conflict;
      history, conflict := MergeHistory(base.entries[id].history, local.entries[id].history,
                                        remote.entries[id].history);
      Report(OfEntry(id), HistoryConflict, if conflict then 1 else 0);
    }

    method JudgeEntryProperties(id: Id)
      requires Sound() && EntryInAll(base, local, remote, id)
      modifies this`conflicts
      ensures Sound() && old(conflicts) <= conflicts
      ensures EntryPropClashes(base.entries[id].state.props, local.entries[id].state.props, remote.entries[id].state.props) > 0 ==>
                Told(OfEntry(id), FieldEdit)
      ensures TimeClashes(base.entries[id].state.times, local.entries[id].state.times, remote.entries[id].state.times) > 0 ==>
                Told(OfEntry(id), FieldEdit)
      ensures ChooseThreeWay(base.entries[id].state.icon, local.entries[id].state.icon, remote.entries[id].state.icon).None? ==>
                Told(OfEntry(id), CustomIcon)
    {
      var b, l, r := base.entries[id].state, local.entries[id].state, remote.entries[id].state;
      Report(OfEntry(id), FieldEdit, EntryPropClashes(b.props, l.props, r.props));
      Report(OfEntry(id), FieldEdit, TimeClashes(b.times, l.times, r.times));
      Report(OfEntry(id), CustomIcon, Clash(b.icon, l.icon, r.icon));
    }

    method JudgeEntryPlace(id: Id)
      requires Sound() && EntryInAll(base, local, remote, id)
      modifies this`conflicts
      ensures Sound() && old(conflicts) <= conflicts
      ensures ChooseThreeWay(base.entries[id].parent, local.entries[id].parent, remote.entries[id].parent).None? ==>
                Told(OfEntry(id), MoveVsMove)
      ensures EntryUnsupported(base, local, remote, id) ==> Told(OfEntry(id), UnsupportedSemantic)
    {
      var b, l, r := base.entries[id], local.entries[id], remote.entries[id];
      Report(OfEntry(id), MoveVsMove, Clash(b.parent, l.parent, r.parent));
      var mergedPrevious := ChooseThreeWay(b.state.previousParent, l.state.previousParent, r.state.previousParent);
      if mergedPrevious.None?
         || (OrLocal(b.parent, l.parent, r.parent) == l.parent && mergedPrevious != Some(l.state.previousParent)) {
        Report(OfEntry(id), UnsupportedSemantic, 1);
      }
    }

    method JudgeEntryMaps(id: Id) returns (fields: map<string, Value>, attachments: map<string, Value>)
      requires Sound() && EntryInAll(base, local, remote, id)
      modifies this`conflicts
      ensures Sound() && old(conflicts) <= conflicts
      ensures MapClash(base.entries[id].state.fields, local.entries[id].state.fields, remote.entries[id].state.fields) ==>
                Told(OfEntry(id), FieldEdit)
      ensures MapClash(base.entries[id].state.attachments, local.entries[id].state.attachments, remote.entries[id].state.attachments) ==>
                Told(OfEntry(id), Binary)
      ensures conflicts == [] ==>
                && PicksMap(base.entries[id].state.fields, local.entries[id].state.fields, remote.entries[id].state.fields, fields)
                && PicksMap(base.entries[id].state.attachments, local.entries[id].state.attachments,
                            remote.entries[id].state.attachments, attachments)
    {
      var b, l, r := base.entries[id].state, local.entries[id].state, remote.entries[id].state;
      var fieldClashes, attachmentClashes;
      fields, fieldClashes := MergeNamedMap(b.fields, l.fields, r.fields);
      ClashingKey(b.fields, l.fields, r.fields, fieldClashes);
      Report(OfEntry(id), FieldEdit, |fieldClashes|);
      attachments, attachmentClashes := MergeNamedMap(b.attachments, l.attachments, r.attachments);
      ClashingKey(b.attachments, l.attachments, r.attachments, attachmentClashes);
      Report(OfEntry(id), Binary, |attachmentClashes|);
    }

    /** `ok` is false exactly when the group passes removed the entry with a group. */
    method MergeExistingEntry(id: Id, ghost start: Database, ghost done: set<Id>) returns (ok: bool)
      requires Sound() && AtEntries(start, done) && EntryInAll(base, local, remote, id) && id !in done
      modifies this
      ensures SameHeader(candidate, old(candidate)) && Sound()
      ensures old(conflicts) <= conflicts && (ok <==> id in start.entries)
      ensures ok ==> AtEntries(start, done + {id})
      ensures ok ==> EntryReported(base, local, remote, lib, conflicts, id)
    {
      ghost var before := Now();
      assert EntryStage(base, local, remote, lib, before, start, done);
      var target := JudgeEntryRecord(id);
      ghost var told := conflicts;
      if id !in candidate.entries {
        return false;
      }
      target := ResolveEntryIcon(id, target);
      var b, l, r := base.entries[id], local.entries[id], remote.entries[id];
      var placing := PlaceEntry(candidate, id, target, l.parent, OrLocal(b.parent, l.parent, r.parent),
                                r.state.times.locationChanged);
      EntryRefusal(base, local, remote, lib, before, start, done, id, target);
      if placing.refused {
        Report(OfEntry(id), HierarchyCycle, 1);
      }
      KnownEntryReported(base, local, remote, lib, told, conflicts, id);
      EntryMerged(base, local, remote, lib, before, start, done, id, target, conflicts);
      candidate := placing.db;
      ok := true;
    }

    /** A picked icon that is not in the merged table is reported, and LOCAL's kept. */
    method ResolveEntryIcon(id: Id, m: Entry) returns (target: Entry)
      requires Sound() && EntryInAll(base, local, remote, id) && candidate.icons == MergedIcons(base, local, remote)
      requires m.state.icon == OrLocal(base.entries[id].state.icon, local.entries[id].state.icon, remote.entries[id].state.icon)
      modifies this`conflicts
      ensures Sound() && old(conflicts) <= conflicts && target.parent == m.parent
      ensures conflicts == [] ==> target == m
      ensures (ChooseThreeWay(base.entries[id].state.icon, local.entries[id].state.icon, remote.entries[id].state.icon).Some?
               && !IconResolves(MergedIcons(base, local, remote).Keys, m.state.icon))
              ==> Told(OfEntry(id), CustomIcon)
    {
      var b, l, r := base.entries[id].state.icon, local.entries[id].state.icon, remote.entries[id].state.icon;
      target := m;
      if ChooseThreeWay(b, l, r).Some? && !IconResolves(candidate.icons.Keys, m.state.icon) {
        Report(OfEntry(id), CustomIcon, 1);
        target := m.(state := m.state.(icon := l));
      }
    }

    method AddRemoteEntry(id: Id, ghost start: Database, ghost done: set<Id>)
      requires Sound() && AtEntries(start, done) && id !in done && NewEntry(base, local, remote, id)
      modifies this
      ensures SameHeader(candidate, old(candidate))
      ensures Sound() && old(conflicts) <= conflicts && AtEntries(start, done + {id})
      ensures EntryReported(base, local, remote, lib, conflicts, id)
    {
      ghost var before := Now();
      assert EntryStage(base, local, remote, lib, before, start, done);
      EntryNew(base, local, remote, lib, before, start, done, id, conflicts);
      var source := remote.entries[id];
      if source.state.attachments != map[] || HasAttachments(source.history) {
        Report(OfEntry(id), Binary, 1);
      } else if !IconResolves(candidate.icons.Keys, source.state.icon) {
        Report(OfEntry(id), CustomIcon, 1);
      } else if source.parent !in candidate.groups {
        Report(OfEntry(id), GroupDeleteVsDescendantChange, 1);
      } else {
        EntryNewAdded(base, local, remote, lib, before, start, done, id);
        candidate := AddEntry(candidate, source.parent, id, source);
      }
      EntryNew(base, local, remote, lib, before, start, done, id, conflicts);
      NewEntryReported(base, local, remote, lib, conflicts, id);
    }

    method JudgeEntry(id: Id, ghost start: Database, ghost done: set<Id>) returns (ok: bool)
      requires Sound() && AtEntries(start, done) && id !in done
      modifies this
      ensures SameHeader(candidate, old(candidate)) && Sound()
      ensures old(conflicts) <= conflicts && (ok <==> EntryInAll(base, local, remote, id) ==> id in start.entries)
      ensures ok ==> AtEntries(start, done + {id})
      ensures ok ==> EntryReported(base, local, remote, lib, conflicts, id)
    {
      ok := true;
      if id in base.entries && id in local.entries && id in remote.entries {
        ok := MergeExistingEntry(id, start, done);
      } else if id !in base.entries && id !in local.entries && id in remote.entries && id !in local.deleted {
        AddRemoteEntry(id, start, done);
      } else {
        SettleEntry(id, start, done);
      }
    }

    /** An entry that some input does not have, and that is not new. */
    method SettleEntry(id: Id, ghost start: Database, ghost done: set<Id>)
      requires Sound() && AtEntries(start, done) && id !in done && !EntryInAll(base, local, remote, id)
      requires !NewEntry(base, local, remote, id)
      modifies this
      ensures SameHeader(candidate, old(candidate))
      ensures Sound() && old(conflicts) <= conflicts && AtEntries(start, done + {id})
      ensures EntryReported(base, local, remote, lib, conflicts, id)
    {
      ghost var before := Now();
      var drop := SortEntry(id);
      if drop && id in candidate.entries {
        EntryDropped(base, local, remote, lib, before, start, done, id, conflicts);
        candidate := RemoveEntry(candidate, id);
      } else {
        SilentAgrees(base, local, remote, lib, id);
        EntrySkipped(base, local, remote, lib, before, start, done, id, conflicts);
      }
    }

    /** Reports what stands against leaving out such an entry; `drop` is a remote deletion. */
    method SortEntry(id: Id) returns (drop: bool)
      requires Sound() && !EntryInAll(base, local, remote, id) && !NewEntry(base, local, remote, id)
      modifies this`conflicts
      ensures Sound() && old(conflicts) <= conflicts
      ensures drop ==> id in base.entries && id in local.entries && id !in remote.entries
      ensures EntryReported(base, local, remote, lib, conflicts, id)
      ensures conflicts == [] && id in base.entries && id in local.entries ==> drop
    {
      drop := false;
      if id in base.entries && id in local.entries {
        if id !in remote.deleted {
          Report(OfEntry(id), UnsupportedSemantic, 1);
        } else if local.entries[id] == base.entries[id] {
          drop := true;
        } else {
          Report(OfEntry(id), DeleteVsModify, 1);
        }
      } else if id in base.entries && id in remote.entries {
        if id !in local.deleted {
          Report(OfEntry(id), UnsupportedSemantic, 1);
        } else if remote.entries[id] != base.entries[id] {
          Report(OfEntry(id), DeleteVsModify, 1);
        }
      } else if id in base.entries {
      } else if id in local.entries && id in remote.entries {
        if id in base.deleted || local.entries[id] != remote.entries[id] {
          Report(OfEntry(id), UuidCollision, 1);
        }
      } else if id in remote.entries {
        Report(OfEntry(id), UuidCollision, 1);
      } else if id in local.entries && id in remote.deleted {
        Report(OfEntry(id), UuidCollision, 1);
      }
      MissingEntryReported(base, local, remote, lib, conflicts, id);
    }

    method MergeEntries() returns (ok: bool)
      requires Sound() && AtEntries(candidate, {})
      modifies this
      ensures SameHeader(candidate, old(candidate)) && Sound()
      ensures old(conflicts) <= conflicts
      ensures ok <==> forall e :: EntryInAll(base, local, remote, e) ==> e in old(candidate.entries)
      ensures ok ==> AtEntries(old(candidate), KnownEntries(base, local, remote))
      ensures ok ==>
                forall e :: e in KnownEntries(base, local, remote) ==> EntryReported(base, local, remote, lib, conflicts, e)
    {
      ghost var start := candidate;
      var all := KnownEntries(base, local, remote);
      var rest := all;
      ghost var done: set<Id> := {};
      while rest != {}
        invariant Sound() && old(conflicts) <= conflicts && AtEntries(start, done)
        invariant SameHeader(candidate, old(candidate))
        invariant rest + done == all && rest !! done
        invariant forall e :: e in done && EntryInAll(base, local, remote, e) ==> e in start.entries
        invariant forall e :: e in done ==> EntryReported(base, local, remote, lib, conflicts, e)
        decreases rest
      {
        var id := Least(rest);
        ghost var told := conflicts;
        ok := JudgeEntry(id, start, done);
        StillReported(base, local, remote, lib, told, conflicts);
        if !ok {
          return;
        }
        rest, done := rest - {id}, done + {id};
      }
      assert done == all;
      ok := true;
    }

    // -------------------------------------------------------------- the rest of the database

    /** The latest deletion stamp that any input gives for `id`. */
    function LatestDeletion(id: Id): (t: Time)
      ensures LatestStamp(id, base.deleted, local.deleted, remote.deleted, t)
    {
      var of := (d: map<Id, Time>) => if id in d then d[id] else None;
      Latest(of(base.deleted), Latest(of(local.deleted), of(remote.deleted)))
    }

    method MergeTombstones()
      requires candidate.deleted == local.deleted
      modifies this`candidate
      ensures candidate == old(candidate).(deleted := candidate.deleted)
      ensures candidate.deleted.Keys == base.deleted.Keys + local.deleted.Keys + remote.deleted.Keys
      ensures forall id :: id in candidate.deleted ==>
                LatestStamp(id, base.deleted, local.deleted, remote.deleted, candidate.deleted[id])
    {
      var all := base.deleted.Keys + local.deleted.Keys + remote.deleted.Keys;
      var deleted := candidate.deleted;
      var rest := all;
      while rest != {}
        invariant rest <= all && deleted.Keys == local.deleted.Keys + (all - rest)
        invariant forall id :: id in all - rest ==> deleted[id] == LatestDeletion(id)
        decreases rest
      {
        var id :| id in rest;
        deleted, rest := deleted[id := LatestDeletion(id)], rest - {id};
      }
      candidate := candidate.(deleted := deleted);
    }

    method MergeMetadata()
      requires Sound()
      modifies this
      ensures Sound() && old(conflicts) <= conflicts
      ensures candidate == old(candidate).(meta := candidate.meta)
      ensures MetaClash(base.meta, local.meta, remote.meta) ==> Told(OfDatabase, Metadata)
      ensures conflicts == [] ==> PicksMeta(base.meta, local.meta, remote.meta, candidate.meta)
    {
      var b, l, r := base.meta, local.meta, remote.meta;
      var customData, clashes := MergeNamedMap(b.customData, l.customData, r.customData);
      ClashingKey(b.customData, l.customData, r.customData, clashes);
      Report(OfDatabase, Metadata,
                     Clash(b.recycleBinEnabled, l.recycleBinEnabled, r.recycleBinEnabled)
                     + Clash(b.recycleBinUuid, l.recycleBinUuid, r.recycleBinUuid)
                     + Clash(b.historyMaxItems, l.historyMaxItems, r.historyMaxItems) + |clashes|);
      candidate := candidate.(meta := Meta(
        OrLocal(b.recycleBinEnabled, l.recycleBinEnabled, r.recycleBinEnabled),
        OrLocal(b.recycleBinUuid, l.recycleBinUuid, r.recycleBinUuid),
        OrLocal(b.historyMaxItems, l.historyMaxItems, r.historyMaxItems), customData));
    }

    method JudgeIcon(id: Id)
      requires Sound()
      modifies this`conflicts
      ensures Sound() && old(conflicts) <= conflicts && IconReported(base, local, remote, conflicts, id)
    {
      if id in base.icons && id in local.icons && id in remote.icons {
        ReportIcon(id, CustomIcon, ChooseThreeWay(base.icons[id], local.icons[id], remote.icons[id]).None?);
      } else if id in base.icons && id in local.icons {
        ReportIcon(id, UnsupportedSemantic, id !in remote.deleted);
        ReportIcon(id, DeleteVsModify, id in remote.deleted && local.icons[id] != base.icons[id]);
      } else if id in base.icons && id in remote.icons {
        ReportIcon(id, UnsupportedSemantic, id !in local.deleted);
        ReportIcon(id, DeleteVsModify, id in local.deleted && remote.icons[id] != base.icons[id]);
      } else if id in base.icons {
      } else if id in local.icons && id in remote.icons {
        ReportIcon(id, UuidCollision, id in base.deleted || local.icons[id] != remote.icons[id]);
      } else if id in remote.icons {
        ReportIcon(id, if id in local.deleted then UuidCollision else UnsupportedSemantic, true);
      } else if id in local.icons {
        ReportIcon(id, UuidCollision, id in remote.deleted);
      }
    }

    method ReportIcon(id: Id, kind: ConflictKind, found: bool)
      requires Sound() && (found ==> IconJustified(base, local, remote, id, kind))
      modifies this`conflicts
      ensures Sound() && old(conflicts) <= conflicts && (found ==> Told(OfDatabase, kind))
    {
      Report(OfDatabase, kind, if found then 1 else 0);
    }

    /** The icon table, with or without conflicts: LOCAL's picks, without what REMOTE alone deleted. */
    method MergeIcons()
      requires Sound() && candidate.icons == local.icons
      modifies this
      ensures Sound() && old(conflicts) <= conflicts
      ensures candidate == old(candidate).(icons := MergedIcons(base, local, remote))
      ensures forall x :: x in KnownIcons(base, local, remote) ==> IconReported(base, local, remote, conflicts, x)
    {
      var icons: map<Id, string> := local.icons;
      var rest := KnownIcons(base, local, remote);
      while rest != {}
        invariant Sound() && old(conflicts) <= conflicts && candidate == old(candidate)
        invariant IconsSoFar(base, local, remote, icons, rest)
        invariant forall x :: x in KnownIcons(base, local, remote) - rest ==>
                    IconReported(base, local, remote, conflicts, x)
        decreases rest
      {
        var id := Least(rest);
        ghost var told := conflicts;
        JudgeIcon(id);
        StillReported(base, local, remote, lib, told, conflicts);
        IconStep(base, local, remote, icons, rest, id);
        if IconInAll(base, local, remote, id) {
          icons := icons[id := OrLocal(base.icons[id], local.icons[id], remote.icons[id])];
        } else if IconDropped(base, local, remote, id) {
          icons := icons - {id};
        }
        rest := rest - {id};
      }
      IconsMerged(base, local, remote, icons);
      candidate := candidate.(icons := icons);
    }

    /** Roots, identities, metadata and icons: the checks before the tree passes. */
    method MergeHeader()
      requires Sound() && candidate == local
      modifies this
      ensures Sound() && old(conflicts) <= conflicts
      ensures candidate == local.(meta := candidate.meta, icons := MergedIcons(base, local, remote))
      ensures DatabaseReported(base, local, remote, conflicts)
      ensures conflicts == [] ==> PicksMeta(base.meta, local.meta, remote.meta, candidate.meta)
    {
      if local.root != base.root || remote.root != base.root {
        Report(OfDatabase, HierarchyCycle, 1);
      }
      ReportCollidingIdentities(base);
      ReportCollidingIdentities(local);
      ReportCollidingIdentities(remote);
      MergeMetadata();
      MergeIcons();
      HeaderReported(base, local, remote, lib, conflicts);
    }

    method ReportCollidingIdentities(db: Database)
      requires Sound() && (db == base || db == local || db == remote)
      modifies this`conflicts
      ensures Sound() && old(conflicts) <= conflicts
      ensures !DistinctIds(db) ==> Told(OfDatabase, UuidCollision)
    {
      var live: set<Id> := {};
      var entriesOk, groupsOk, iconsOk;
      entriesOk, live := InsertLive(live, db.entries.Keys, db.deleted.Keys);
      groupsOk, live := InsertLive(live, db.groups.Keys, db.deleted.Keys);
      iconsOk, live := InsertLive(live, db.icons.Keys, db.deleted.Keys);
      if !entriesOk || !groupsOk || !iconsOk {
        Report(OfDatabase, UuidCollision, 1);
      }
    }

    /** Walks every group's parents once more. The passes keep them free of cycles, conflicts or not,
        so this check never adds a conflict. */
    method ValidateFinalHierarchy()
      requires Sound() && Acyclic(candidate)
      modifies this`conflicts
      ensures conflicts == old(conflicts)
    {
      var rest := candidate.groups.Keys;
      while rest != {}
        invariant conflicts == old(conflicts) && rest <= candidate.groups.Keys
        decreases rest
      {
        var id := Least(rest);
        var cyclic := ReturnsToItself(candidate.groups, id);
        assert Ends(candidate.groups, id);
        Report(OfGroup(id), HierarchyCycle, if cyclic then 1 else 0);
        Report(OfGroup(id), HierarchyCycle, if id == candidate.root && candidate.groups[id].parent.Some? then 1 else 0);
        rest := rest - {id};
      }
    }

    /** The passes over header, groups and entries. */
    method MergeObjects() returns (ok: bool, ghost start: Work)
      requires Trees(base, local, remote) && candidate == local && conflicts == []
      modifies this
      ensures SameHeader(candidate, local.(meta := candidate.meta, icons := MergedIcons(base, local, remote)))
      ensures Sound() && (ok <==> !AnyTaken(base, local, remote, lib))
      ensures !Diverges(base, local, remote, lib) ==>
                (AnyTaken(base, local, remote, lib) <==> Stranded(base, local, remote))
      ensures ok ==> forall c :: c in conflicts <==> Justified(base, local, remote, lib, c)
      ensures ok ==> (conflicts != [] <==> Diverges(base, local, remote, lib))
      ensures GroupsDone(base, local, remote, lib, start) && start.told <= conflicts
      ensures start.candidate.root == local.root
      ensures ok ==> EntryStage(base, local, remote, lib, Now(), start.candidate, KnownEntries(base, local, remote))
      ensures conflicts == [] ==> PicksMeta(base.meta, local.meta, remote.meta, candidate.meta)
    {
      MergeHeader();
      ghost var header := conflicts;
      StartGroups(base, local, remote, Now());
      MergeGroups();
      start := Now();
      StartEntries(base, local, remote, lib, start);
      ok := MergeEntries();
      if conflicts != [] {
        assert conflicts[0] in conflicts;
      }
      if ok {
        EverythingReported(base, local, remote, lib, header, start.told, conflicts);
      }
    }

    /** All passes in order; false is a broken sync invariant. In every run the passes fail if and only
        if an entry went with a deleted group, and otherwise the conflicts are exactly those that the
        inputs justify. */
    method Run() returns (ok: bool)
      requires Trees(base, local, remote) && candidate == local && conflicts == []
      modifies this
      ensures Sound()
      ensures ok <==> !AnyTaken(base, local, remote, lib)
      ensures ok ==> forall c :: c in conflicts <==> Justified(base, local, remote, lib, c)
      ensures !Diverges(base, local, remote, lib) ==>
                (AnyTaken(base, local, remote, lib) <==> Stranded(base, local, remote))
      ensures ok && conflicts == [] ==>
                && IsMergeOf(None, base, local, remote, candidate)
                && MergedTables(base, local, remote, candidate)
                && (Valid(candidate) <==> Fits(base, local, remote, lib))
    {
      ghost var start;
      ok, start := MergeObjects();
      if !ok {
        return;
      }
      ghost var merged := Now();
      MergeTombstones();
      StillAcyclic(base, local, remote, lib, start, merged, candidate);
      ValidateFinalHierarchy();
      if conflicts == [] {
        FinishRun(base, local, remote, lib, start, merged, candidate);
        FinishValidation(base, local, remote, lib, start.candidate, merged, candidate);
        IconTableMerged(base, local, remote, lib, candidate);
      }
    }
  }

  /** The first identity in the order in which the merge visits them. */
  method Least(s: set<Id>) returns (x: Id)
    requires s != {}
    ensures x in s && forall y :: y in s ==> x <= y
  {
    x :| x in s;
    var rest := s - {x};
    while rest != {}
      invariant rest <= s && x in s && forall y :: y in s && y !in rest ==> x <= y
      decreases rest
    {
      var y :| y in rest;
      x, rest := if y < x then y else x, rest - {y};
    }
  }

  lemma NeverEnds(groups: map<Id, Group>, g: Id, i: nat, j: nat)
    requires i < j && Climb(groups, g, i).Some? && Climb(groups, g, i) == Climb(groups, g, j)
    ensures !Ends(groups, g)
  {
    forall n: nat ensures Climb(groups, g, n).Some? {
      if Climb(groups, g, n) == None {
        EndsInjective(groups, g, n, i, j);
      }
    }
  }

  method ReturnsToItself(groups: map<Id, Group>, g: Id) returns (cyclic: bool)
    ensures cyclic ==>
              exists i: nat, j: nat :: i < j && Climb(groups, g, i).Some? && Climb(groups, g, i) == Climb(groups, g, j)
    ensures !cyclic <==> Ends(groups, g)
  {
    var seen: set<Id> := {};
    var current := Some(g);
    ghost var path: seq<Id> := [];
    while current.Some?
      invariant current == Climb(groups, g, |path|)
      invariant forall i :: 0 <= i < |path| ==> Climb(groups, g, i) == Some(path[i])
      invariant seen <= groups.Keys && forall x :: x in seen ==> x in path
      decreases groups.Keys - seen, current.Some?
    {
      var id := current.value;
      if id in seen {
        ghost var i :| 0 <= i < |path| && path[i] == id;
        NeverEnds(groups, g, i, |path|);
        return true;
      }
      path := path + [id];
      current := if id in groups then groups[id].parent else None;
      seen := if id in groups then seen + {id} else seen;
    }
    cyclic := false;
  }
}

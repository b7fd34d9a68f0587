/** What conflicts say about the inputs: which additions never find their parent, that each conflict
    shows a divergence, and that equal inputs show none. */
module ConflictLemmas {
  import opened Vault
  import opened ThreeWay
  import opened MergeSpec
  import opened MergeLemmas
  import opened Divergence

  // ---------------------------------------------------------------- stuck additions

  /** `added` are in the candidate below something that is, and every other addition is pending, or
      has no parent to go below. */
  predicate Tracked(b: Database, l: Database, r: Database, pending: set<Id>, added: set<Id>)
  {
    && pending + added <= Addable(b, l, r) && pending !! added
    && (forall y :: y in added ==> r.groups[y].parent.Some? && r.groups[y].parent.value in l.groups.Keys + added)
    && (forall y :: y in Addable(b, l, r) ==> y in added || y in pending || r.groups[y].parent.None?)
  }

  predicate MissesParent(r: Database, present: set<Id>, y: Id)
  {
    y in r.groups && r.groups[y].parent.Some? && r.groups[y].parent.value !in present
  }

  /** Nothing is left to do: every pending addition misses its parent. */
  predicate Stuck(b: Database, l: Database, r: Database, pending: set<Id>, added: set<Id>)
  {
    && Tracked(b, l, r, pending, added)
    && forall y :: y in pending ==> MissesParent(r, l.groups.Keys + added, y)
  }

  lemma BlockedStep(b: Database, l: Database, r: Database, x: Id, p: Id, n: nat)
    requires x in RemoteAdded(b, l, r) && r.groups[x].parent == Some(p) && BlockedAt(b, l, r, p, n)
    ensures BlockedAt(b, l, r, x, n + 1)
  {
    assert Climb(r.groups, x, 0) == Some(x) && Climb(r.groups, x, 1) == Some(p);
    ClimbAdd(r.groups, x, 1, p, n);
    forall m: nat | m < n + 1
      ensures Climb(r.groups, x, m).Some? && Climb(r.groups, x, m).value in RemoteAdded(b, l, r)
    {
      if m > 0 {
        ClimbAdd(r.groups, x, 1, p, m - 1);
      }
    }
  }

  lemma BlockedByParent(b: Database, l: Database, r: Database, x: Id, p: Id)
    requires x in RemoteAdded(b, l, r) && r.groups[x].parent == Some(p) && Unattached(b, l, r, p)
    ensures Blocked(b, l, r, x)
  {
    assert Climb(r.groups, x, 0) == Some(x) && Climb(r.groups, x, 1) == Some(p);
    assert BlockedAt(b, l, r, x, 1);
  }

  lemma {:induction false} StuckIsBlocked(b: Database, l: Database, r: Database, pending: set<Id>, added: set<Id>,
                                          x: Id, h: nat)
    requires ValidTree(r) && Stuck(b, l, r, pending, added) && x in pending && Climb(r.groups, x, h) == Some(r.root)
    ensures Blocked(b, l, r, x)
    decreases h
  {
    var p := r.groups[x].parent.value;
    ParentListed(r, x);
    assert Climb(r.groups, x, 0) == Some(x) && Climb(r.groups, x, 1) == Some(p);
    if Unattached(b, l, r, p) {
      BlockedByParent(b, l, r, x, p);
    } else {
      assert p in pending;
      ClimbAdd(r.groups, x, 1, p, h - 1);
      StuckIsBlocked(b, l, r, pending, added, p, h - 1);
      var n: nat :| BlockedAt(b, l, r, p, n);
      BlockedStep(b, l, r, x, p, n);
    }
  }

  lemma StuckBlocked(b: Database, l: Database, r: Database, pending: set<Id>, added: set<Id>, x: Id)
    requires ValidTree(r) && Stuck(b, l, r, pending, added) && x in pending
    ensures Blocked(b, l, r, x)
  {
    assert ReachesRoot(r, x);
    var h: nat :| Climb(r.groups, x, h) == Some(r.root);
    StuckIsBlocked(b, l, r, pending, added, x, h);
  }

  /** Every addition is in place or blocked: one whose parent arrives is never left behind. */
  lemma AbsentIsBlocked(b: Database, l: Database, r: Database, pending: set<Id>, added: set<Id>, x: Id)
    requires ValidTree(r) && Stuck(b, l, r, pending, added) && x in RemoteAdded(b, l, r) && x !in added
    ensures Blocked(b, l, r, x)
  {
    if x in pending {
      StuckBlocked(b, l, r, pending, added, x);
    } else {
      assert Climb(r.groups, x, 0) == Some(x);
      assert Unattached(b, l, r, x);
      assert BlockedAt(b, l, r, x, 0);
    }
  }

  /** ... and one that is in place was not blocked: above it, all is in place. */
  lemma {:induction false} AboveAdded(b: Database, l: Database, r: Database, pending: set<Id>, added: set<Id>, x: Id,
                                      n: nat)
    requires Tracked(b, l, r, pending, added) && x in added
    requires forall m: nat :: m < n ==>
               Climb(r.groups, x, m).Some? && Climb(r.groups, x, m).value in RemoteAdded(b, l, r)
    requires Climb(r.groups, x, n).Some?
    ensures Climb(r.groups, x, n).value in l.groups.Keys + added
  {
    if n > 0 {
      AboveAdded(b, l, r, pending, added, x, n - 1);
    }
  }

  lemma PresentNotBlocked(b: Database, l: Database, r: Database, pending: set<Id>, added: set<Id>, x: Id)
    requires Tracked(b, l, r, pending, added) && x in added
    ensures !Blocked(b, l, r, x)
  {
    forall n: nat ensures !BlockedAt(b, l, r, x, n) {
      if BlockedAt(b, l, r, x, n) {
        AboveAdded(b, l, r, pending, added, x, n);
      }
    }
  }

  /** A finished pass has added exactly the groups that find their place. */
  lemma AddedIsArriving(b: Database, l: Database, r: Database, pending: set<Id>, added: set<Id>)
    requires ValidTree(r) && Stuck(b, l, r, pending, added)
    ensures added == Arriving(b, l, r)
  {
    forall x ensures x in added <==> x in Arriving(b, l, r) {
      if x in added {
        PresentNotBlocked(b, l, r, pending, added, x);
      } else if x in RemoteAdded(b, l, r) {
        AbsentIsBlocked(b, l, r, pending, added, x);
      }
    }
  }

  // ---------------------------------------------------------------- everything justified is reported

  ghost predicate GroupReported(b: Database, l: Database, r: Database, lib: Library, told: seq<Conflict>, x: Id)
  {
    forall kind :: GroupJustified(b, l, r, lib, x, kind) ==> Conflict(OfGroup(x), kind) in told
  }

  ghost predicate EntryReported(b: Database, l: Database, r: Database, lib: Library, told: seq<Conflict>, e: Id)
  {
    forall kind :: EntryJustified(b, l, r, lib, e, kind) ==> Conflict(OfEntry(e), kind) in told
  }

  ghost predicate IconReported(b: Database, l: Database, r: Database, told: seq<Conflict>, x: Id)
  {
    forall kind :: IconJustified(b, l, r, x, kind) ==> Conflict(OfDatabase, kind) in told
  }

  ghost predicate DatabaseReported(b: Database, l: Database, r: Database, told: seq<Conflict>)
  {
    forall kind :: DatabaseJustified(b, l, r, kind) ==> Conflict(OfDatabase, kind) in told
  }

  /** Nothing is reported of an identity that no input has, and nothing is justified. */
  lemma UnknownIsReported(b: Database, l: Database, r: Database, lib: Library, told: seq<Conflict>, x: Id)
    ensures x !in KnownGroups(b, l, r) ==> GroupReported(b, l, r, lib, told, x)
    ensures x !in KnownEntries(b, l, r) ==> EntryReported(b, l, r, lib, told, x)
    ensures x !in KnownIcons(b, l, r) ==> IconReported(b, l, r, told, x)
  {
  }

  lemma HeaderReported(b: Database, l: Database, r: Database, lib: Library, told: seq<Conflict>)
    requires l.root != b.root || r.root != b.root ==> Conflict(OfDatabase, HierarchyCycle) in told
    requires !DistinctIds(b) || !DistinctIds(l) || !DistinctIds(r) ==> Conflict(OfDatabase, UuidCollision) in told
    requires MetaClash(b.meta, l.meta, r.meta) ==> Conflict(OfDatabase, Metadata) in told
    requires forall x :: x in KnownIcons(b, l, r) ==> IconReported(b, l, r, told, x)
    ensures DatabaseReported(b, l, r, told)
  {
    forall kind | DatabaseJustified(b, l, r, kind) ensures Conflict(OfDatabase, kind) in told {
      if x :| IconJustified(b, l, r, x, kind) {
        UnknownIsReported(b, l, r, lib, told, x);
        assert IconReported(b, l, r, told, x);
      }
    }
  }

  lemma StillReported(b: Database, l: Database, r: Database, lib: Library, told: seq<Conflict>, more: seq<Conflict>)
    requires told <= more
    ensures forall x :: GroupReported(b, l, r, lib, told, x) ==> GroupReported(b, l, r, lib, more, x)
    ensures forall x :: EntryReported(b, l, r, lib, told, x) ==> EntryReported(b, l, r, lib, more, x)
    ensures forall x :: IconReported(b, l, r, told, x) ==> IconReported(b, l, r, more, x)
    ensures DatabaseReported(b, l, r, told) ==> DatabaseReported(b, l, r, more)
  {
    forall c | c in told ensures c in more {
    }
  }

  /** Silence about a reported object means that the inputs agree on it. */
  lemma SilentAgrees(b: Database, l: Database, r: Database, lib: Library, x: Id)
    ensures GroupReported(b, l, r, lib, [], x) ==> GroupAgrees(b, l, r, lib, x)
    ensures EntryReported(b, l, r, lib, [], x) ==> EntryAgrees(b, l, r, lib, x)
  {
    if GroupReported(b, l, r, lib, [], x) {
      forall kind ensures !GroupJustified(b, l, r, lib, x, kind) {
        assert Conflict(OfGroup(x), kind) !in [];
      }
    }
    if EntryReported(b, l, r, lib, [], x) {
      forall kind ensures !EntryJustified(b, l, r, lib, x, kind) {
        assert Conflict(OfEntry(x), kind) !in [];
      }
    }
  }

  ghost predicate AllReported(b: Database, l: Database, r: Database, lib: Library, told: seq<Conflict>)
  {
    && DatabaseReported(b, l, r, told)
    && (forall x :: GroupReported(b, l, r, lib, told, x))
    && forall e :: EntryReported(b, l, r, lib, told, e)
  }

  lemma ReportedExactly(b: Database, l: Database, r: Database, lib: Library, told: seq<Conflict>)
    requires AllReported(b, l, r, lib, told) && forall c :: c in told ==> Justified(b, l, r, lib, c)
    ensures forall c :: c in told <==> Justified(b, l, r, lib, c)
    ensures told != [] <==> Diverges(b, l, r, lib)
  {
    forall c | Justified(b, l, r, lib, c) ensures c in told {
      match c.subject
      case OfGroup(x) =>
        assert GroupReported(b, l, r, lib, told, x);
        assert c == Conflict(OfGroup(x), c.kind);
      case OfEntry(e) =>
        assert EntryReported(b, l, r, lib, told, e);
        assert c == Conflict(OfEntry(e), c.kind);
      case OfDatabase =>
        assert c == Conflict(OfDatabase, c.kind);
    }
    if told != [] {
      assert told[0] in told;
    }
  }

  ghost predicate GroupReportedAs(b: Database, l: Database, r: Database, lib: Library, told: seq<Conflict>, x: Id,
                                  kinds: set<ConflictKind>)
  {
    forall kind :: kind in kinds && GroupJustified(b, l, r, lib, x, kind) ==> Conflict(OfGroup(x), kind) in told
  }

  ghost predicate EntryReportedAs(b: Database, l: Database, r: Database, lib: Library, told: seq<Conflict>, e: Id,
                                  kinds: set<ConflictKind>)
  {
    forall kind :: kind in kinds && EntryJustified(b, l, r, lib, e, kind) ==> Conflict(OfEntry(e), kind) in told
  }

  lemma GroupRecordReported(b: Database, l: Database, r: Database, lib: Library, told: seq<Conflict>, x: Id)
    requires InAll(b, l, r, x)
    requires ChooseThreeWay(b.groups[x].parent, l.groups[x].parent, r.groups[x].parent).None? ==>
               Conflict(OfGroup(x), MoveVsMove) in told
    requires GroupUnsupported(b, l, r, lib, x) ==> Conflict(OfGroup(x), UnsupportedSemantic) in told
    requires GroupMetaClash(b.groups[x], l.groups[x], r.groups[x]) ==> Conflict(OfGroup(x), Metadata) in told
    ensures GroupReportedAs(b, l, r, lib, told, x, {MoveVsMove, UnsupportedSemantic, Metadata})
  {
  }

  lemma EntryRecordReported(b: Database, l: Database, r: Database, lib: Library, told: seq<Conflict>, e: Id)
    requires EntryInAll(b, l, r, e)
    requires ChooseThreeWay(b.entries[e].parent, l.entries[e].parent, r.entries[e].parent).None? ==>
               Conflict(OfEntry(e), MoveVsMove) in told
    requires EntryUnsupported(b, l, r, e) ==> Conflict(OfEntry(e), UnsupportedSemantic) in told
    requires FieldsClash(b.entries[e].state, l.entries[e].state, r.entries[e].state) ==>
               Conflict(OfEntry(e), FieldEdit) in told
    requires MapClash(b.entries[e].state.attachments, l.entries[e].state.attachments, r.entries[e].state.attachments) ==>
               Conflict(OfEntry(e), Binary) in told
    requires MergedHistory(b.entries[e].history, l.entries[e].history, r.entries[e].history).None? ==>
               Conflict(OfEntry(e), HistoryConflict) in told
    ensures EntryReportedAs(b, l, r, lib, told, e, {MoveVsMove, UnsupportedSemantic, FieldEdit, Binary, HistoryConflict})
  {
  }

  /** A group of all three inputs, by its kinds of conflict. */
  lemma KnownGroupReported(b: Database, l: Database, r: Database, lib: Library, before: seq<Conflict>,
                           told: seq<Conflict>, x: Id)
    requires InAll(b, l, r, x) && before <= told
    requires GroupReportedAs(b, l, r, lib, before, x, {MoveVsMove, UnsupportedSemantic, Metadata, CustomIcon})
    requires MoveRefused(b, l, r, x) ==> Conflict(OfGroup(x), HierarchyCycle) in told
    ensures GroupReported(b, l, r, lib, told, x)
  {
    forall c | c in before ensures c in told {
    }
  }

  /** A group that some input lacks and that is not to be added. */
  lemma MissingGroupReported(b: Database, l: Database, r: Database, lib: Library, told: seq<Conflict>, x: Id)
    requires !InAll(b, l, r, x) && x !in Addable(b, l, r)
    requires GroupJustified(b, l, r, lib, x, DeleteVsModify) ==> Conflict(OfGroup(x), DeleteVsModify) in told
    requires GroupJustified(b, l, r, lib, x, UuidCollision) ==> Conflict(OfGroup(x), UuidCollision) in told
    requires GroupJustified(b, l, r, lib, x, UnsupportedSemantic) ==> Conflict(OfGroup(x), UnsupportedSemantic) in told
    ensures GroupReported(b, l, r, lib, told, x)
  {
  }

  lemma KnownEntryReported(b: Database, l: Database, r: Database, lib: Library, before: seq<Conflict>,
                           told: seq<Conflict>, e: Id)
    requires EntryInAll(b, l, r, e) && before <= told
    requires EntryReportedAs(b, l, r, lib, before, e, {MoveVsMove, UnsupportedSemantic, FieldEdit, Binary, HistoryConflict})
    requires IconClash(MergedIcons(b, l, r).Keys, b.entries[e].state.icon, l.entries[e].state.icon, r.entries[e].state.icon) ==>
               Conflict(OfEntry(e), CustomIcon) in told
    requires (&& MergedEntryParent(b, l, r, e) != l.entries[e].parent
              && !Stands(b, l, r, lib, MergedEntryParent(b, l, r, e))) ==> Conflict(OfEntry(e), HierarchyCycle) in told
    ensures EntryReported(b, l, r, lib, told, e)
  {
    forall c | c in before ensures c in told {
    }
    forall kind | EntryJustified(b, l, r, lib, e, kind) ensures Conflict(OfEntry(e), kind) in told {
      if kind in {MoveVsMove, UnsupportedSemantic, FieldEdit, Binary, HistoryConflict} {
        assert Conflict(OfEntry(e), kind) in before;
      }
    }
  }

  lemma NewEntryReported(b: Database, l: Database, r: Database, lib: Library, told: seq<Conflict>, e: Id)
    requires NewEntry(b, l, r, e)
    requires EntryJustified(b, l, r, lib, e, Binary) ==> Conflict(OfEntry(e), Binary) in told
    requires EntryJustified(b, l, r, lib, e, CustomIcon) ==> Conflict(OfEntry(e), CustomIcon) in told
    requires EntryJustified(b, l, r, lib, e, GroupDeleteVsDescendantChange) ==>
               Conflict(OfEntry(e), GroupDeleteVsDescendantChange) in told
    ensures EntryReported(b, l, r, lib, told, e)
  {
  }

  lemma MissingEntryReported(b: Database, l: Database, r: Database, lib: Library, told: seq<Conflict>, e: Id)
    requires !EntryInAll(b, l, r, e) && !NewEntry(b, l, r, e)
    requires EntryJustified(b, l, r, lib, e, DeleteVsModify) ==> Conflict(OfEntry(e), DeleteVsModify) in told
    requires EntryJustified(b, l, r, lib, e, UuidCollision) ==> Conflict(OfEntry(e), UuidCollision) in told
    requires EntryJustified(b, l, r, lib, e, UnsupportedSemantic) ==> Conflict(OfEntry(e), UnsupportedSemantic) in told
    ensures EntryReported(b, l, r, lib, told, e)
  {
  }

  /** Additions without a parent have been reported, unless they are still open. */
  ghost predicate RootlessReported(b: Database, l: Database, r: Database, told: seq<Conflict>, open: set<Id>)
  {
    forall y :: y in Addable(b, l, r) && y !in open && r.groups[y].parent.None? ==> Conflict(OfGroup(y), HierarchyCycle) in told
  }

  lemma AdditionsReported(b: Database, l: Database, r: Database, lib: Library, told: seq<Conflict>, orphans: set<Id>,
                          added: set<Id>)
    requires Stuck(b, l, r, orphans, added) && RootlessReported(b, l, r, told, orphans)
    requires forall y :: y in orphans ==> Conflict(OfGroup(y), GroupDeleteVsDescendantChange) in told
    ensures forall x :: x in Addable(b, l, r) ==> GroupReported(b, l, r, lib, told, x)
  {
    forall x, kind | x in Addable(b, l, r) && GroupJustified(b, l, r, lib, x, kind)
      ensures Conflict(OfGroup(x), kind) in told
    {
      if x in added {
        PresentNotBlocked(b, l, r, orphans, added, x);
      }
    }
  }

  // ---------------------------------------------------------------- clashing maps

  lemma ClashingKey<V(!new)>(b: map<string, V>, l: map<string, V>, r: map<string, V>, clashes: set<string>)
    requires forall key :: key in clashes <==> ChooseThreeWay(Lookup(b, key), Lookup(l, key), Lookup(r, key)).None?
    ensures |clashes| > 0 <==> MapClash(b, l, r)
  {
    if |clashes| > 0 {
      var key :| key in clashes;
    }
  }

  // ---------------------------------------------------------------- inputs that agree

  /** The inputs agree on every group but the additions, which are judged later. */
  ghost predicate KnownAgree(b: Database, l: Database, r: Database, lib: Library)
  {
    forall x :: x !in Addable(b, l, r) ==> GroupAgrees(b, l, r, lib, x)
  }

  lemma AgreeingInputsJudged(b: Database, l: Database, r: Database, lib: Library)
    requires KnownAgree(b, l, r, lib)
    ensures forall x :: GroupJudged(b, l, r, x)
    ensures Addable(b, l, r) == RemoteAdded(b, l, r) && Queued(b, l, r) == RemoteDeleted(b, l, r)
  {
    forall x | x !in Addable(b, l, r)
      ensures GroupJudged(b, l, r, x)
      ensures x in RemoteDeleted(b, l, r) ==> x in Queued(b, l, r)
      ensures x !in RemoteAdded(b, l, r) || x !in l.deleted
    {
      AgreeingGroup(b, l, r, lib, x);
    }
  }

  lemma AgreeingEntriesJudged(b: Database, l: Database, r: Database, lib: Library)
    requires forall e :: EntryAgrees(b, l, r, lib, e)
    ensures forall e :: EntryJudged(b, l, r, e)
  {
    forall e ensures EntryJudged(b, l, r, e) {
      AgreeingEntry(b, l, r, lib, e);
    }
  }

  /** Equal inputs show no divergence of any kind. */
  lemma EqualInputsAgree(b: Database, lib: Library)
    requires Valid(b)
    ensures !Diverges(b, b, b, lib)
  {
    forall c ensures !Justified(b, b, b, lib, c) {
      match c.subject
      case OfGroup(x) => EqualGroupsAgree(b, lib, x, c.kind);
      case OfEntry(e) => EqualEntriesAgree(b, lib, e, c.kind);
      case OfDatabase => EqualHeadersAgree(b, c.kind);
    }
  }

  lemma EqualGroupsAgree(b: Database, lib: Library, x: Id, kind: ConflictKind)
    requires IconsResolve(b)
    ensures !GroupJustified(b, b, b, lib, x, kind)
  {
    assert MergedIcons(b, b, b) == b.icons;
  }

  lemma EqualEntriesAgree(b: Database, lib: Library, e: Id, kind: ConflictKind)
    requires IconsResolve(b)
    ensures !EntryJustified(b, b, b, lib, e, kind)
  {
    assert MergedIcons(b, b, b) == b.icons;
    if e in b.entries {
      assert EntryIconsResolve(b.icons.Keys, b.entries[e]);
    }
  }

  lemma EqualHeadersAgree(b: Database, kind: ConflictKind)
    requires DistinctIds(b)
    ensures !DatabaseJustified(b, b, b, kind)
  {
    forall x ensures !IconJustified(b, b, b, x, kind) {
    }
  }
}

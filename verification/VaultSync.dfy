/** The three-way decision over opened documents: equivalence, fast-forwards, divergent merge. */
module VaultSync {
  import opened Vault
  import opened Validator
  import opened ThreeWay
  import opened HistoryPolicy
  import opened MergeSpec
  import opened MergeLemmas
  import opened Divergence
  import opened Merge

  datatype Version = Kdbx3(minor: nat) | Kdbx4(minor: nat)

  datatype Document = Document(version: Version, db: Database)

  datatype MergeError = VersionMismatch | InvalidInput | UnsupportedVersion | SyncInvariant

  datatype MergeOutcome =
    | Equivalent
    | FastForwardLocal
    | FastForwardRemote
    | Merged(document: Document)
    | Conflicted(conflicts: seq<Conflict>)
    | Failed(error: MergeError)

  /** A database always has its root group. */
  type RootedDocument = d: Document | d.db.root in d.db.groups
    witness Document(Kdbx4(1), Database(0, map[0 := Group(None, None, [], [],
      GroupProps("", None, [], map[], true, None, None, None), Times(None, None, None, None, None, None, None), None)],
      map[], map[], map[], Meta(None, None, None, map[])))

  predicate AllKdbx41(base: Document, local: Document, remote: Document)
  {
    base.version == local.version == remote.version == Kdbx4(1)
  }

  predicate EntrySemanticallyEqual(a: Entry, b: Entry)
  {
    a.parent == b.parent && a.state == b.state && SameHistory(a.history, b.history)
  }

  predicate DatabaseSemanticallyEqual(a: Database, b: Database)
  {
    && a.meta == b.meta && a.deleted == b.deleted && a.root == b.root && a.icons == b.icons && a.groups == b.groups
    && a.entries.Keys == b.entries.Keys
    && forall e :: e in a.entries ==> EntrySemanticallyEqual(a.entries[e], b.entries[e])
  }

  predicate SemanticallyEquals(a: Document, b: Document)
  {
    a.version == b.version && DatabaseSemanticallyEqual(a.db, b.db)
  }

  /** Semantic equality is an equivalence, so the order in which the shortcuts compare is harmless. */
  lemma SemanticEquivalence(a: Document, b: Document, c: Document)
    ensures SemanticallyEquals(a, a)
    ensures SemanticallyEquals(a, b) <==> SemanticallyEquals(b, a)
    ensures SemanticallyEquals(a, b) && SemanticallyEquals(b, c) ==> SemanticallyEquals(a, c)
  {
    if SemanticallyEquals(a, b) && SemanticallyEquals(b, c) {
      forall e | e in a.db.entries ensures EntrySemanticallyEqual(a.db.entries[e], c.db.entries[e]) {
        assert EntrySemanticallyEqual(a.db.entries[e], b.db.entries[e]);
        assert EntrySemanticallyEqual(b.db.entries[e], c.db.entries[e]);
      }
    }
  }

  /** The whole divergent merge of valid databases, with its outcome told by the inputs in every case.
      A document comes out if and only if the inputs do not diverge, strand no entry and fit; it is
      then valid, has exactly the live groups and entries of the live-set rule and every tombstone, and
      picks every value. Conflicts come out if and only if the inputs diverge and no entry goes with a
      deleted group, and they are then exactly those that the inputs justify. Otherwise the invariant
      breaks. */
  method MergeDivergent(base: RootedDocument, local: RootedDocument, remote: RootedDocument, lib: Library)
    returns (out: MergeOutcome)
    requires Valid(base.db) && Valid(local.db) && Valid(remote.db)
    ensures out.Merged? || out.Conflicted? || out == Failed(SyncInvariant)
    ensures out.Merged? <==> AllKdbx41(base, local, remote) && Mergeable(base.db, local.db, remote.db, lib)
    ensures out.Conflicted? <==>
              AllKdbx41(base, local, remote) && Diverges(base.db, local.db, remote.db, lib) && !AnyTaken(base.db, local.db, remote.db, lib)
    ensures out.Failed? <==> !AllKdbx41(base, local, remote) || Breaks(base.db, local.db, remote.db, lib)
    ensures out.Merged? ==>
              && out.document.version == local.version
              && Valid(out.document.db)
              && IsMergeOf(FiniteLimit(out.document.db.meta), base.db, local.db, remote.db, out.document.db)
              && MergedTables(base.db, local.db, remote.db, out.document.db)
    ensures out.Conflicted? ==>
              out.conflicts != [] && forall c :: c in out.conflicts <==> Justified(base.db, local.db, remote.db, lib, c)
  {
    if base.version != local.version || base.version != remote.version || base.version != Kdbx4(1) {
      return Failed(SyncInvariant);
    }
    var builder := new MergeBuilder(base.db, local.db, remote.db, lib);
    var ok := builder.Run();
    if !ok {
      return Failed(SyncInvariant);
    }
    if builder.conflicts != [] {
      assert builder.conflicts[0] in builder.conflicts;
      return Conflicted(builder.conflicts);
    }
    var candidate := builder.candidate;
    if candidate.root !in candidate.groups {
      return Failed(SyncInvariant);
    }
    var valid := DatabaseValidForSync(candidate);
    if !valid {
      return Failed(SyncInvariant);
    }
    var limit := FiniteLimit(candidate.meta);
    var pruned := PruneAllEntryHistory(candidate, limit);
    PrunedMerge(limit, base.db, local.db, remote.db, candidate);
    out := Merged(Document(local.version, pruned));
  }

  lemma PrunedMerge(limit: Option<nat>, b: Database, l: Database, r: Database, m: Database)
    requires Valid(m) && IsMergeOf(None, b, l, r, m) && MergedTables(b, l, r, m)
    ensures Valid(Pruned(limit, m)) && IsMergeOf(limit, b, l, r, Pruned(limit, m)) && MergedTables(b, l, r, Pruned(limit, m))
  {
    PrunedValid(limit, m);
    PruneMerge(limit, b, l, r, m);
  }

  method ValidateAll(base: RootedDocument, local: RootedDocument, remote: RootedDocument) returns (ok: bool)
    ensures ok <==> Valid(base.db) && Valid(local.db) && Valid(remote.db)
  {
    ok := DatabaseValidForSync(base.db);
    if ok {
      ok := DatabaseValidForSync(local.db);
    }
    if ok {
      ok := DatabaseValidForSync(remote.db);
    }
  }

  ghost predicate Comparable(base: Document, local: Document, remote: Document)
  {
    && base.version == local.version == remote.version
    && Valid(base.db) && Valid(local.db) && Valid(remote.db)
  }

  /** No shortcut decides. */
  ghost predicate NeedsMerge(base: Document, local: Document, remote: Document)
  {
    && Comparable(base, local, remote)
    && !SemanticallyEquals(local, remote) && !SemanticallyEquals(remote, base) && !SemanticallyEquals(local, base)
  }

  /** Everything a caller may rely on about the outcome of comparing three documents. */
  ghost predicate OutcomeAllowed(base: Document, local: Document, remote: Document, lib: Library, out: MergeOutcome)
  {
    && (out == Failed(VersionMismatch) <==> !(base.version == local.version == remote.version))
    && (out == Failed(InvalidInput) <==>
          base.version == local.version == remote.version && !(Valid(base.db) && Valid(local.db) && Valid(remote.db)))
    && (out == Equivalent <==> Comparable(base, local, remote) && SemanticallyEquals(local, remote))
    && (out == FastForwardLocal <==>
          Comparable(base, local, remote) && !SemanticallyEquals(local, remote) && SemanticallyEquals(remote, base))
    && (out == FastForwardRemote <==>
          Comparable(base, local, remote) && !SemanticallyEquals(local, remote) && SemanticallyEquals(local, base))
    && (out == Failed(UnsupportedVersion) <==> NeedsMerge(base, local, remote) && base.version != Kdbx4(1))
    && (out.Merged? <==>
          NeedsMerge(base, local, remote) && base.version == Kdbx4(1) && Mergeable(base.db, local.db, remote.db, lib))
    && (out.Conflicted? <==>
          && NeedsMerge(base, local, remote) && base.version == Kdbx4(1)
          && Diverges(base.db, local.db, remote.db, lib) && !AnyTaken(base.db, local.db, remote.db, lib))
    && (out == Failed(SyncInvariant) <==>
          NeedsMerge(base, local, remote) && base.version == Kdbx4(1) && Breaks(base.db, local.db, remote.db, lib))
    && (out.Merged? ==>
          && Valid(out.document.db)
          && IsMergeOf(FiniteLimit(out.document.db.meta), base.db, local.db, remote.db, out.document.db)
          && MergedTables(base.db, local.db, remote.db, out.document.db) && out.document.version == Kdbx4(1))
    && (out.Conflicted? ==>
          out.conflicts != [] && forall c :: c in out.conflicts <==> Justified(base.db, local.db, remote.db, lib, c))
  }

  /** No two vaults are merged that are not comparable, and none that need not be. */
  method MergeDocuments(base: RootedDocument, local: RootedDocument, remote: RootedDocument, lib: Library)
    returns (out: MergeOutcome)
    ensures OutcomeAllowed(base, local, remote, lib, out)
  {
    if base.version != local.version || base.version != remote.version {
      return Failed(VersionMismatch);
    }
    var valid := ValidateAll(base, local, remote);
    if !valid {
      return Failed(InvalidInput);
    }
    SemanticEquivalence(local, base, remote);
    SemanticEquivalence(remote, base, local);
    if SemanticallyEquals(local, remote) {
      return Equivalent;
    }
    if SemanticallyEquals(remote, base) {
      return FastForwardLocal;
    }
    if SemanticallyEquals(local, base) {
      return FastForwardRemote;
    }
    if base.version != Kdbx4(1) {
      return Failed(UnsupportedVersion);
    }
    out := MergeDivergent(base, local, remote, lib);
    DivergentAllowed(base, local, remote, lib, out);
  }

  /** Where no shortcut decides, what the divergent merge promises is what a caller may rely on. */
  lemma DivergentAllowed(base: Document, local: Document, remote: Document, lib: Library, out: MergeOutcome)
    requires NeedsMerge(base, local, remote) && base.version == Kdbx4(1)
    requires out.Merged? || out.Conflicted? || out == Failed(SyncInvariant)
    requires out.Merged? <==> Mergeable(base.db, local.db, remote.db, lib)
    requires out.Conflicted? <==>
               Diverges(base.db, local.db, remote.db, lib) && !AnyTaken(base.db, local.db, remote.db, lib)
    requires out.Failed? <==> Breaks(base.db, local.db, remote.db, lib)
    requires out.Merged? ==>
               && Valid(out.document.db) && out.document.version == Kdbx4(1)
               && IsMergeOf(FiniteLimit(out.document.db.meta), base.db, local.db, remote.db, out.document.db)
               && MergedTables(base.db, local.db, remote.db, out.document.db)
    requires out.Conflicted? ==>
               out.conflicts != [] && forall c :: c in out.conflicts <==> Justified(base.db, local.db, remote.db, lib, c)
    ensures OutcomeAllowed(base, local, remote, lib, out)
  {
  }

  // ---------------------------------------------------------------- symmetry

  predicate SameGroup(m: Group, n: Group)
  {
    m.parent == n.parent && m.props == n.props && m.icon == n.icon
  }

  predicate SameEntry(m: Entry, n: Entry)
  {
    && m.parent == n.parent
    && m.state.fields == n.state.fields && m.state.attachments == n.state.attachments
    && m.state.props == n.state.props && m.state.icon == n.state.icon
  }

  ghost predicate SameOutcomeFor(b: Database, l: Database, r: Database, m: Database, n: Database)
  {
    && m.groups.Keys == n.groups.Keys && m.entries.Keys == n.entries.Keys && m.deleted.Keys == n.deleted.Keys
    && (forall g :: g in m.groups && InAll(b, l, r, g) ==> SameGroup(m.groups[g], n.groups[g]))
    && (forall e :: e in m.entries && EntryInAll(b, l, r, e) ==> SameEntry(m.entries[e], n.entries[e]))
  }

  /** Whichever device runs it: if both argument orders merge, both give the same live objects and
      tombstones, and every object of all three inputs the same parent, fields, attachments,
      properties and icon. */
  lemma BothOrdersAgree(p: Option<nat>, q: Option<nat>, b: Database, l: Database, r: Database, m: Database, n: Database)
    requires IsMergeOf(p, b, l, r, m) && IsMergeOf(q, b, r, l, n)
    ensures SameOutcomeFor(b, l, r, m, n)
  {
    assert m.groups.Keys == n.groups.Keys && m.entries.Keys == n.entries.Keys && m.deleted.Keys == n.deleted.Keys;
    forall g | g in m.groups && InAll(b, l, r, g) ensures SameGroup(m.groups[g], n.groups[g]) {
      assert MergedGroup(b.groups[g], l.groups[g], r.groups[g], m.groups[g]);
      assert MergedGroup(b.groups[g], r.groups[g], l.groups[g], n.groups[g]);
      GroupsAgree(b.groups[g], l.groups[g], r.groups[g], m.groups[g], n.groups[g]);
    }
    forall e | e in m.entries && EntryInAll(b, l, r, e) ensures SameEntry(m.entries[e], n.entries[e]) {
      assert MergedEntry(p, b.entries[e], l.entries[e], r.entries[e], m.entries[e]);
      assert MergedEntry(q, b.entries[e], r.entries[e], l.entries[e], n.entries[e]);
      EntriesAgree(p, q, b.entries[e], l.entries[e], r.entries[e], m.entries[e], n.entries[e]);
    }
  }

  lemma GroupsAgree(b: Group, l: Group, r: Group, m: Group, n: Group)
    requires MergedGroup(b, l, r, m) && MergedGroup(b, r, l, n)
    ensures SameGroup(m, n)
  {
    ChooseSymmetric(b.parent, l.parent, r.parent);
    ChooseSymmetric(b.icon, l.icon, r.icon);
    assert PicksGroupProps(b.props, l.props, r.props, m.props) && PicksGroupProps(b.props, r.props, l.props, n.props);
  }

  lemma EntriesAgree(p: Option<nat>, q: Option<nat>, b: Entry, l: Entry, r: Entry, m: Entry, n: Entry)
    requires MergedEntry(p, b, l, r, m) && MergedEntry(q, b, r, l, n)
    ensures SameEntry(m, n)
  {
    PicksMapUnique(b.state.fields, l.state.fields, r.state.fields, m.state.fields, n.state.fields);
    PicksMapUnique(b.state.attachments, l.state.attachments, r.state.attachments, m.state.attachments,
                   n.state.attachments);
  }

  /** No edit is lost: a value that one side changed survives in every merge. */
  lemma EditsSurvive(limit: Option<nat>, b: Database, l: Database, r: Database, m: Database, e: Id, key: string)
    requires IsMergeOf(limit, b, l, r, m) && EntryInAll(b, l, r, e)
    ensures e in m.entries
    ensures Lookup(l.entries[e].state.fields, key) != Lookup(b.entries[e].state.fields, key) ==>
              Lookup(m.entries[e].state.fields, key) == Lookup(l.entries[e].state.fields, key)
    ensures Lookup(r.entries[e].state.fields, key) != Lookup(b.entries[e].state.fields, key) ==>
              Lookup(m.entries[e].state.fields, key) == Lookup(r.entries[e].state.fields, key)
    ensures l.entries[e].parent != b.entries[e].parent ==> m.entries[e].parent == l.entries[e].parent
    ensures r.entries[e].parent != b.entries[e].parent ==> m.entries[e].parent == r.entries[e].parent
  {
    assert e in LiveSet(b.entries.Keys, l.entries.Keys, r.entries.Keys);
    assert MergedEntry(limit, b.entries[e], l.entries[e], r.entries[e], m.entries[e]);
    var bf, lf, rf, mf := b.entries[e].state.fields, l.entries[e].state.fields, r.entries[e].state.fields, m.entries[e].state.fields;
    assert Picks(Lookup(bf, key), Lookup(lf, key), Lookup(rf, key), Lookup(mf, key));
  }
}

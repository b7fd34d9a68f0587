/** What the comparison and the merge of vaults mean to a user, in terms of single values: what equal
    vaults agree on, that a side given up held nothing of its own, that edits and revisions survive a
    merge, and which pairs of edits must end in a conflict. */
module MergeLaws {
  import opened Vault
  import opened ThreeWay
  import opened MergeSpec
  import opened Divergence
  import opened VaultSync

  // ---------------------------------------------------------------- semantic equality

  /** Two revisions agree in every value. */
  ghost predicate SameValues(x: Revision, y: Revision)
  {
    && x.previousParent == y.previousParent && x.icon == y.icon
    && (forall name :: Lookup(x.fields, name) == Lookup(y.fields, name))
    && (forall name :: Lookup(x.attachments, name) == Lookup(y.attachments, name))
    && x.props.autotype == y.props.autotype && x.props.tags == y.props.tags && x.props.customData == y.props.customData
    && x.props.foreground == y.props.foreground && x.props.background == y.props.background
    && x.props.overrideUrl == y.props.overrideUrl && x.props.qualityCheck == y.props.qualityCheck
    && x.times.creation == y.times.creation && x.times.lastAccess == y.times.lastAccess
    && x.times.expiry == y.times.expiry && x.times.expires == y.times.expires
    && x.times.usageCount == y.times.usageCount
    && x.times.lastModification == y.times.lastModification && x.times.locationChanged == y.times.locationChanged
  }

  /** ... and two entries also in their place and in every revision of their histories. */
  ghost predicate SameEntryValues(x: Entry, y: Entry)
  {
    && x.parent == y.parent && SameValues(x.state, y.state)
    && |x.history| == |y.history| && forall i :: 0 <= i < |x.history| ==>
          SameValues(x.history[i].state, y.history[i].state)
  }

  ghost predicate SameVault(a: Database, b: Database)
  {
    && a.root == b.root && a.meta == b.meta
    && (forall id :: id in a.deleted <==> id in b.deleted)
    && (forall id :: id in a.deleted ==> a.deleted[id] == b.deleted[id])
    && (forall id :: id in a.icons <==> id in b.icons) && (forall id :: id in a.icons ==> a.icons[id] == b.icons[id])
    && (forall g :: g in a.groups <==> g in b.groups) && (forall g :: g in a.groups ==> a.groups[g] == b.groups[g])
    && (forall e :: e in a.entries <==> e in b.entries)
    && forall e :: e in a.entries ==> SameEntryValues(a.entries[e], b.entries[e])
  }

  lemma SameMap<V>(x: map<string, V>, y: map<string, V>)
    requires forall name :: Lookup(x, name) == Lookup(y, name)
    ensures x == y
  {
    forall name ensures (name in x <==> name in y) && (name in x ==> x[name] == y[name]) {
      assert Lookup(x, name) == Lookup(y, name);
    }
  }

  lemma SameValuesExactly(x: Revision, y: Revision)
    ensures SameValues(x, y) <==> x == y
  {
    if SameValues(x, y) {
      SameMap(x.fields, y.fields);
      SameMap(x.attachments, y.attachments);
    }
  }

  lemma SameEntryExactly(x: Entry, y: Entry)
    ensures EntrySemanticallyEqual(x, y) <==> SameEntryValues(x, y)
  {
    SameValuesExactly(x.state, y.state);
    forall i | 0 <= i < |x.history| && i < |y.history|
      ensures SameRevision(x.history[i], y.history[i]) <==> SameValues(x.history[i].state, y.history[i].state)
    {
      SameValuesExactly(x.history[i].state, y.history[i].state);
    }
  }

  /** Documents are semantically equal if and only if they have the same version and agree in every
      value; nothing but the places that histories were parsed at is ignored. */
  lemma SemanticEqualityExactly(a: Document, b: Document)
    ensures SemanticallyEquals(a, b) <==> a.version == b.version && SameVault(a.db, b.db)
  {
    forall e | e in a.db.entries && e in b.db.entries
      ensures EntrySemanticallyEqual(a.db.entries[e], b.db.entries[e]) <==>
                SameEntryValues(a.db.entries[e], b.db.entries[e])
    {
      SameEntryExactly(a.db.entries[e], b.db.entries[e]);
    }
  }

  /** The side that a shortcut gives up has nothing of its own: no group, entry, field, attachment,
      place, revision, icon, setting or tombstone in which it differs from what is kept or from BASE. */
  lemma NothingGivenUp(base: Document, local: Document, remote: Document, lib: Library, out: MergeOutcome)
    requires OutcomeAllowed(base, local, remote, lib, out)
    ensures out == Equivalent ==> SameVault(local.db, remote.db)
    ensures out == FastForwardRemote ==> SameVault(local.db, base.db) && !SameVault(local.db, remote.db)
    ensures out == FastForwardLocal ==> SameVault(remote.db, base.db) && !SameVault(local.db, remote.db)
    ensures out.Merged? || out.Conflicted? ==>
              !SameVault(local.db, base.db) && !SameVault(remote.db, base.db) && !SameVault(local.db, remote.db)
  {
    SemanticEqualityExactly(local, remote);
    SemanticEqualityExactly(remote, base);
    SemanticEqualityExactly(local, base);
  }

  // ---------------------------------------------------------------- edits survive a merge

  /** An attachment that one side changed, added or removed is as that side has it. */
  lemma AttachmentsSurvive(limit: Option<nat>, b: Database, l: Database, r: Database, m: Database, e: Id, name: string)
    requires IsMergeOf(limit, b, l, r, m) && EntryInAll(b, l, r, e)
    ensures e in m.entries
    ensures Lookup(l.entries[e].state.attachments, name) != Lookup(b.entries[e].state.attachments, name) ==>
              Lookup(m.entries[e].state.attachments, name) == Lookup(l.entries[e].state.attachments, name)
    ensures Lookup(r.entries[e].state.attachments, name) != Lookup(b.entries[e].state.attachments, name) ==>
              Lookup(m.entries[e].state.attachments, name) == Lookup(r.entries[e].state.attachments, name)
  {
    assert e in LiveSet(b.entries.Keys, l.entries.Keys, r.entries.Keys);
    assert MergedEntry(limit, b.entries[e], l.entries[e], r.entries[e], m.entries[e]);
    var ba, la, ra, ma := b.entries[e].state.attachments, l.entries[e].state.attachments, r.entries[e].state.attachments,
                          m.entries[e].state.attachments;
    assert Picks(Lookup(ba, name), Lookup(la, name), Lookup(ra, name), Lookup(ma, name));
  }

  /** A value that one side changed is as that side has it, and one that nobody changed is as it was. */
  predicate Survives<T(==)>(b: T, l: T, r: T, m: T)
  {
    (l != b ==> m == l) && (r != b ==> m == r) && (l == b && r == b ==> m == b)
  }

  /** The same for everything else that an entry has: tags, colours, icon, expiry and the rest. */
  lemma EntryValuesSurvive(limit: Option<nat>, bd: Database, ld: Database, rd: Database, md: Database, e: Id)
    requires IsMergeOf(limit, bd, ld, rd, md) && EntryInAll(bd, ld, rd, e)
    ensures e in md.entries
    ensures var b, l, r, m := bd.entries[e], ld.entries[e], rd.entries[e], md.entries[e];
            && Survives(b.parent, l.parent, r.parent, m.parent)
            && Survives(b.state.icon, l.state.icon, r.state.icon, m.state.icon)
            && Survives(b.state.props.tags, l.state.props.tags, r.state.props.tags, m.state.props.tags)
            && Survives(b.state.props.autotype, l.state.props.autotype, r.state.props.autotype, m.state.props.autotype)
            && Survives(b.state.props.customData, l.state.props.customData, r.state.props.customData, m.state.props.customData)
            && Survives(b.state.props.foreground, l.state.props.foreground, r.state.props.foreground, m.state.props.foreground)
            && Survives(b.state.props.background, l.state.props.background, r.state.props.background, m.state.props.background)
            && Survives(b.state.props.overrideUrl, l.state.props.overrideUrl, r.state.props.overrideUrl, m.state.props.overrideUrl)
            && Survives(b.state.props.qualityCheck, l.state.props.qualityCheck, r.state.props.qualityCheck, m.state.props.qualityCheck)
            && Survives(b.state.times.creation, l.state.times.creation, r.state.times.creation, m.state.times.creation)
            && Survives(b.state.times.lastAccess, l.state.times.lastAccess, r.state.times.lastAccess, m.state.times.lastAccess)
            && Survives(b.state.times.expiry, l.state.times.expiry, r.state.times.expiry, m.state.times.expiry)
            && Survives(b.state.times.expires, l.state.times.expires, r.state.times.expires, m.state.times.expires)
            && Survives(b.state.times.usageCount, l.state.times.usageCount, r.state.times.usageCount, m.state.times.usageCount)
            && Later(l.state.times.lastModification, r.state.times.lastModification, m.state.times.lastModification)
  {
    assert e in LiveSet(bd.entries.Keys, ld.entries.Keys, rd.entries.Keys);
    assert MergedEntry(limit, bd.entries[e], ld.entries[e], rd.entries[e], md.entries[e]);
  }

  /** ... and that a group has. */
  lemma GroupValuesSurvive(limit: Option<nat>, bd: Database, ld: Database, rd: Database, md: Database, g: Id)
    requires IsMergeOf(limit, bd, ld, rd, md) && InAll(bd, ld, rd, g)
    ensures g in md.groups
    ensures var b, l, r, m := bd.groups[g], ld.groups[g], rd.groups[g], md.groups[g];
            && Survives(b.parent, l.parent, r.parent, m.parent)
            && Survives(b.icon, l.icon, r.icon, m.icon)
            && Survives(b.props.name, l.props.name, r.props.name, m.props.name)
            && Survives(b.props.notes, l.props.notes, r.props.notes, m.props.notes)
            && Survives(b.props.tags, l.props.tags, r.props.tags, m.props.tags)
            && Survives(b.props.customData, l.props.customData, r.props.customData, m.props.customData)
            && Survives(b.props.isExpanded, l.props.isExpanded, r.props.isExpanded, m.props.isExpanded)
            && Survives(b.props.defaultAutotype, l.props.defaultAutotype, r.props.defaultAutotype, m.props.defaultAutotype)
            && Survives(b.props.enableAutotype, l.props.enableAutotype, r.props.enableAutotype, m.props.enableAutotype)
            && Survives(b.props.enableSearching, l.props.enableSearching, r.props.enableSearching, m.props.enableSearching)
            && Survives(b.times.creation, l.times.creation, r.times.creation, m.times.creation)
            && Survives(b.times.lastAccess, l.times.lastAccess, r.times.lastAccess, m.times.lastAccess)
            && Survives(b.times.expiry, l.times.expiry, r.times.expiry, m.times.expiry)
            && Survives(b.times.expires, l.times.expires, r.times.expires, m.times.expires)
            && Survives(b.times.usageCount, l.times.usageCount, r.times.usageCount, m.times.usageCount)
            && Later(l.times.lastModification, r.times.lastModification, m.times.lastModification)
  {
    assert g in LiveSet(bd.groups.Keys, ld.groups.Keys, rd.groups.Keys);
    assert MergedGroup(bd.groups[g], ld.groups[g], rd.groups[g], md.groups[g]);
  }

  /** ... and that the vault has: its settings, its icons, and the latest stamp of every tombstone. */
  lemma TablesSurvive(b: Database, l: Database, r: Database, m: Database, name: string, x: Id)
    requires MergedTables(b, l, r, m)
    ensures Survives(b.meta.recycleBinEnabled, l.meta.recycleBinEnabled, r.meta.recycleBinEnabled, m.meta.recycleBinEnabled)
    ensures Survives(b.meta.recycleBinUuid, l.meta.recycleBinUuid, r.meta.recycleBinUuid, m.meta.recycleBinUuid)
    ensures Survives(b.meta.historyMaxItems, l.meta.historyMaxItems, r.meta.historyMaxItems, m.meta.historyMaxItems)
    ensures Survives(Lookup(b.meta.customData, name), Lookup(l.meta.customData, name), Lookup(r.meta.customData, name),
                     Lookup(m.meta.customData, name))
    ensures x in b.icons && x in l.icons && x in r.icons ==>
              x in m.icons && Survives(b.icons[x], l.icons[x], r.icons[x], m.icons[x])
    ensures x in l.icons && x !in b.icons ==> x in m.icons && m.icons[x] == l.icons[x]
    ensures x in r.icons && x !in b.icons ==> x in m.icons && m.icons[x] == r.icons[x]
    ensures x in m.deleted && x in l.deleted && l.deleted[x].Some? ==>
              m.deleted[x].Some? && l.deleted[x].value <= m.deleted[x].value
    ensures x in m.deleted && x in r.deleted && r.deleted[x].Some? ==>
              m.deleted[x].Some? && r.deleted[x].value <= m.deleted[x].value
  {
    var bc, lc, rc, mc := b.meta.customData, l.meta.customData, r.meta.customData, m.meta.customData;
    assert Picks(Lookup(bc, name), Lookup(lc, name), Lookup(rc, name), Lookup(mc, name));
    assert x in l.icons && x !in b.icons ==> x in LiveSet(b.icons.Keys, l.icons.Keys, r.icons.Keys);
    assert x in r.icons && x !in b.icons ==> x in LiveSet(b.icons.Keys, l.icons.Keys, r.icons.Keys);
  }

  /** What one side added stands where that side put it, with every value. */
  lemma AdditionsSurvive(limit: Option<nat>, b: Database, l: Database, r: Database, m: Database, side: Database, x: Id)
    requires IsMergeOf(limit, b, l, r, m) && (side == l || side == r)
    ensures x in side.entries && x !in b.entries ==>
              x in m.entries && m.entries[x].parent == side.entries[x].parent && m.entries[x].state == side.entries[x].state
              && m.entries[x].history <= side.entries[x].history
    ensures x in side.groups && x !in b.groups ==>
              && x in m.groups && m.groups[x].parent == side.groups[x].parent
              && m.groups[x].props == side.groups[x].props
              && m.groups[x].icon == side.groups[x].icon && m.groups[x].times == side.groups[x].times
  {
    assert x in side.entries && x !in b.entries ==> x in LiveSet(b.entries.Keys, l.entries.Keys, r.entries.Keys);
    assert x in side.groups && x !in b.groups ==> x in LiveSet(b.groups.Keys, l.groups.Keys, r.groups.Keys);
  }

  /** A history has a revision with exactly these values. */
  ghost predicate Remembers(h: seq<HistoryItem>, state: Revision)
  {
    exists k :: 0 <= k < |h| && SameValues(h[k].state, state)
  }

  ghost predicate SameRevisions(x: seq<HistoryItem>, y: seq<HistoryItem>)
  {
    |x| == |y| && forall i :: 0 <= i < |x| ==> SameValues(x[i].state, y[i].state)
  }

  lemma RemembersExactly(h: seq<HistoryItem>, item: HistoryItem)
    ensures Represented(h, item) <==> Remembers(h, item.state)
  {
    forall k | 0 <= k < |h| ensures SameRevision(h[k], item) <==> SameValues(h[k].state, item.state) {
      SameValuesExactly(h[k].state, item.state);
    }
  }

  lemma SameRevisionsExactly(x: seq<HistoryItem>, y: seq<HistoryItem>)
    ensures SameHistory(x, y) <==> SameRevisions(x, y)
  {
    forall i | 0 <= i < |x| && i < |y| ensures SameRevision(x[i], y[i]) <==> SameValues(x[i].state, y[i].state) {
      SameValuesExactly(x[i].state, y[i].state);
    }
  }

  /** The merge of histories, told by values: the changed side's if one side changed its own; if both
      did, LOCAL's comes first, and the whole remembers exactly the revisions of either side. */
  ghost predicate HistoriesMerged(b: seq<HistoryItem>, l: seq<HistoryItem>, r: seq<HistoryItem>, full: seq<HistoryItem>)
  {
    && (SameRevisions(l, r) ==> full == l)
    && (!SameRevisions(l, r) && SameRevisions(l, b) ==> full == r)
    && (!SameRevisions(l, b) && SameRevisions(r, b) ==> full == l)
    && (!SameRevisions(l, b) && !SameRevisions(r, b) ==>
          l <= full && forall state :: Remembers(full, state) <==> Remembers(l, state) || Remembers(r, state))
  }

  lemma HistoryMergedByValue(b: seq<HistoryItem>, l: seq<HistoryItem>, r: seq<HistoryItem>)
    requires MergedHistory(b, l, r).Some?
    ensures HistoriesMerged(b, l, r, MergedHistory(b, l, r).value)
  {
    var full := MergedHistory(b, l, r).value;
    MergedHistoryExactly(b, l, r);
    SameRevisionsExactly(l, r);
    SameRevisionsExactly(l, b);
    SameRevisionsExactly(r, b);
    if !SameHistory(l, b) && !SameHistory(r, b) {
      forall state ensures Remembers(full, state) <==> Remembers(l, state) || Remembers(r, state) {
        var item := HistoryItem(0, state);
        BothHistoriesRepresented(b, l, r, item);
        RemembersExactly(full, item);
        RemembersExactly(l, item);
        RemembersExactly(r, item);
      }
    }
  }

  /** No revision is lost but by the limit: the merged history is the limit's share of the merge of the
      three histories. */
  lemma RevisionsSurvive(limit: Option<nat>, b: Database, l: Database, r: Database, m: Database, e: Id)
    returns (full: seq<HistoryItem>)
    requires IsMergeOf(limit, b, l, r, m) && EntryInAll(b, l, r, e)
    ensures e in m.entries && m.entries[e].history <= full
    ensures |m.entries[e].history| == if limit.Some? && limit.value < |full| then limit.value else |full|
    ensures HistoriesMerged(b.entries[e].history, l.entries[e].history, r.entries[e].history, full)
  {
    assert e in LiveSet(b.entries.Keys, l.entries.Keys, r.entries.Keys);
    assert MergedEntry(limit, b.entries[e], l.entries[e], r.entries[e], m.entries[e]);
    var bh, lh, rh := b.entries[e].history, l.entries[e].history, r.entries[e].history;
    full := MergedHistory(bh, lh, rh).value;
    HistoryMergedByValue(bh, lh, rh);
  }

  /** Nothing that a side edited is deleted by the other: what a merge lacks of BASE was left alone by
      every side that still had it. */
  lemma NoEditIsDeleted(limit: Option<nat>, b: Database, l: Database, r: Database, m: Database, x: Id)
    requires IsMergeOf(limit, b, l, r, m)
    ensures x in b.entries && x !in m.entries && x in l.entries ==> l.entries[x] == b.entries[x] && x in r.deleted
    ensures x in b.entries && x !in m.entries && x in r.entries ==> r.entries[x] == b.entries[x] && x in l.deleted
    ensures x in b.groups && x !in m.groups && x in l.groups ==> l.groups[x] == b.groups[x] && x in r.deleted
    ensures x in b.groups && x !in m.groups && x in r.groups ==> r.groups[x] == b.groups[x] && x in l.deleted
  {
  }

  // ---------------------------------------------------------------- edits that must conflict

  lemma ConflictDiverges(b: Database, l: Database, r: Database, lib: Library, c: Conflict)
    requires Justified(b, l, r, lib, c)
    ensures Diverges(b, l, r, lib)
  {
  }

  /** A group that both sides changed against each other, told value by value. */
  lemma GroupEditsConflict(b: Database, l: Database, r: Database, lib: Library, x: Id)
    requires x in b.groups && x in l.groups && x in r.groups
    ensures (|| Apart(b.groups[x].parent, l.groups[x].parent, r.groups[x].parent)
             || Apart(b.groups[x].props.name, l.groups[x].props.name, r.groups[x].props.name)
             || Apart(b.groups[x].props.notes, l.groups[x].props.notes, r.groups[x].props.notes)
             || Apart(b.groups[x].props.tags, l.groups[x].props.tags, r.groups[x].props.tags)
             || Apart(b.groups[x].icon, l.groups[x].icon, r.groups[x].icon)
             || Apart(b.groups[x].times.expiry, l.groups[x].times.expiry, r.groups[x].times.expiry)
             || Apart(b.groups[x].previousParent, l.groups[x].previousParent, r.groups[x].previousParent)
             || (r.groups[x] != b.groups[x] && x !in lib.representable)) ==> Diverges(b, l, r, lib)
  {
    if GroupJustified(b, l, r, lib, x, MoveVsMove) {
      ConflictDiverges(b, l, r, lib, Conflict(OfGroup(x), MoveVsMove));
    }
    if GroupJustified(b, l, r, lib, x, Metadata) {
      ConflictDiverges(b, l, r, lib, Conflict(OfGroup(x), Metadata));
    }
    if GroupJustified(b, l, r, lib, x, CustomIcon) {
      ConflictDiverges(b, l, r, lib, Conflict(OfGroup(x), CustomIcon));
    }
    if GroupJustified(b, l, r, lib, x, UnsupportedSemantic) {
      ConflictDiverges(b, l, r, lib, Conflict(OfGroup(x), UnsupportedSemantic));
    }
  }

  /** Both sides changed a value, and not to the same. */
  predicate Apart<T(==)>(b: T, l: T, r: T)
  {
    l != b && r != b && l != r
  }

  lemma EntryEditsConflict(b: Database, l: Database, r: Database, lib: Library, e: Id, name: string)
    requires e in b.entries && e in l.entries && e in r.entries
    ensures (|| Apart(b.entries[e].parent, l.entries[e].parent, r.entries[e].parent)
             || Apart(Lookup(b.entries[e].state.fields, name), Lookup(l.entries[e].state.fields, name),
                      Lookup(r.entries[e].state.fields, name))
             || Apart(Lookup(b.entries[e].state.attachments, name), Lookup(l.entries[e].state.attachments, name),
                      Lookup(r.entries[e].state.attachments, name))
             || Apart(b.entries[e].state.props.tags, l.entries[e].state.props.tags, r.entries[e].state.props.tags)
             || Apart(b.entries[e].state.icon, l.entries[e].state.icon, r.entries[e].state.icon)
             || Apart(b.entries[e].state.times.expiry, l.entries[e].state.times.expiry, r.entries[e].state.times.expiry)
             || Apart(b.entries[e].state.previousParent, l.entries[e].state.previousParent, r.entries[e].state.previousParent))
            ==> Diverges(b, l, r, lib)
  {
    if Apart(b.entries[e].parent, l.entries[e].parent, r.entries[e].parent) {
      ConflictDiverges(b, l, r, lib, Conflict(OfEntry(e), MoveVsMove));
    }
    if EntryJustified(b, l, r, lib, e, FieldEdit) {
      ConflictDiverges(b, l, r, lib, Conflict(OfEntry(e), FieldEdit));
    }
    if EntryJustified(b, l, r, lib, e, Binary) {
      ConflictDiverges(b, l, r, lib, Conflict(OfEntry(e), Binary));
    }
    if Apart(b.entries[e].state.icon, l.entries[e].state.icon, r.entries[e].state.icon) {
      ConflictDiverges(b, l, r, lib, Conflict(OfEntry(e), CustomIcon));
    }
    if EntryJustified(b, l, r, lib, e, UnsupportedSemantic) {
      ConflictDiverges(b, l, r, lib, Conflict(OfEntry(e), UnsupportedSemantic));
    }
  }

  /** Presence edits against each other: deletion against a change, a deletion without a tombstone, an
      identity introduced twice with different contents, or introduced here and deleted there. */
  predicate PresenceClash<T(==)>(b: map<Id, T>, l: map<Id, T>, r: map<Id, T>, bd: set<Id>, ld: set<Id>, rd: set<Id>,
                            x: Id)
  {
    || (x in b && x in l && x !in r && (x !in rd || l[x] != b[x]))
    || (x in b && x !in l && x in r && (x !in ld || r[x] != b[x]))
    || (x !in b && x in l && x in r && (x in bd || l[x] != r[x]))
    || (x !in b && x in l && x !in r && x in rd)
    || (x !in b && x !in l && x in r && x in ld)
  }

  lemma GroupPresenceConflicts(b: Database, l: Database, r: Database, lib: Library, x: Id)
    requires PresenceClash(b.groups, l.groups, r.groups, b.deleted.Keys, l.deleted.Keys, r.deleted.Keys, x)
    ensures Diverges(b, l, r, lib)
  {
    if GroupJustified(b, l, r, lib, x, DeleteVsModify) {
      ConflictDiverges(b, l, r, lib, Conflict(OfGroup(x), DeleteVsModify));
    } else if GroupJustified(b, l, r, lib, x, UuidCollision) {
      ConflictDiverges(b, l, r, lib, Conflict(OfGroup(x), UuidCollision));
    } else {
      ConflictDiverges(b, l, r, lib, Conflict(OfGroup(x), UnsupportedSemantic));
    }
  }

  lemma EntryPresenceConflicts(b: Database, l: Database, r: Database, lib: Library, x: Id)
    requires PresenceClash(b.entries, l.entries, r.entries, b.deleted.Keys, l.deleted.Keys, r.deleted.Keys, x)
    ensures Diverges(b, l, r, lib)
  {
    if EntryJustified(b, l, r, lib, x, DeleteVsModify) {
      ConflictDiverges(b, l, r, lib, Conflict(OfEntry(x), DeleteVsModify));
    } else if EntryJustified(b, l, r, lib, x, UuidCollision) {
      ConflictDiverges(b, l, r, lib, Conflict(OfEntry(x), UuidCollision));
    } else {
      ConflictDiverges(b, l, r, lib, Conflict(OfEntry(x), UnsupportedSemantic));
    }
  }

  lemma IconPresenceConflicts(b: Database, l: Database, r: Database, lib: Library, x: Id)
    requires PresenceClash(b.icons, l.icons, r.icons, b.deleted.Keys, l.deleted.Keys, r.deleted.Keys, x)
    ensures Diverges(b, l, r, lib)
  {
    if IconJustified(b, l, r, x, DeleteVsModify) {
      ConflictDiverges(b, l, r, lib, Conflict(OfDatabase, DeleteVsModify));
    } else if IconJustified(b, l, r, x, UuidCollision) {
      ConflictDiverges(b, l, r, lib, Conflict(OfDatabase, UuidCollision));
    } else {
      assert IconJustified(b, l, r, x, UnsupportedSemantic);
      ConflictDiverges(b, l, r, lib, Conflict(OfDatabase, UnsupportedSemantic));
    }
  }

  /** A new REMOTE entry conflicts if it has attachments, or if its group is neither LOCAL's nor new. */
  lemma NewEntryConflicts(b: Database, l: Database, r: Database, lib: Library, e: Id, name: string)
    requires e in r.entries && e !in b.entries && e !in l.entries && e !in l.deleted
    ensures name in r.entries[e].state.attachments ==> Diverges(b, l, r, lib)
    ensures r.entries[e].parent !in l.groups && r.entries[e].parent in b.groups ==> Diverges(b, l, r, lib)
  {
    forall kind | EntryJustified(b, l, r, lib, e, kind) ensures Diverges(b, l, r, lib) {
      ConflictDiverges(b, l, r, lib, Conflict(OfEntry(e), kind));
    }
    if name in r.entries[e].state.attachments {
      assert EntryJustified(b, l, r, lib, e, Binary);
    } else if r.entries[e].parent !in l.groups && r.entries[e].parent in b.groups {
      assert !Stands(b, l, r, lib, r.entries[e].parent);
      assert EntryJustified(b, l, r, lib, e, Binary) || EntryJustified(b, l, r, lib, e, CustomIcon)
             || EntryJustified(b, l, r, lib, e, GroupDeleteVsDescendantChange);
    }
  }

  /** Settings that both sides changed against each other, and roots that differ. */
  lemma HeaderEditsConflict(b: Database, l: Database, r: Database, lib: Library, name: string)
    ensures l.root != b.root || r.root != b.root ==> Diverges(b, l, r, lib)
    ensures (|| Apart(b.meta.recycleBinEnabled, l.meta.recycleBinEnabled, r.meta.recycleBinEnabled)
             || Apart(b.meta.recycleBinUuid, l.meta.recycleBinUuid, r.meta.recycleBinUuid)
             || Apart(b.meta.historyMaxItems, l.meta.historyMaxItems, r.meta.historyMaxItems)
             || Apart(Lookup(b.meta.customData, name), Lookup(l.meta.customData, name), Lookup(r.meta.customData, name)))
            ==> Diverges(b, l, r, lib)
  {
    if DatabaseJustified(b, l, r, HierarchyCycle) {
      ConflictDiverges(b, l, r, lib, Conflict(OfDatabase, HierarchyCycle));
    }
    if DatabaseJustified(b, l, r, Metadata) {
      ConflictDiverges(b, l, r, lib, Conflict(OfDatabase, Metadata));
    }
  }

  // ---------------------------------------------------------------- edits that never conflict

  /** An entry that one side left alone is in no conflict about its values, whatever the other side did
      to it: what is left is its icon and, if LOCAL left it alone, a group that is not there any more,
      attachments in old revisions, and a remembered group that REMOTE changed without a move. */
  lemma OneSidedEntryAgrees(b: Database, l: Database, r: Database, lib: Library, x: Id, kind: ConflictKind)
    requires EntryInAll(b, l, r, x) && kind != CustomIcon
    ensures r.entries[x] == b.entries[x] ==> !EntryJustified(b, l, r, lib, x, kind)
    ensures l.entries[x] == b.entries[x] && kind !in {HierarchyCycle, UnsupportedSemantic, HistoryConflict} ==>
              !EntryJustified(b, l, r, lib, x, kind)
  {
  }

  /** The same for groups; REMOTE's reordering of children that LOCAL left alone cannot be carried over. */
  lemma OneSidedGroupAgrees(b: Database, l: Database, r: Database, lib: Library, x: Id, kind: ConflictKind)
    requires x in b.groups && x in l.groups && x in r.groups && kind != CustomIcon
    ensures r.groups[x] == b.groups[x] ==> !GroupJustified(b, l, r, lib, x, kind)
    ensures l.groups[x] == b.groups[x] && r.groups[x].groups == b.groups[x].groups
            && r.groups[x].entries == b.groups[x].entries && kind !in {HierarchyCycle, UnsupportedSemantic} ==>
              !GroupJustified(b, l, r, lib, x, kind)
  {
  }

  /** A deletion with a tombstone of what the other side left alone, and an identity that only one side
      has ever seen, are no conflicts of presence. */
  lemma OneSidedPresenceAgrees(b: Database, l: Database, r: Database, lib: Library, x: Id, kind: ConflictKind)
    requires kind == DeleteVsModify || kind == UuidCollision || kind == UnsupportedSemantic
    ensures x in b.entries && x in l.entries && x !in r.entries && l.entries[x] == b.entries[x] && x in r.deleted ==>
              !EntryJustified(b, l, r, lib, x, kind)
    ensures x in b.entries && x !in l.entries && x in r.entries && r.entries[x] == b.entries[x] && x in l.deleted ==>
              !EntryJustified(b, l, r, lib, x, kind)
    ensures x !in b.entries && x in l.entries && x !in r.entries && x !in r.deleted ==>
              !EntryJustified(b, l, r, lib, x, kind)
    ensures x !in b.entries && x !in l.entries && x in r.entries && x !in l.deleted ==>
              !EntryJustified(b, l, r, lib, x, kind)
  {
  }

  /** Nor is an icon that one side left alone, as long as everybody still has the one that is chosen. */
  lemma OneSidedIconAgrees(b: Database, l: Database, r: Database, lib: Library, x: Id)
    requires EntryInAll(b, l, r, x)
    requires l.entries[x].state.icon == b.entries[x].state.icon || r.entries[x].state.icon == b.entries[x].state.icon
    requires forall id :: l.entries[x].state.icon == Some(Custom(id)) || r.entries[x].state.icon == Some(Custom(id)) ==>
               IconInAll(b, l, r, id)
    ensures !EntryJustified(b, l, r, lib, x, CustomIcon)
  {
  }

  /** Nor a move of an entry to a group that LOCAL has, as long as REMOTE deleted no group. */
  lemma OneSidedMoveAgrees(b: Database, l: Database, r: Database, lib: Library, x: Id)
    requires EntryInAll(b, l, r, x) && l.entries[x].parent == b.entries[x].parent && r.entries[x].parent in l.groups
    requires forall g :: g in b.groups && g in l.groups ==> g in r.groups
    ensures !EntryJustified(b, l, r, lib, x, HierarchyCycle) && !EntryJustified(b, l, r, lib, x, MoveVsMove)
  {
    assert Queued(b, l, r) == {};
    assert Stands(b, l, r, lib, r.entries[x].parent);
  }

  /** Settings that one side left alone are in no conflict. */
  lemma OneSidedHeaderAgrees(b: Database, l: Database, r: Database)
    ensures l.meta == b.meta || r.meta == b.meta ==> !MetaClash(b.meta, l.meta, r.meta)
    ensures l.meta == r.meta ==> !MetaClash(b.meta, l.meta, r.meta)
  {
  }
}

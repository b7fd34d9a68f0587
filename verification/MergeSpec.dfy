/** What a conflict-free three-way merge of vault trees means, object by object. */
module MergeSpec {
  import opened Vault
  import opened ThreeWay
  import opened HistoryPolicy

  // ---------------------------------------------------------------- properties

  function OrLocal<T(==)>(base: T, local: T, remote: T): (r: T)
    ensures ChooseThreeWay(base, local, remote).Some? ==> Picks(base, local, remote, r)
    ensures ChooseThreeWay(base, local, remote).None? ==> r == local
  {
    match ChooseThreeWay(base, local, remote)
    case Some(v) => v
    case None => local
  }

  function Clash<T(==)>(base: T, local: T, remote: T): (n: nat)
    ensures n == 0 <==> Picks(base, local, remote, OrLocal(base, local, remote))
  {
    if ChooseThreeWay(base, local, remote).None? then 1 else 0
  }

  ghost predicate PicksGroupProps(b: GroupProps, l: GroupProps, r: GroupProps, m: GroupProps)
  {
    && Picks(b.name, l.name, r.name, m.name)
    && Picks(b.notes, l.notes, r.notes, m.notes)
    && Picks(b.tags, l.tags, r.tags, m.tags)
    && Picks(b.customData, l.customData, r.customData, m.customData)
    && Picks(b.isExpanded, l.isExpanded, r.isExpanded, m.isExpanded)
    && Picks(b.defaultAutotype, l.defaultAutotype, r.defaultAutotype, m.defaultAutotype)
    && Picks(b.enableAutotype, l.enableAutotype, r.enableAutotype, m.enableAutotype)
    && Picks(b.enableSearching, l.enableSearching, r.enableSearching, m.enableSearching)
  }

  function MergeGroupProps(b: GroupProps, l: GroupProps, r: GroupProps): (m: GroupProps)
    ensures GroupPropClashes(b, l, r) == 0 ==> PicksGroupProps(b, l, r, m)
  {
    GroupProps(
      OrLocal(b.name, l.name, r.name), OrLocal(b.notes, l.notes, r.notes), OrLocal(b.tags, l.tags, r.tags),
      OrLocal(b.customData, l.customData, r.customData), OrLocal(b.isExpanded, l.isExpanded, r.isExpanded),
      OrLocal(b.defaultAutotype, l.defaultAutotype, r.defaultAutotype),
      OrLocal(b.enableAutotype, l.enableAutotype, r.enableAutotype),
      OrLocal(b.enableSearching, l.enableSearching, r.enableSearching))
  }

  function GroupPropClashes(b: GroupProps, l: GroupProps, r: GroupProps): (n: nat)
  {
    Clash(b.name, l.name, r.name) + Clash(b.notes, l.notes, r.notes) + Clash(b.tags, l.tags, r.tags)
    + Clash(b.customData, l.customData, r.customData) + Clash(b.isExpanded, l.isExpanded, r.isExpanded)
    + Clash(b.defaultAutotype, l.defaultAutotype, r.defaultAutotype)
    + Clash(b.enableAutotype, l.enableAutotype, r.enableAutotype)
    + Clash(b.enableSearching, l.enableSearching, r.enableSearching)
  }

  ghost predicate PicksEntryProps(b: EntryProps, l: EntryProps, r: EntryProps, m: EntryProps)
  {
    && Picks(b.autotype, l.autotype, r.autotype, m.autotype)
    && Picks(b.tags, l.tags, r.tags, m.tags)
    && Picks(b.customData, l.customData, r.customData, m.customData)
    && Picks(b.foreground, l.foreground, r.foreground, m.foreground)
    && Picks(b.background, l.background, r.background, m.background)
    && Picks(b.overrideUrl, l.overrideUrl, r.overrideUrl, m.overrideUrl)
    && Picks(b.qualityCheck, l.qualityCheck, r.qualityCheck, m.qualityCheck)
  }

  function MergeEntryProps(b: EntryProps, l: EntryProps, r: EntryProps): (m: EntryProps)
    ensures EntryPropClashes(b, l, r) == 0 ==> PicksEntryProps(b, l, r, m)
  {
    EntryProps(
      OrLocal(b.autotype, l.autotype, r.autotype), OrLocal(b.tags, l.tags, r.tags),
      OrLocal(b.customData, l.customData, r.customData), OrLocal(b.foreground, l.foreground, r.foreground),
      OrLocal(b.background, l.background, r.background), OrLocal(b.overrideUrl, l.overrideUrl, r.overrideUrl),
      OrLocal(b.qualityCheck, l.qualityCheck, r.qualityCheck))
  }

  function EntryPropClashes(b: EntryProps, l: EntryProps, r: EntryProps): (n: nat)
  {
    Clash(b.autotype, l.autotype, r.autotype) + Clash(b.tags, l.tags, r.tags)
    + Clash(b.customData, l.customData, r.customData) + Clash(b.foreground, l.foreground, r.foreground)
    + Clash(b.background, l.background, r.background) + Clash(b.overrideUrl, l.overrideUrl, r.overrideUrl)
    + Clash(b.qualityCheck, l.qualityCheck, r.qualityCheck)
  }

  /** `m` is the later of two stamps, where no stamp is earlier than any. */
  predicate Later(a: Time, b: Time, m: Time)
  {
    && (m == a || m == b)
    && (a.Some? ==> m.Some? && a.value <= m.value)
    && (b.Some? ==> m.Some? && b.value <= m.value)
  }

  function Latest(a: Time, b: Time): (r: Time)
    ensures Later(a, b, r)
  {
    if a.None? then b else if b.None? || b.value <= a.value then a else b
  }

  /** Five stamps are picks, the modification is the later one, and so is the move, unless the merge
      itself moved the object to REMOTE's place. */
  ghost predicate PicksTimes(b: Times, l: Times, r: Times, m: Times, moved: bool)
  {
    && Picks(b.creation, l.creation, r.creation, m.creation)
    && Picks(b.lastAccess, l.lastAccess, r.lastAccess, m.lastAccess)
    && Picks(b.expiry, l.expiry, r.expiry, m.expiry)
    && Picks(b.expires, l.expires, r.expires, m.expires)
    && Picks(b.usageCount, l.usageCount, r.usageCount, m.usageCount)
    && Later(l.lastModification, r.lastModification, m.lastModification)
    && (if moved then m.locationChanged == r.locationChanged else Later(l.locationChanged, r.locationChanged, m.locationChanged))
  }

  /** The remembered previous parent is a pick, unless the merge itself moved the object from `from`. */
  ghost predicate PicksPrevious(b: Option<Id>, l: Option<Id>, r: Option<Id>, m: Option<Id>, moved: bool, from: Option<Id>)
  {
    if moved then m == from else Picks(b, l, r, m)
  }

  /** The remembered previous parents clash, or a pick of them could not be applied without a move. */
  predicate PreviousClash(b: Option<Id>, l: Option<Id>, r: Option<Id>, stays: bool)
  {
    ChooseThreeWay(b, l, r).None? || (stays && ChooseThreeWay(b, l, r) != Some(l))
  }

  function MergeTimes(b: Times, l: Times, r: Times): (m: Times)
    ensures TimeClashes(b, l, r) == 0 ==> PicksTimes(b, l, r, m, false)
  {
    Times(
      OrLocal(b.creation, l.creation, r.creation), OrLocal(b.lastAccess, l.lastAccess, r.lastAccess),
      OrLocal(b.expiry, l.expiry, r.expiry), OrLocal(b.expires, l.expires, r.expires),
      OrLocal(b.usageCount, l.usageCount, r.usageCount),
      Latest(l.lastModification, r.lastModification), Latest(l.locationChanged, r.locationChanged))
  }

  function TimeClashes(b: Times, l: Times, r: Times): (n: nat)
  {
    Clash(b.creation, l.creation, r.creation) + Clash(b.lastAccess, l.lastAccess, r.lastAccess)
    + Clash(b.expiry, l.expiry, r.expiry) + Clash(b.expires, l.expires, r.expires)
    + Clash(b.usageCount, l.usageCount, r.usageCount)
  }

  // ---------------------------------------------------------------- objects

  /** A group live in all three inputs: its whole record but the child lists is told by the inputs, and
      keeping LOCAL's sibling order loses no REMOTE reorder. */
  ghost predicate MergedGroup(b: Group, l: Group, r: Group, m: Group)
  {
    && Picks(b.parent, l.parent, r.parent, m.parent)
    && PicksGroupProps(b.props, l.props, r.props, m.props)
    && Picks(b.icon, l.icon, r.icon, m.icon)
    && PicksTimes(b.times, l.times, r.times, m.times, m.parent != l.parent)
    && PicksPrevious(b.previousParent, l.previousParent, r.previousParent, m.previousParent, m.parent != l.parent, l.parent)
    && !RemoteReorderWouldBeLost(b.groups, l.groups, r.groups)
    && !RemoteReorderWouldBeLost(b.entries, l.entries, r.entries)
  }

  /** An entry live in all three inputs: its whole record is told by the inputs. */
  ghost predicate MergedEntry(limit: Option<nat>, b: Entry, l: Entry, r: Entry, m: Entry)
  {
    && Picks(b.parent, l.parent, r.parent, m.parent)
    && PicksMap(b.state.fields, l.state.fields, r.state.fields, m.state.fields)
    && PicksMap(b.state.attachments, l.state.attachments, r.state.attachments, m.state.attachments)
    && PicksEntryProps(b.state.props, l.state.props, r.state.props, m.state.props)
    && Picks(b.state.icon, l.state.icon, r.state.icon, m.state.icon)
    && PicksTimes(b.state.times, l.state.times, r.state.times, m.state.times, m.parent != l.parent)
    && PicksPrevious(b.state.previousParent, l.state.previousParent, r.state.previousParent, m.state.previousParent,
                     m.parent != l.parent, Some(l.parent))
    && MergedHistory(b.history, l.history, r.history).Some?
    && m.history == Retained(limit, MergedHistory(b.history, l.history, r.history).value)
  }

  // ---------------------------------------------------------------- live sets

  /** Kept by both, added by LOCAL, or added by REMOTE. */
  function LiveSet(b: set<Id>, l: set<Id>, r: set<Id>): (live: set<Id>)
    ensures forall x :: x in live <==> (x in l && x in r) || (x in l && x !in b) || (x in r && x !in b)
  {
    l * r + (l - b) + (r - b)
  }

  /** Groups that REMOTE deleted and LOCAL still has. */
  function RemoteDeleted(b: Database, l: Database, r: Database): (d: set<Id>)
  {
    set x | x in l.groups && x in b.groups && x !in r.groups
  }

  function RemoteAdded(b: Database, l: Database, r: Database): (a: set<Id>)
  {
    set x | x in r.groups && x !in b.groups && x !in l.groups
  }

  /** The children of `g`, in all three inputs. */
  function CommonGroups(b: Database, l: Database, r: Database, g: Id): (c: set<Id>)
    requires g in b.groups && g in l.groups && g in r.groups
  {
    CommonChildren(b.groups[g].groups, l.groups[g].groups, r.groups[g].groups)
  }

  function CommonEntries(b: Database, l: Database, r: Database, g: Id): (c: set<Id>)
    requires g in b.groups && g in l.groups && g in r.groups
  {
    CommonChildren(b.groups[g].entries, l.groups[g].entries, r.groups[g].entries)
  }

  function KnownGroups(b: Database, l: Database, r: Database): (all: set<Id>)
  {
    b.groups.Keys + l.groups.Keys + r.groups.Keys
  }

  function KnownEntries(b: Database, l: Database, r: Database): (all: set<Id>)
  {
    b.entries.Keys + l.entries.Keys + r.entries.Keys
  }

  predicate InAll(b: Database, l: Database, r: Database, x: Id)
  {
    x in b.groups && x in l.groups && x in r.groups
  }

  predicate EntryInAll(b: Database, l: Database, r: Database, e: Id)
  {
    e in b.entries && e in l.entries && e in r.entries
  }

  /** Common children stand in `c` in the order in which LOCAL has them. */
  ghost predicate GroupOrderKept(b: Database, l: Database, r: Database, groups: map<Id, Group>)
  {
    forall g {:trigger CommonGroups(b, l, r, g)} :: g in groups && InAll(b, l, r, g) ==>
      RelativeOrder(groups[g].groups, CommonGroups(b, l, r, g)) == RelativeOrder(l.groups[g].groups, CommonGroups(b, l, r, g))
  }

  ghost predicate EntryOrderKept(b: Database, l: Database, r: Database, groups: map<Id, Group>)
  {
    forall g {:trigger CommonEntries(b, l, r, g)} :: g in groups && InAll(b, l, r, g) ==>
      RelativeOrder(groups[g].entries, CommonEntries(b, l, r, g)) == RelativeOrder(l.groups[g].entries, CommonEntries(b, l, r, g))
  }

  /** Sibling order below `g` in the merged tree: among common children, the pick of the three orders. */
  ghost predicate PicksOrderAt(b: Database, l: Database, r: Database, g: Id, m: Group)
    requires InAll(b, l, r, g)
  {
    && Picks(RelativeOrder(b.groups[g].groups, CommonGroups(b, l, r, g)),
             RelativeOrder(l.groups[g].groups, CommonGroups(b, l, r, g)),
             RelativeOrder(r.groups[g].groups, CommonGroups(b, l, r, g)),
             RelativeOrder(m.groups, CommonGroups(b, l, r, g)))
    && Picks(RelativeOrder(b.groups[g].entries, CommonEntries(b, l, r, g)),
             RelativeOrder(l.groups[g].entries, CommonEntries(b, l, r, g)),
             RelativeOrder(r.groups[g].entries, CommonEntries(b, l, r, g)),
             RelativeOrder(m.entries, CommonEntries(b, l, r, g)))
  }

  ghost predicate PicksOrder(b: Database, l: Database, r: Database, m: Database)
  {
    forall g {:trigger PicksOrderAt(b, l, r, g, m.groups[g])} :: g in m.groups && InAll(b, l, r, g) ==>
      PicksOrderAt(b, l, r, g, m.groups[g])
  }

  /** The whole promise of a `Merged` outcome whose histories are cut to `limit`. */
  ghost predicate IsMergeOf(limit: Option<nat>, b: Database, l: Database, r: Database, m: Database)
  {
    && m.groups.Keys == LiveSet(b.groups.Keys, l.groups.Keys, r.groups.Keys)
    && m.entries.Keys == LiveSet(b.entries.Keys, l.entries.Keys, r.entries.Keys)
    && m.deleted.Keys == b.deleted.Keys + l.deleted.Keys + r.deleted.Keys
    && (forall g :: g in m.groups && InAll(b, l, r, g) ==>
          MergedGroup(b.groups[g], l.groups[g], r.groups[g], m.groups[g]))
    && (forall e :: e in m.entries && EntryInAll(b, l, r, e) ==>
          MergedEntry(limit, b.entries[e], l.entries[e], r.entries[e], m.entries[e]))
    && PicksOrder(b, l, r, m)
    && AddedKept(limit, b, l, r, m)
    && NoEditDeleted(b, l, r, m)
  }

  /** What is gone was deleted, with a tombstone, on one side, and left alone on the other. */
  ghost predicate DeletedCleanly<T>(b: map<Id, T>, l: map<Id, T>, r: map<Id, T>, m: set<Id>, ld: set<Id>, rd: set<Id>)
  {
    forall x :: x in b && x !in m ==>
      && (x in l ==> x !in r && x in rd && l[x] == b[x])
      && (x in r ==> x !in l && x in ld && r[x] == b[x])
  }

  ghost predicate NoEditDeleted(b: Database, l: Database, r: Database, m: Database)
  {
    && DeletedCleanly(b.groups, l.groups, r.groups, m.groups.Keys, l.deleted.Keys, r.deleted.Keys)
    && DeletedCleanly(b.entries, l.entries, r.entries, m.entries.Keys, l.deleted.Keys, r.deleted.Keys)
  }

  predicate SameButLists(x: Group, y: Group)
  {
    x.(groups := [], entries := []) == y.(groups := [], entries := [])
  }

  /** Objects that one side added stand unchanged, at the place that side gave them. */
  ghost predicate AddedKept(limit: Option<nat>, b: Database, l: Database, r: Database, m: Database)
  {
    && (forall g :: g in m.groups && g !in b.groups && g in l.groups ==> SameButLists(m.groups[g], l.groups[g]))
    && (forall g :: g in m.groups && g !in b.groups && g in r.groups ==> SameButLists(m.groups[g], r.groups[g]))
    && (forall e :: e in m.entries && e !in b.entries && e in l.entries ==>
          m.entries[e] == PrunedEntry(limit, l.entries[e]))
    && (forall e :: e in m.entries && e !in b.entries && e in r.entries ==>
          m.entries[e] == PrunedEntry(limit, r.entries[e]))
  }

  // ---------------------------------------------------------------- tables

  ghost predicate PicksMeta(b: Meta, l: Meta, r: Meta, m: Meta)
  {
    && Picks(b.recycleBinEnabled, l.recycleBinEnabled, r.recycleBinEnabled, m.recycleBinEnabled)
    && Picks(b.recycleBinUuid, l.recycleBinUuid, r.recycleBinUuid, m.recycleBinUuid)
    && Picks(b.historyMaxItems, l.historyMaxItems, r.historyMaxItems, m.historyMaxItems)
    && PicksMap(b.customData, l.customData, r.customData, m.customData)
  }

  /** The stamp `t` is the latest that any input gives for the tombstone `id`. */
  predicate LatestStamp(id: Id, b: map<Id, Time>, l: map<Id, Time>, r: map<Id, Time>, t: Time)
  {
    && (id in b && b[id].Some? ==> t.Some? && b[id].value <= t.value)
    && (id in l && l[id].Some? ==> t.Some? && l[id].value <= t.value)
    && (id in r && r[id].Some? ==> t.Some? && r[id].value <= t.value)
    && (t.Some? ==> (id in b && b[id] == t) || (id in l && l[id] == t) || (id in r && r[id] == t))
  }

  /** The icon table: the live icons, each the pick of its versions, and none deleted that a side changed. */
  ghost predicate MergedIconTable(b: Database, l: Database, r: Database, m: Database)
  {
    && m.icons.Keys == LiveSet(b.icons.Keys, l.icons.Keys, r.icons.Keys)
    && (forall x :: x in b.icons && x in l.icons && x in r.icons ==>
          x in m.icons && Picks(b.icons[x], l.icons[x], r.icons[x], m.icons[x]))
    && (forall x :: x in m.icons && x !in b.icons ==>
          (x in l.icons ==> m.icons[x] == l.icons[x]) && (x in r.icons ==> m.icons[x] == r.icons[x]))
    && DeletedCleanly(b.icons, l.icons, r.icons, m.icons.Keys, l.deleted.Keys, r.deleted.Keys)
  }

  /** Everything of a merged database beside its groups and entries. */
  ghost predicate MergedTables(b: Database, l: Database, r: Database, m: Database)
  {
    && b.root == l.root == r.root == m.root
    && PicksMeta(b.meta, l.meta, r.meta, m.meta)
    && MergedIconTable(b, l, r, m)
    && forall id :: id in m.deleted ==> LatestStamp(id, b.deleted, l.deleted, r.deleted, m.deleted[id])
  }
}

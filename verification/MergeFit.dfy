/** When a merge without conflicts passes its last validation. */
module MergeFit {
  import opened Vault
  import opened ThreeWay
  import opened TreeOps
  import opened TreeLemmas
  import opened MergeSpec
  import opened MergeLemmas
  import opened Divergence

  // ---------------------------------------------------------------- steps keep a valid tree

  lemma PlaceKeepsTree(c: Database, id: Id, target: Group, from: Option<Id>, parent: Option<Id>, stamp: Time)
    requires ValidTree(c) && id in c.groups && SamePlace(c.groups[id], target)
    ensures ValidTree(PlaceGroup(c, id, target, from, parent, stamp).db)
  {
    var placed := c.(groups := c.groups[id := target]);
    SameShapeTree(c, placed);
    if parent != from && parent.Some? && MoveGroup(placed, id, parent.value).Moved? {
      StampedMoveTree(placed, id, parent.value, stamp);
    }
  }

  lemma StampedMoveTree(placed: Database, id: Id, dest: Id, stamp: Time)
    requires ValidTree(placed) && id in placed.groups && MoveGroup(placed, id, dest).Moved?
    ensures var db := MoveGroup(placed, id, dest).db;
            var g := db.groups[id];
            ValidTree(db.(groups := db.groups[id := g.(times := g.times.(locationChanged := stamp))]))
  {
    MovedGroupValid(placed, id, dest);
    var db := MoveGroup(placed, id, dest).db;
    var g := db.groups[id];
    SameShapeTree(db, db.(groups := db.groups[id := g.(times := g.times.(locationChanged := stamp))]));
  }

  lemma PlaceEntryKeepsTree(c: Database, id: Id, target: Entry, from: Id, parent: Id, stamp: Time)
    requires ValidTree(c) && id in c.entries && target.parent == c.entries[id].parent
    ensures ValidTree(PlaceEntry(c, id, target, from, parent, stamp).db)
  {
    var placed := c.(entries := c.entries[id := target]);
    SameShapeTree(c, placed);
    if parent != from && parent in c.groups {
      MovedEntryValid(placed, id, parent);
      SameShapeTree(MoveEntry(placed, id, parent).db, PlaceEntry(c, id, target, from, parent, stamp).db);
    }
  }

  // ---------------------------------------------------------------- carried lists

  /** `longer` is `list` and then at least `xs`. */
  ghost predicate Extends(list: seq<Id>, longer: seq<Id>, xs: set<Id>)
  {
    list <= longer && forall x :: x in xs ==> x in longer[|list|..]
  }

  lemma ExtendsMore(list: seq<Id>, longer: seq<Id>, xs: set<Id>, x: Id)
    requires Extends(list, longer, xs)
    ensures Extends(list, longer + [x], xs + {x}) && Extends(list, longer + [x], xs)
  {
    assert (longer + [x])[|list|..] == longer[|list|..] + [x];
  }

  lemma RepeatedMember(list: seq<Id>, longer: seq<Id>, xs: set<Id>, x: Id)
    requires Extends(list, longer, xs) && x in list && x in xs
    ensures !NoDup(longer)
  {
    var i :| 0 <= i < |list| && list[i] == x;
    var j :| 0 <= j < |longer| - |list| && longer[|list|..][j] == x;
    assert longer[i] == longer[|list| + j];
  }

  function ChildrenAmong(r: Database, added: set<Id>, p: Id): (s: set<Id>)
  {
    set y | y in added && y in r.groups && r.groups[y].parent == Some(p)
  }

  function EntriesAmong(c: Database, done: set<Id>, p: Id): (s: set<Id>)
  {
    set e | e in done && e in c.entries && c.entries[e].parent == p
  }

  /** Group `p` came with REMOTE's lists, and what was put below it since stands behind them. */
  ghost predicate CarriedAt(r: Database, c: Database, added: set<Id>, done: set<Id>, p: Id)
  {
    && p in c.groups && p in r.groups
    && Extends(r.groups[p].groups, c.groups[p].groups, ChildrenAmong(r, added, p))
    && Extends(r.groups[p].entries, c.groups[p].entries, EntriesAmong(c, done, p))
  }

  ghost predicate Carried(r: Database, c: Database, added: set<Id>, done: set<Id>)
  {
    forall p {:trigger CarriedAt(r, c, added, done, p)} :: p in added ==> CarriedAt(r, c, added, done, p)
  }

  lemma AddCarries(r: Database, c: Database, added: set<Id>, id: Id, parent: Id)
    requires Carried(r, c, added, {}) && id !in c.groups && parent in c.groups && id in r.groups
    requires r.groups[id].parent == Some(parent)
    requires forall y :: y in added ==> y in r.groups && y in c.groups && r.groups[y].parent != Some(id)
    ensures Carried(r, AddGroup(c, parent, id, r.groups[id]), added + {id}, {})
  {
    var after := AddGroup(c, parent, id, r.groups[id]);
    forall p | p in added + {id} ensures CarriedAt(r, after, added + {id}, {}, p) {
      assert EntriesAmong(after, {}, p) == {};
      if p == id {
        assert ChildrenAmong(r, added + {id}, p) == {};
      } else {
        assert CarriedAt(r, c, added, {}, p);
        assert EntriesAmong(c, {}, p) == {};
        ExtendsMore(r.groups[p].groups, c.groups[p].groups, ChildrenAmong(r, added, p), id);
        assert ChildrenAmong(r, added + {id}, p) == ChildrenAmong(r, added, p) + if p == parent then {id} else {};
      }
    }
  }

  /** An edit that leaves the lists of the added groups alone. */
  lemma StillCarried(r: Database, c: Database, after: Database, added: set<Id>, done: set<Id>, more: set<Id>)
    requires Carried(r, c, added, done)
    requires forall p :: p in added && p in c.groups ==> p in after.groups && after.groups[p] == c.groups[p]
    requires forall e :: e in more && e in after.entries && after.entries[e].parent in added ==>
               e in done && e in c.entries && c.entries[e].parent == after.entries[e].parent
    ensures Carried(r, after, added, more)
  {
    forall p | p in added ensures CarriedAt(r, after, added, more, p) {
      assert CarriedAt(r, c, added, done, p);
      assert EntriesAmong(after, more, p) <= EntriesAmong(c, done, p);
    }
  }

  /** An edit that puts one entry at the end of its new group's list. */
  lemma EntryCarried(r: Database, c: Database, after: Database, added: set<Id>, done: set<Id>, id: Id)
    requires Carried(r, c, added, done) && id in after.entries
    requires forall p :: p in added && p in c.groups ==>
               && p in after.groups && after.groups[p].groups == c.groups[p].groups
               && after.groups[p].entries == if p == after.entries[id].parent then c.groups[p].entries + [id] else c.groups[p].entries
    requires forall e :: e in done && e in after.entries && e != id ==>
               e in c.entries && c.entries[e] == after.entries[e]
    ensures Carried(r, after, added, done + {id})
  {
    forall p | p in added ensures CarriedAt(r, after, added, done + {id}, p) {
      assert CarriedAt(r, c, added, done, p);
      ExtendsMore(r.groups[p].entries, c.groups[p].entries, EntriesAmong(c, done, p), id);
      assert EntriesAmong(after, done + {id}, p) <= EntriesAmong(c, done, p) + if p == after.entries[id].parent then {id} else {};
    }
  }

  // ---------------------------------------------------------------- both ways of copying

  /** What decides the last validation, while the groups `added` and the entries `done` are in. */
  ghost predicate OnTrack(b: Database, l: Database, r: Database, lib: Library, c: Database, added: set<Id>,
                          done: set<Id>)
  {
    && (PlainLists(b, l, r, lib) ==> ValidTree(c))
    && (lib.cloneCarriesLists ==> Carried(r, c, added, done))
  }

  /** The record that an addition installs. */
  function CopiedGroup(source: Group, lib: Library): (g: Group)
  {
    if lib.cloneCarriesLists then source else source.(groups := [], entries := [])
  }

  lemma TrackGroup(b: Database, l: Database, r: Database, lib: Library, c: Database, added: set<Id>, id: Id, parent: Id)
    requires OnTrack(b, l, r, lib, c, added, {}) && id in RemoteAdded(b, l, r) && id !in c.groups && parent in c.groups
    requires r.groups[id].parent == Some(parent)
    requires forall y :: y in added ==> y in r.groups && y in c.groups && r.groups[y].parent != Some(id)
    ensures OnTrack(b, l, r, lib, AddGroup(c, parent, id, CopiedGroup(r.groups[id], lib)), added + {id}, {})
  {
    if lib.cloneCarriesLists {
      AddCarries(r, c, added, id, parent);
    }
    if PlainLists(b, l, r, lib) {
      AddedGroupValid(c, parent, id, CopiedGroup(r.groups[id], lib));
    }
  }

  lemma TrackRemoved(b: Database, l: Database, r: Database, lib: Library, c: Database, dropped: set<Id>, id: Id)
    requires OnTrack(b, l, r, lib, c, RemoteAdded(b, l, r), {}) && TreePhase(b, l, r, c, RemoteAdded(b, l, r), dropped)
    requires ValidTree(l) && id in RemoteDeleted(b, l, r) && id in c.groups && c.root == l.root && l.root in r.groups
    ensures OnTrack(b, l, r, lib, RemoveGroup(c, id), RemoteAdded(b, l, r), {})
  {
    var after := RemoveGroup(c, id);
    BelowDeleted(b, l, r, c.groups, id);
    assert LocalGroupRecord(b, l, r, l.groups.Keys, id, c.groups[id]);
    if l.groups[id].parent.Some? {
      ParentListed(l, id);
    }
    if lib.cloneCarriesLists {
      StillCarried(r, c, after, RemoteAdded(b, l, r), {}, {});
    }
    if PlainLists(b, l, r, lib) {
      RemovedGroupValid(c, id);
    }
  }

  /** Where LOCAL has an entry, no group that REMOTE added holds it. */
  lemma LocalHome(b: Database, l: Database, r: Database, e: Id)
    requires ValidTree(l) && e in l.entries
    ensures l.entries[e].parent !in RemoteAdded(b, l, r)
  {
    EntryParentListed(l, e);
  }

  lemma TrackEntryPlaced(b: Database, l: Database, r: Database, lib: Library, c: Database, done: set<Id>, id: Id,
                         target: Entry, parent: Id, stamp: Time)
    requires OnTrack(b, l, r, lib, c, RemoteAdded(b, l, r), done) && ValidTree(l) && id !in done
    requires id in l.entries && id in c.entries && c.entries[id].parent == l.entries[id].parent == target.parent
    requires !PlaceEntry(c, id, target, l.entries[id].parent, parent, stamp).refused
    ensures OnTrack(b, l, r, lib, PlaceEntry(c, id, target, l.entries[id].parent, parent, stamp).db, RemoteAdded(b, l, r), done + {id})
  {
    LocalHome(b, l, r, id);
    if lib.cloneCarriesLists {
      PlacedEntryLists(c, id, target, l.entries[id].parent, parent, stamp);
      EntryCarried(r, c, PlaceEntry(c, id, target, l.entries[id].parent, parent, stamp).db, RemoteAdded(b, l, r), done,
                   id);
    }
    if PlainLists(b, l, r, lib) {
      PlaceEntryKeepsTree(c, id, target, l.entries[id].parent, parent, stamp);
    }
  }

  /** Away from its old home, placing an entry appends it where it goes and changes nothing else. */
  lemma PlacedEntryLists(c: Database, id: Id, target: Entry, from: Id, parent: Id, stamp: Time)
    requires id in c.entries && c.entries[id].parent == from == target.parent
    ensures var after := PlaceEntry(c, id, target, from, parent, stamp).db;
            && (forall p :: p in c.groups && p != from ==>
                  && after.groups[p].groups == c.groups[p].groups
                  && after.groups[p].entries == if p == after.entries[id].parent then c.groups[p].entries + [id] else c.groups[p].entries)
            && forall e :: e in c.entries && e != id ==> after.entries[e] == c.entries[e]
  {
  }

  lemma TrackEntryAdded(b: Database, l: Database, r: Database, lib: Library, c: Database, done: set<Id>, id: Id)
    requires OnTrack(b, l, r, lib, c, RemoteAdded(b, l, r), done) && id !in done
    requires id in r.entries && id !in c.entries && r.entries[id].parent in c.groups
    ensures OnTrack(b, l, r, lib, AddEntry(c, r.entries[id].parent, id, r.entries[id]), RemoteAdded(b, l, r), done + {id})
  {
    if lib.cloneCarriesLists {
      EntryCarried(r, c, AddEntry(c, r.entries[id].parent, id, r.entries[id]), RemoteAdded(b, l, r), done, id);
    }
    if PlainLists(b, l, r, lib) {
      AddedEntryValid(c, r.entries[id].parent, id, r.entries[id]);
    }
  }

  lemma TrackEntryRemoved(b: Database, l: Database, r: Database, lib: Library, c: Database, done: set<Id>, id: Id)
    requires OnTrack(b, l, r, lib, c, RemoteAdded(b, l, r), done) && ValidTree(l)
    requires id in l.entries && id in c.entries && c.entries[id].parent == l.entries[id].parent
    ensures OnTrack(b, l, r, lib, RemoveEntry(c, id), RemoteAdded(b, l, r), done + {id})
  {
    LocalHome(b, l, r, id);
    if lib.cloneCarriesLists {
      StillCarried(r, c, RemoveEntry(c, id), RemoteAdded(b, l, r), done, done + {id});
    }
    if PlainLists(b, l, r, lib) {
      RemovedEntryValid(c, id);
    }
  }

  lemma TrackEntrySkipped(b: Database, l: Database, r: Database, lib: Library, c: Database, done: set<Id>, id: Id)
    requires OnTrack(b, l, r, lib, c, RemoteAdded(b, l, r), done) && ValidTree(l)
    requires id in c.entries ==> id in l.entries && c.entries[id].parent == l.entries[id].parent
    ensures OnTrack(b, l, r, lib, c, RemoteAdded(b, l, r), done + {id})
  {
    if id in c.entries {
      LocalHome(b, l, r, id);
    }
    if lib.cloneCarriesLists {
      StillCarried(r, c, c, RemoteAdded(b, l, r), done, done + {id});
    }
  }

  lemma SameTrack(b: Database, l: Database, r: Database, lib: Library, c: Database, m: Database, done: set<Id>)
    requires OnTrack(b, l, r, lib, c, RemoteAdded(b, l, r), done) && m.groups == c.groups && m.entries == c.entries
    requires m.root == c.root
    ensures OnTrack(b, l, r, lib, m, RemoteAdded(b, l, r), done)
  {
    if lib.cloneCarriesLists {
      StillCarried(r, c, m, RemoteAdded(b, l, r), done, done);
    }
    if PlainLists(b, l, r, lib) {
      SameShapeTree(c, m);
    }
  }

  // ---------------------------------------------------------------- carried lists fail

  /** What REMOTE lists below a group it added is an addition of its own. */
  lemma ChildOfAdded(b: Database, l: Database, r: Database, lib: Library, g: Id, k: Id)
    requires ValidTree(b) && ValidTree(l) && ValidTree(r) && g in RemoteAdded(b, l, r) && k in r.groups[g].groups
    requires GroupAgrees(b, l, r, lib, k)
    ensures k in RemoteAdded(b, l, r) && r.groups[k].parent == Some(g)
  {
    ListedParent(r, g, k);
    AgreeingGroup(b, l, r, lib, k);
    if k in b.groups && b.groups[k].parent.Some? {
      ParentListed(b, k);
    }
    if k in l.groups && l.groups[k].parent.Some? {
      ParentListed(l, k);
    }
  }

  /** Where a merge puts the entries of REMOTE. */
  lemma HomeInMerge(b: Database, l: Database, r: Database, m: Database, e: Id)
    requires IsMergeOf(None, b, l, r, m) && e in r.entries
    ensures EntryInAll(b, l, r, e) ==>
              e in m.entries && Picks(b.entries[e].parent, l.entries[e].parent, r.entries[e].parent, m.entries[e].parent)
    ensures e !in b.entries && e !in l.entries ==> e in m.entries && m.entries[e].parent == r.entries[e].parent
  {
    assert (e in b.entries ==> e in l.entries) ==> e in LiveEntries(b, l, r);
    if EntryInAll(b, l, r, e) {
      assert MergedEntry(None, b.entries[e], l.entries[e], r.entries[e], m.entries[e]);
    }
  }

  lemma EntryOfAdded(b: Database, l: Database, r: Database, lib: Library, m: Database, g: Id, e: Id)
    requires ValidTree(b) && ValidTree(l) && ValidTree(r) && g in RemoteAdded(b, l, r)
    requires e in r.groups[g].entries && EntryAgrees(b, l, r, lib, e)
    requires IsMergeOf(None, b, l, r, m)
    ensures e in m.entries && m.entries[e].parent == g
  {
    ListedEntryParent(r, g, e);
    HomeInMerge(b, l, r, m, e);
    EntryComesAlong(b, l, r, lib, g, e);
  }

  /** What REMOTE lists in a group it added is new, or was moved there by REMOTE alone. */
  lemma EntryComesAlong(b: Database, l: Database, r: Database, lib: Library, g: Id, e: Id)
    requires ValidTree(b) && ValidTree(l) && g in RemoteAdded(b, l, r)
    requires e in r.entries && r.entries[e].parent == g && EntryAgrees(b, l, r, lib, e)
    ensures (e !in b.entries && e !in l.entries)
            || (EntryInAll(b, l, r, e) && b.entries[e].parent == l.entries[e].parent != g)
  {
    AgreeingEntry(b, l, r, lib, e);
    if e in b.entries {
      EntryParentListed(b, e);
    }
    if e in l.entries {
      EntryParentListed(l, e);
    }
  }

  lemma CarriedListsFail(b: Database, l: Database, r: Database, lib: Library, m: Database, done: set<Id>)
    requires ValidTree(b) && ValidTree(l) && ValidTree(r) && !Diverges(b, l, r, lib) && !PlainLists(b, l, r, lib)
    requires IsMergeOf(None, b, l, r, m) && m.entries.Keys <= done && Carried(r, m, RemoteAdded(b, l, r), done)
    ensures !ValidTree(m)
  {
    NothingJustified(b, l, r, lib);
    var g :| g in RemoteAdded(b, l, r) && (r.groups[g].groups != [] || r.groups[g].entries != []);
    assert CarriedAt(r, m, RemoteAdded(b, l, r), done, g);
    if r.groups[g].groups != [] {
      var k := r.groups[g].groups[0];
      ChildOfAdded(b, l, r, lib, g, k);
      RepeatedMember(r.groups[g].groups, m.groups[g].groups, ChildrenAmong(r, RemoteAdded(b, l, r), g), k);
    } else {
      var e := r.groups[g].entries[0];
      EntryOfAdded(b, l, r, lib, m, g, e);
      RepeatedMember(r.groups[g].entries, m.groups[g].entries, EntriesAmong(m, done, g), e);
    }
    assert !ChildrenPointBack(m, g);
  }

  // ---------------------------------------------------------------- the last validation

  lemma IdsFitExactly(b: Database, l: Database, r: Database, m: Database)
    requires IsMergeOf(None, b, l, r, m) && m.icons == MergedIcons(b, l, r)
    ensures DistinctIds(m) <==> IdsFit(b, l, r)
  {
    assert m.groups.Keys == LiveGroups(b, l, r) && m.entries.Keys == LiveEntries(b, l, r);
  }

  lemma GroupIconExactly(b: Database, l: Database, r: Database, lib: Library, m: Database, g: Id)
    requires IsMergeOf(None, b, l, r, m) && m.icons == MergedIcons(b, l, r) && g in m.groups
    requires GroupAgrees(b, l, r, lib, g)
    ensures IconResolves(m.icons.Keys, m.groups[g].icon) <==> GroupIconFits(b, l, r, g)
  {
    assert g in LiveGroups(b, l, r);
    if InAll(b, l, r, g) {
      assert MergedGroup(b.groups[g], l.groups[g], r.groups[g], m.groups[g]);
      AgreeingGroup(b, l, r, lib, g);
    }
  }

  lemma EntryIconsExactly(b: Database, l: Database, r: Database, lib: Library, m: Database, e: Id)
    requires IsMergeOf(None, b, l, r, m) && m.icons == MergedIcons(b, l, r) && e in m.entries
    requires EntryAgrees(b, l, r, lib, e)
    ensures EntryIconsResolve(m.icons.Keys, m.entries[e]) <==> EntryIconsFit(b, l, r, e)
  {
    assert e in LiveEntries(b, l, r);
    if EntryInAll(b, l, r, e) {
      assert MergedEntry(None, b.entries[e], l.entries[e], r.entries[e], m.entries[e]);
      AgreeingEntry(b, l, r, lib, e);
    }
  }

  lemma IconsFitExactly(b: Database, l: Database, r: Database, lib: Library, m: Database)
    requires IsMergeOf(None, b, l, r, m) && m.icons == MergedIcons(b, l, r) && !Diverges(b, l, r, lib)
    ensures IconsResolve(m) <==>
              && (forall g :: g in LiveGroups(b, l, r) ==> GroupIconFits(b, l, r, g))
              && forall e :: e in LiveEntries(b, l, r) ==> EntryIconsFit(b, l, r, e)
  {
    assert m.groups.Keys == LiveGroups(b, l, r) && m.entries.Keys == LiveEntries(b, l, r);
    GroupIconsFitExactly(b, l, r, lib, m);
    EntriesIconsFitExactly(b, l, r, lib, m);
  }

  lemma GroupIconsFitExactly(b: Database, l: Database, r: Database, lib: Library, m: Database)
    requires IsMergeOf(None, b, l, r, m) && m.icons == MergedIcons(b, l, r) && !Diverges(b, l, r, lib)
    ensures (forall g :: g in m.groups ==> IconResolves(m.icons.Keys, m.groups[g].icon)) <==>
              forall g :: g in m.groups ==> GroupIconFits(b, l, r, g)
  {
    NothingJustified(b, l, r, lib);
    forall g | g in m.groups ensures IconResolves(m.icons.Keys, m.groups[g].icon) <==> GroupIconFits(b, l, r, g) {
      GroupIconExactly(b, l, r, lib, m, g);
    }
  }

  lemma EntriesIconsFitExactly(b: Database, l: Database, r: Database, lib: Library, m: Database)
    requires IsMergeOf(None, b, l, r, m) && m.icons == MergedIcons(b, l, r) && !Diverges(b, l, r, lib)
    ensures (forall e :: e in m.entries ==> EntryIconsResolve(m.icons.Keys, m.entries[e])) <==>
              forall e :: e in m.entries ==> EntryIconsFit(b, l, r, e)
  {
    NothingJustified(b, l, r, lib);
    forall e | e in m.entries ensures EntryIconsResolve(m.icons.Keys, m.entries[e]) <==> EntryIconsFit(b, l, r, e) {
      EntryIconsExactly(b, l, r, lib, m, e);
    }
  }

  lemma TreeFitsExactly(b: Database, l: Database, r: Database, lib: Library, m: Database, done: set<Id>)
    requires ValidTree(b) && ValidTree(l) && ValidTree(r) && !Diverges(b, l, r, lib)
    requires IsMergeOf(None, b, l, r, m) && m.entries.Keys <= done
    requires OnTrack(b, l, r, lib, m, RemoteAdded(b, l, r), done)
    ensures ValidTree(m) <==> PlainLists(b, l, r, lib)
  {
    if !PlainLists(b, l, r, lib) {
      CarriedListsFail(b, l, r, lib, m, done);
    }
  }

  /** The last validation passes exactly if the inputs fit. */
  lemma ValidExactly(b: Database, l: Database, r: Database, lib: Library, m: Database, done: set<Id>)
    requires ValidTree(b) && ValidTree(l) && ValidTree(r) && !Diverges(b, l, r, lib)
    requires IsMergeOf(None, b, l, r, m) && m.icons == MergedIcons(b, l, r) && m.entries.Keys <= done
    requires OnTrack(b, l, r, lib, m, RemoteAdded(b, l, r), done)
    ensures Valid(m) <==> Fits(b, l, r, lib)
  {
    TreeFitsExactly(b, l, r, lib, m, done);
    IdsFitExactly(b, l, r, m);
    IconsFitExactly(b, l, r, lib, m);
  }

  /** One icon without a conflict. */
  lemma IconMerged(b: Database, l: Database, r: Database, x: Id)
    requires !DatabaseJustified(b, l, r, CustomIcon) && !DatabaseJustified(b, l, r, DeleteVsModify)
    requires !DatabaseJustified(b, l, r, UuidCollision) && !DatabaseJustified(b, l, r, UnsupportedSemantic)
    ensures x in MergedIcons(b, l, r) <==> x in LiveSet(b.icons.Keys, l.icons.Keys, r.icons.Keys)
    ensures IconInAll(b, l, r, x) ==> Picks(b.icons[x], l.icons[x], r.icons[x], MergedIcons(b, l, r)[x])
    ensures x in MergedIcons(b, l, r) && x !in b.icons ==>
              x in l.icons && MergedIcons(b, l, r)[x] == l.icons[x] && (x in r.icons ==> l.icons[x] == r.icons[x])
    ensures x in b.icons && x !in MergedIcons(b, l, r) ==>
              && (x in l.icons ==> x !in r.icons && x in r.deleted && l.icons[x] == b.icons[x])
              && (x in r.icons ==> x !in l.icons && x in l.deleted && r.icons[x] == b.icons[x])
  {
    assert !IconJustified(b, l, r, x, CustomIcon) && !IconJustified(b, l, r, x, DeleteVsModify);
    assert !IconJustified(b, l, r, x, UuidCollision) && !IconJustified(b, l, r, x, UnsupportedSemantic);
  }

  lemma IconTableFits(b: Database, l: Database, r: Database, m: Database)
    requires !DatabaseJustified(b, l, r, CustomIcon) && !DatabaseJustified(b, l, r, DeleteVsModify)
    requires !DatabaseJustified(b, l, r, UuidCollision) && !DatabaseJustified(b, l, r, UnsupportedSemantic)
    requires m.icons == MergedIcons(b, l, r)
    ensures MergedIconTable(b, l, r, m)
  {
    forall x
      ensures x in m.icons <==> x in LiveSet(b.icons.Keys, l.icons.Keys, r.icons.Keys)
      ensures IconInAll(b, l, r, x) ==> Picks(b.icons[x], l.icons[x], r.icons[x], m.icons[x])
      ensures x in m.icons && x !in b.icons ==>
                x in l.icons && m.icons[x] == l.icons[x] && (x in r.icons ==> l.icons[x] == r.icons[x])
      ensures x in b.icons && x !in m.icons ==>
                && (x in l.icons ==> x !in r.icons && x in r.deleted && l.icons[x] == b.icons[x])
                && (x in r.icons ==> x !in l.icons && x in l.deleted && r.icons[x] == b.icons[x])
    {
      IconMerged(b, l, r, x);
    }
  }

  /** Without a divergence the merged icon table holds the live icons at their picks. */
  lemma IconTableMerged(b: Database, l: Database, r: Database, lib: Library, m: Database)
    requires !Diverges(b, l, r, lib) && m.icons == MergedIcons(b, l, r)
    ensures MergedIconTable(b, l, r, m)
  {
    NothingJustified(b, l, r, lib);
    IconTableFits(b, l, r, m);
  }
}

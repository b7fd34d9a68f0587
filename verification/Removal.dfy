/** What the recursive removals of a merge take away, in every run: exactly the groups to which the
    child lists lead from a deletion that is carried out, and exactly the entries listed there. */
module Removal {
  import opened Vault
  import opened TreeOps
  import opened MergeSpec
  import opened MergeLemmas
  import opened Divergence
  import opened MergeFit

  // ---------------------------------------------------------------- the lists before the removals

  /** The lists of one group, told by the inputs. */
  ghost predicate LaidOut(l: Database, r: Database, lib: Library, settled: map<Id, Group>, arrived: set<Id>, p: Id,
                          g: Group)
  {
    && (forall k :: k in g.groups <==> Listed(l, r, lib, settled, arrived, p, k))
    && forall e :: e in g.entries <==> PutIn(l, r, lib, p, e)
  }

  ghost predicate Layout(l: Database, r: Database, lib: Library, settled: map<Id, Group>, arrived: set<Id>, c: Database)
  {
    && c.groups.Keys == l.groups.Keys + arrived
    && forall p {:trigger LaidOut(l, r, lib, settled, arrived, p, c.groups[p])} ::
         p in c.groups ==> LaidOut(l, r, lib, settled, arrived, p, c.groups[p])
  }

  lemma StartLayout(l: Database, r: Database, lib: Library, settled: map<Id, Group>, c: Database)
    requires ValidTree(c) && SameLinks(settled, c.groups) && c.groups.Keys == l.groups.Keys
    requires forall p :: p in l.groups ==> c.groups[p].entries == l.groups[p].entries
    ensures Layout(l, r, lib, settled, {}, c)
  {
    forall p | p in c.groups ensures LaidOut(l, r, lib, settled, {}, p, c.groups[p]) {
      forall k ensures k in c.groups[p].groups <==> Listed(l, r, lib, settled, {}, p, k) {
        if k in c.groups[p].groups {
          ListedParent(c, p, k);
        }
        if k in c.groups && c.groups[k].parent == Some(p) {
          ParentListed(c, k);
        }
      }
    }
  }

  /** One more addition: its parent lists it, and it comes with the lists of its copy. */
  lemma AddLayout(l: Database, r: Database, lib: Library, settled: map<Id, Group>, arrived: set<Id>, c: Database,
                  id: Id, parent: Id)
    requires Layout(l, r, lib, settled, arrived, c) && settled.Keys == l.groups.Keys && ValidTree(r)
    requires id in r.groups && id !in c.groups && r.groups[id].parent == Some(parent) && parent in c.groups
    requires forall y :: y in arrived ==> y in r.groups && r.groups[y].parent != Some(id)
    ensures Layout(l, r, lib, settled, arrived + {id}, AddGroup(c, parent, id, CopiedGroup(r.groups[id], lib)))
  {
    var after := AddGroup(c, parent, id, CopiedGroup(r.groups[id], lib));
    ParentListed(r, id);
    forall p | p in after.groups ensures LaidOut(l, r, lib, settled, arrived + {id}, p, after.groups[p]) {
      if p != id {
        assert LaidOut(l, r, lib, settled, arrived, p, c.groups[p]);
      }
    }
  }

  /** The candidate before the removals, in every run. */
  ghost predicate Laid(b: Database, l: Database, r: Database, lib: Library, c: Database)
  {
    Layout(l, r, lib, SettledTree(b, l, r), Arriving(b, l, r), c)
  }

  lemma LaidLists(b: Database, l: Database, r: Database, lib: Library, c: Database, p: Id)
    requires Laid(b, l, r, lib, c) && p in c.groups
    ensures forall k :: k in c.groups[p].groups <==> PutBelow(b, l, r, lib, p, k)
    ensures forall e :: e in c.groups[p].entries <==> PutIn(l, r, lib, p, e)
  {
    assert LaidOut(l, r, lib, SettledTree(b, l, r), Arriving(b, l, r), p, c.groups[p]);
  }

  // ---------------------------------------------------------------- what is left of a tree

  ghost predicate KeepsLists(before: Group, after: Group, left: set<Id>)
  {
    && after.entries == before.entries
    && (forall k :: k in after.groups ==> k in before.groups)
    && forall k :: k in before.groups && k in left ==> k in after.groups
  }

  /** A group of `before` that is gone lists `e`. */
  ghost predicate GoneWith(before: Database, c: Database, e: Id)
  {
    exists p :: p in before.groups && p !in c.groups && e in before.groups[p].entries
  }

  /** `c` is `before` without some groups, everything listed below them, and the entries listed there. */
  ghost predicate CutFrom(before: Database, c: Database)
  {
    && c.groups.Keys <= before.groups.Keys
    && (forall p {:trigger KeepsLists(before.groups[p], c.groups[p], c.groups.Keys)} ::
          p in c.groups ==> KeepsLists(before.groups[p], c.groups[p], c.groups.Keys))
    && (forall p, k :: p in before.groups && p !in c.groups && k in before.groups[p].groups ==> k !in c.groups)
    && forall e {:trigger GoneWith(before, c, e)} :: e in c.entries <==> e in before.entries && !GoneWith(before, c, e)
  }

  lemma NothingCut(c: Database)
    ensures CutFrom(c, c)
  {
  }

  lemma CutMore(before: Database, c: Database, id: Id)
    requires CutFrom(before, c) && id in c.groups
    ensures CutFrom(before, RemoveGroup(c, id)) && id !in RemoveGroup(c, id).groups
  {
    var after, gone := RemoveGroup(c, id), Below(c.groups, id);
    BelowClosed(c.groups, id);
    RemoveGroupFacts(c, id);
    forall p | p in after.groups ensures KeepsLists(before.groups[p], after.groups[p], after.groups.Keys) {
      assert KeepsLists(before.groups[p], c.groups[p], c.groups.Keys);
      assert Trimmed(c.groups[p], after.groups[p], id);
    }
    forall p, k | p in before.groups && p !in after.groups && k in before.groups[p].groups ensures k !in after.groups {
      if p in c.groups {
        assert KeepsLists(before.groups[p], c.groups[p], c.groups.Keys);
      }
    }
    forall e ensures e in after.entries <==> e in before.entries && !GoneWith(before, after, e) {
      CutEntry(before, c, id, e);
    }
  }

  lemma CutEntry(before: Database, c: Database, id: Id, e: Id)
    requires CutFrom(before, c) && id in c.groups
    ensures e in RemoveGroup(c, id).entries <==> e in before.entries && !GoneWith(before, RemoveGroup(c, id), e)
  {
    var after, gone := RemoveGroup(c, id), Below(c.groups, id);
    RemoveGroupFacts(c, id);
    assert e in c.entries <==> e in before.entries && !GoneWith(before, c, e);
    forall p | p in gone && p in c.groups ensures c.groups[p].entries == before.groups[p].entries {
      assert KeepsLists(before.groups[p], c.groups[p], c.groups.Keys);
    }
    if GoneWith(before, c, e) {
      var p :| p in before.groups && p !in c.groups && e in before.groups[p].entries;
      assert p !in after.groups;
    }
  }

  // ---------------------------------------------------------------- exactly the groups taken

  lemma ChainEnds(b: Database, l: Database, r: Database, lib: Library, path: seq<Id>, k: Id)
    requires Chain(b, l, r, lib, path) && Leads(b, l, r, lib, path[|path| - 1], k)
    ensures Taken(b, l, r, lib, k)
  {
    assert Chain(b, l, r, lib, path + [k]);
  }

  /** Removing a group whose deletion is carried out takes only such groups. */
  lemma RemovedAreTaken(b: Database, l: Database, r: Database, lib: Library, before: Database, c: Database, id: Id,
                        p: Id)
    requires Laid(b, l, r, lib, before) && CutFrom(before, c) && id in c.groups && id in Queued(b, l, r)
    requires p in Below(c.groups, id)
    ensures Taken(b, l, r, lib, p)
  {
    var bound := set y | y in c.groups && Taken(b, l, r, lib, y);
    assert Chain(b, l, r, lib, [id]);
    forall q, k | q in bound && q in c.groups && k in c.groups[q].groups && k in c.groups ensures k in bound {
      assert KeepsLists(before.groups[q], c.groups[q], c.groups.Keys);
      LaidLists(b, l, r, lib, before, q);
      var path :| Chain(b, l, r, lib, path) && path[|path| - 1] == q;
      ChainEnds(b, l, r, lib, path, k);
    }
    DownWithin(c.groups, {id}, |c.groups|, bound);
  }

  /** Once no deletion is left, nothing that was to be taken is. */
  lemma {:induction false} TakenIsGone(b: Database, l: Database, r: Database, lib: Library, before: Database,
                                       c: Database, path: seq<Id>)
    requires Laid(b, l, r, lib, before) && CutFrom(before, c) && Queued(b, l, r) !! c.groups.Keys
    requires Chain(b, l, r, lib, path)
    ensures path[|path| - 1] in before.groups && path[|path| - 1] !in c.groups
    decreases |path|
  {
    if |path| > 1 {
      var init, p, k := path[..|path| - 1], path[|path| - 2], path[|path| - 1];
      assert Leads(b, l, r, lib, path[|path| - 2], path[|path| - 2 + 1]);
      TakenIsGone(b, l, r, lib, before, c, init);
      LaidLists(b, l, r, lib, before, p);
    }
  }

  /** The groups that are left are those that stand, and the entries of all three inputs that are left
      are those that were not taken. */
  lemma LeftStands(b: Database, l: Database, r: Database, lib: Library, before: Database, c: Database)
    requires Laid(b, l, r, lib, before) && CutFrom(before, c) && Queued(b, l, r) !! c.groups.Keys
    requires before.entries == l.entries
    requires forall p :: p in before.groups && p !in c.groups ==> Taken(b, l, r, lib, p)
    ensures forall p :: p in c.groups <==> Stands(b, l, r, lib, p)
    ensures forall e :: EntryInAll(b, l, r, e) ==> (e in c.entries <==> !EntryTaken(b, l, r, lib, e))
  {
    forall p ensures Taken(b, l, r, lib, p) <==> p in before.groups && p !in c.groups {
      if Taken(b, l, r, lib, p) {
        var path :| Chain(b, l, r, lib, path) && path[|path| - 1] == p;
        TakenIsGone(b, l, r, lib, before, c, path);
      }
    }
    forall e | EntryInAll(b, l, r, e) ensures e in c.entries <==> !EntryTaken(b, l, r, lib, e) {
      assert e in c.entries <==> !GoneWith(before, c, e);
      forall p | p in before.groups ensures e in before.groups[p].entries <==> PutIn(l, r, lib, p, e) {
        LaidLists(b, l, r, lib, before, p);
      }
    }
  }
}

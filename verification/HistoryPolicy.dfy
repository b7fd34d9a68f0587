/** The finite history-item limit of a database and its enforcement. */
module HistoryPolicy {
  import opened Vault
  import opened ThreeWay

  const MAX_HISTORY_ITEMS: nat := 10_000

  /** Missing and negative legacy values mean that there is no finite limit. */
  function FiniteLimit(meta: Meta): (r: Option<nat>)
    ensures r.Some? <==> meta.historyMaxItems.Some? && meta.historyMaxItems.value >= 0
    ensures r.Some? ==> r.value == meta.historyMaxItems.value
  {
    match meta.historyMaxItems
    case None => None
    case Some(n) => if n >= 0 then Some(n) else None
  }

  /** The newest items, as many as the limit admits. */
  function Retained(limit: Option<nat>, history: seq<HistoryItem>): (r: seq<HistoryItem>)
    ensures r <= history
    ensures |r| == if limit.Some? && limit.value < |history| then limit.value else |history|
  {
    if limit.Some? && limit.value < |history| then history[..limit.value] else history
  }

  function PrunedEntry(limit: Option<nat>, e: Entry): (r: Entry)
  {
    e.(history := Retained(limit, e.history))
  }

  function Pruned(limit: Option<nat>, db: Database): (r: Database)
  {
    db.(entries := map e | e in db.entries :: PrunedEntry(limit, db.entries[e]))
  }

  /** Takes the newest items and rebuilds the history by pushing them to the front, oldest first. */
  method PruneEntryHistory(e: Entry, limit: nat) returns (r: Entry)
    ensures r == PrunedEntry(Some(limit), e)
  {
    if |e.history| <= limit {
      return e;
    }
    var rebuilt := RebuildHistory(e.history[..limit]);
    r := e.(history := rebuilt);
  }

  method PruneAllEntryHistory(db: Database, limit: Option<nat>) returns (r: Database)
    ensures r == Pruned(limit, db)
  {
    if limit.None? {
      assert forall e :: e in db.entries ==> PrunedEntry(limit, db.entries[e]) == db.entries[e];
      assert (map e | e in db.entries :: PrunedEntry(limit, db.entries[e])) == db.entries;
      return db;
    }
    var entries := db.entries;
    var rest := entries.Keys;
    while rest != {}
      invariant rest <= db.entries.Keys == entries.Keys
      invariant forall e :: e in rest ==> entries[e] == db.entries[e]
      invariant forall e :: e in entries.Keys - rest ==> entries[e] == PrunedEntry(limit, db.entries[e])
      decreases rest
    {
      var e :| e in rest;
      var pruned := PruneEntryHistory(entries[e], limit.value);
      entries, rest := entries[e := pruned], rest - {e};
    }
    assert entries == (map e | e in db.entries :: PrunedEntry(limit, db.entries[e]));
    r := db.(entries := entries);
  }

  /** Pruning touches nothing that validity looks at, except that fewer icons are referenced. */
  lemma PrunedValid(limit: Option<nat>, db: Database)
    requires Valid(db)
    ensures Valid(Pruned(limit, db))
  {
    var p := Pruned(limit, db);
    assert p.groups == db.groups && p.root == db.root && p.entries.Keys == db.entries.Keys;
    assert Rooted(p) by {
      forall g | g in p.groups ensures ReachesRoot(p, g) {
        assert ReachesRoot(db, g);
      }
    }
    assert ListedHaveParent(p) by {
      forall g | g in p.groups ensures ChildrenPointBack(p, g) {
        assert ChildrenPointBack(db, g);
      }
    }
    assert ParentLists(p) by {
      forall e | e in p.entries ensures EntryListed(p, e) {
        assert EntryListed(db, e);
      }
      forall c | c in p.groups && c != p.root ensures GroupListed(p, c) {
        assert GroupListed(db, c);
      }
    }
    assert IconsResolve(p) by {
      forall e | e in p.entries ensures EntryIconsResolve(p.icons.Keys, p.entries[e]) {
        assert EntryIconsResolve(db.icons.Keys, db.entries[e]);
      }
    }
  }
}

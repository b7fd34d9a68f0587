/** What holds in every run of any number of devices: no lost update, local safety, the meaning of a
    stored BASE and of each journal phase, and single-use conflict tokens. */
module SyncLaws {
  import opened Vault
  import opened ThreeWay
  import opened HistoryPolicy
  import opened MergeSpec
  import opened Divergence
  import opened VaultSync
  import opened SyncProtocol
  import opened SyncInvariant
  import opened SyncSteps

  ghost predicate Next(w: World, a: Action, w2: World)
  {
    WellFormed(w) && Enabled(w, a) && w2 == Do(w, a)
  }

  /** A finite run: worlds `ws` joined by actions `acts`, from nothing stored and nothing running. */
  ghost predicate Run(ws: seq<World>, acts: seq<Action>)
  {
    && |ws| == |acts| + 1 && Init(ws[0])
    && forall i :: 0 <= i < |acts| ==> Next(ws[i], acts[i], ws[i + 1])
  }

  lemma {:induction false} AlwaysInv(ws: seq<World>, acts: seq<Action>, i: nat)
    requires Run(ws, acts) && i < |ws|
    ensures Inv(ws[i])
  {
    if i == 0 {
      InitInv(ws[0]);
    } else {
      AlwaysInv(ws, acts, i - 1);
      assert Next(ws[i - 1], acts[i - 1], ws[i]);
      DoKeeps(ws[i - 1], acts[i - 1]);
    }
  }

  // ---------------------------------------------------------------- the remote

  /** Every generation but the first was decided over exactly the generation it overwrote: as a
      fast-forward of LOCAL, a contract-abiding merge, or an explicit choice. */
  lemma NoLostUpdate(ws: seq<World>, acts: seq<Action>, i: nat, k: nat)
    requires Run(ws, acts) && i < |ws| && k < |ws[i].remote|
    ensures ws[i].remote[k].origin.remote == (if k == 0 then None else Some(PairOf(ws[i].remote[k - 1])))
    ensures Follows(ws[i].rules, ws[i].remote[k].origin, ws[i].remote[k].content)
    ensures if k == 0 then ws[i].remote[k].origin.kind == Created else ws[i].remote[k].origin.kind in {FastForward, MergedBoth, ChosenLocal}
  {
    AlwaysInv(ws, acts, i);
    assert GenerationOk(ws[i].rules, ws[i].remote, k);
  }

  /** A commit step that sends the conditional write `q`. */
  ghost predicate Sends(w: World, a: Action, q: Request)
  {
    && a.Step? && a.procedure == Committing && a.t in w.tasks && w.tasks[a.t].pc.Send?
    && w.tasks[a.t].pc.plan.action != AlreadyCommitted && PlanRequest(w.tasks[a.t].pc.plan) == q
  }

  lemma OnlyCommitsSend(w: World, a: Action, q: Request)
    requires WellFormed(w) && Enabled(w, a) && q in Do(w, a).sent && q !in w.sent
    ensures Sends(w, a, q)
  {
  }

  lemma {:induction false} SentBySomeCommit(ws: seq<World>, acts: seq<Action>, i: nat, q: Request) returns (k: nat)
    requires Run(ws, acts) && i < |ws| && q in ws[i].sent
    ensures k < i && Sends(ws[k], acts[k], q)
  {
    assert i > 0;
    assert Next(ws[i - 1], acts[i - 1], ws[i]);
    if q in ws[i - 1].sent {
      k := SentBySomeCommit(ws, acts, i - 1, q);
    } else {
      k := i - 1;
      OnlyCommitsSend(ws[k], acts[k], q);
    }
  }

  lemma RemoteChangesByDelivery(w: World, a: Action)
    requires WellFormed(w) && Enabled(w, a)
    ensures Do(w, a).remote == if a.Deliver? then w.remote + [Generation(a.request.candidate, a.revision, a.request.origin)] else w.remote
  {
  }

  /** The remote only ever gains one generation, by the delivery of a write that some commit sent
      after its plan was sound; recovery never writes it. A choice is sent only with evidence. */
  lemma RemoteWrittenByCommitsOnly(ws: seq<World>, acts: seq<Action>, i: nat) returns (k: nat)
    requires Run(ws, acts) && i < |acts| && ws[i + 1].remote != ws[i].remote
    ensures acts[i].Deliver? && Accepts(ws[i].remote, acts[i].request.expected)
    ensures ws[i + 1].remote == ws[i].remote + [Generation(acts[i].request.candidate, acts[i].revision, acts[i].request.origin)]
    ensures k < i && Sends(ws[k], acts[k], acts[i].request) && WellFormed(ws[k])
    ensures PlanOk(LogOf(ws[k], ws[k].tasks[acts[k].t].device), ws[k].tasks[acts[k].t].pc.plan)
  {
    assert Next(ws[i], acts[i], ws[i + 1]);
    RemoteChangesByDelivery(ws[i], acts[i]);
    k := SentBySomeCommit(ws, acts, i, acts[i].request);
    AlwaysInv(ws, acts, k);
    assert TaskOk(ws[k], acts[k].t);
  }

  /** A merge that `MergeDocuments` may return, whatever the database library answers. */
  ghost predicate MayMerge(base: Document, local: Document, remote: Document, m: Document)
  {
    exists lib :: OutcomeAllowed(base, local, remote, lib, Merged(m))
  }

  /** The rules the devices really use: semantic equality, and the contract of the document merge. */
  ghost function VaultRules(): (rules: Rules)
  {
    Rules((a: Document, b: Document) => SemanticallyEquals(a, b),
          (b: Document, l: Document, r: Document, m: Document) => MayMerge(b, l, r, m))
  }

  /** What the protocol needs of the merge is what `MergeDocuments` ensures. */
  lemma MergeKeepsItsPromise(base: Document, local: Document, remote: Document, lib: Library, out: MergeOutcome)
    requires OutcomeAllowed(base, local, remote, lib, out)
    ensures Promised(VaultRules(), base, local, remote, out)
  {
    if out.Merged? {
      MergedAsPromised(base, local, remote, lib, out.document);
    } else {
      ComparedAsPromised(base, local, remote, lib, out);
    }
  }

  lemma MergedAsPromised(base: Document, local: Document, remote: Document, lib: Library, m: Document)
    requires OutcomeAllowed(base, local, remote, lib, Merged(m))
    ensures VaultRules().merges(base, local, remote, m)
  {
  }

  lemma ComparedAsPromised(base: Document, local: Document, remote: Document, lib: Library, out: MergeOutcome)
    requires OutcomeAllowed(base, local, remote, lib, out) && !out.Merged?
    ensures Promised(VaultRules(), base, local, remote, out)
  {
  }

  lemma {:induction false} RulesNeverChange(ws: seq<World>, acts: seq<Action>, i: nat)
    requires Run(ws, acts) && i < |ws|
    ensures ws[i].rules == ws[0].rules
  {
    if i > 0 {
      RulesNeverChange(ws, acts, i - 1);
      assert Next(ws[i - 1], acts[i - 1], ws[i]);
    }
  }

  /** End to end: a merged generation holds every edit of the generation it overwrote and every edit
      of the merging device, and is a valid vault with the exact live set. */
  lemma MergedGenerationKeepsEdits(ws: seq<World>, acts: seq<Action>, i: nat, k: nat, e: Id, key: string)
    requires Run(ws, acts) && ws[0].rules == VaultRules()
    requires i < |ws| && k < |ws[i].remote| && ws[i].remote[k].origin.kind == MergedBoth
    ensures k > 0 && ws[i].remote[k].content.Sealed? && ws[i].remote[k - 1].content.Sealed?
    ensures ws[i].remote[k].origin.local.Sealed? && ws[i].remote[k].origin.base.Some?
    ensures ws[i].remote[k].origin.base.value.Sealed?
    ensures
      var b, l := ws[i].remote[k].origin.base.value.document.db, ws[i].remote[k].origin.local.document.db;
      var r, m := ws[i].remote[k - 1].content.document.db, ws[i].remote[k].content.document.db;
      && Valid(m) && IsMergeOf(FiniteLimit(m.meta), b, l, r, m)
      && (EntryInAll(b, l, r, e) ==>
            && e in m.entries
            && (Lookup(r.entries[e].state.fields, key) != Lookup(b.entries[e].state.fields, key) ==>
                  Lookup(m.entries[e].state.fields, key) == Lookup(r.entries[e].state.fields, key))
            && (Lookup(l.entries[e].state.fields, key) != Lookup(b.entries[e].state.fields, key) ==>
                  Lookup(m.entries[e].state.fields, key) == Lookup(l.entries[e].state.fields, key)))
  {
    NoLostUpdate(ws, acts, i, k);
    RulesNeverChange(ws, acts, i);
    var o, c := ws[i].remote[k].origin, ws[i].remote[k].content;
    var b, l, r, m := o.base.value.document.db, o.local.document.db, o.remote.value.content.document.db, c.document.db;
    MergeContract(o.base.value.document, o.local.document, o.remote.value.content.document, c.document);
    if EntryInAll(b, l, r, e) {
      EditsSurvive(FiniteLimit(m.meta), b, l, r, m, e, key);
    }
  }

  lemma MergeContract(base: Document, local: Document, remote: Document, m: Document)
    requires VaultRules().merges(base, local, remote, m)
    ensures Valid(m.db) && IsMergeOf(FiniteLimit(m.db.meta), base.db, local.db, remote.db, m.db)
  {
    assert MayMerge(base, local, remote, m);
  }
}

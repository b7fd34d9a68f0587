/** What every run guarantees one device: when LOCAL is replaced, what BASE and the journal mean, and
    how conflict tokens are spent. */
module DeviceLaws {
  import opened Vault
  import opened SyncProtocol
  import opened SyncInvariant
  import opened SyncSteps
  import opened SyncLaws

  // ---------------------------------------------------------------- LOCAL

  /** `candidate` may become LOCAL: LOCAL is still the input `candidate` was decided from, and the
      remote has already held `candidate`. */
  ghost predicate SafeToReplace(log: Log, o: Origin, candidate: Ciphertext, committed: nat)
  {
    && log.held != [] && log.held[|log.held| - 1] == o.local
    && InputsReal(log, o) && Follows(log.rules, o, candidate) && Held(log.remote, Pair(candidate, committed))
  }

  predicate ReplacesLocal(p: Procedure, pc: Pc)
  {
    (p == Recovering && pc.RecoverLocal?) || (p == Committing && pc.ReplaceLocal?)
  }

  function CandidateAt(pc: Pc): (c: Ciphertext)
    requires pc.RecoverLocal? || pc.ReplaceLocal?
  {
    if pc.RecoverLocal? then pc.j.candidate else pc.plan.candidate
  }

  function OriginAt(pc: Pc): (o: Origin)
    requires pc.RecoverLocal? || pc.ReplaceLocal?
  {
    if pc.RecoverLocal? then pc.j.origin else pc.plan.origin
  }

  function CommittedAt(pc: Pc): (revision: nat)
    requires pc.RecoverLocal? || pc.ReplaceLocal?
  {
    if pc.RecoverLocal? then pc.seen.revision else pc.rev
  }

  lemma OnlyTwoStepsReplace(p: Procedure, rules: Rules, remote: seq<Generation>, device: Device, key: nat, pc: Pc,
                            c: Choice)
    requires Started(device) && CallStep(p, rules, remote, device, key, pc, c).Some?
    requires CallStep(p, rules, remote, device, key, pc, c).value.device.held != device.held
    ensures ReplacesLocal(p, pc)
    ensures CallStep(p, rules, remote, device, key, pc, c).value.device.held == device.held + [CandidateAt(pc)]
    ensures pc.RecoverLocal? ==> Digest(Local(device)) == pc.j.expectedLocal
    ensures pc.ReplaceLocal? ==> Local(device) == pc.plan.snapshot.content
  {
  }

  lemma ReplacementIsSafe(log: Log, pc: Pc)
    requires StandsAt(log, Some(pc)) && (pc.RecoverLocal? || pc.ReplaceLocal?) && log.held != []
    requires pc.RecoverLocal? ==> Digest(log.held[|log.held| - 1]) == pc.j.expectedLocal
    requires pc.ReplaceLocal? ==> log.held[|log.held| - 1] == pc.plan.snapshot.content
    ensures SafeToReplace(log, OriginAt(pc), CandidateAt(pc), CommittedAt(pc))
  {
    if pc.RecoverLocal? { assert pc.seen == Pair(pc.j.candidate, pc.seen.revision); }
  }

  /** Under any interference, LOCAL changes only by the user's own save, or by a commit or recovery
      step that found LOCAL still equal to the candidate's input, after the remote held the candidate. */
  lemma LocalSafety(ws: seq<World>, acts: seq<Action>, i: nat, d: nat)
    requires Run(ws, acts) && i < |acts| && d in ws[i].devices
    ensures d in ws[i + 1].devices
    ensures
      var before, after, a := ws[i].devices[d].held, ws[i + 1].devices[d].held, acts[i];
      || after == before
      || (a.Save? && a.d == d && after == before + [a.content])
      || (a.Step? && a.t in ws[i].tasks && ws[i].tasks[a.t].device == d && ReplacesLocal(a.procedure, ws[i].tasks[a.t].pc)
          && after == before + [CandidateAt(ws[i].tasks[a.t].pc)]
          && SafeToReplace(LogOf(ws[i], d), OriginAt(ws[i].tasks[a.t].pc), CandidateAt(ws[i].tasks[a.t].pc),
                           CommittedAt(ws[i].tasks[a.t].pc)))
  {
    AlwaysInv(ws, acts, i);
    assert Next(ws[i], acts[i], ws[i + 1]);
    LocalSafetyStep(ws[i], acts[i], d);
  }

  lemma LocalSafetyStep(w: World, a: Action, d: nat)
    requires Inv(w) && Enabled(w, a) && d in w.devices
    ensures d in Do(w, a).devices
    ensures
      var before, after := w.devices[d].held, Do(w, a).devices[d].held;
      || after == before
      || (a.Save? && a.d == d && after == before + [a.content])
      || (a.Step? && a.t in w.tasks && w.tasks[a.t].device == d && ReplacesLocal(a.procedure, w.tasks[a.t].pc)
          && after == before + [CandidateAt(w.tasks[a.t].pc)]
          && SafeToReplace(LogOf(w, d), OriginAt(w.tasks[a.t].pc), CandidateAt(w.tasks[a.t].pc), CommittedAt(w.tasks[a.t].pc)))
  {
    if a.Step? && w.tasks[a.t].device == d && Do(w, a).devices[d].held != w.devices[d].held {
      assert TaskOk(w, a.t);
      OnlyTwoStepsReplace(a.procedure, w.rules, w.remote, w.devices[d], w.tasks[a.t].key, w.tasks[a.t].pc, a.choice);
      ReplacementIsSafe(LogOf(w, d), w.tasks[a.t].pc);
    }
  }

  // ---------------------------------------------------------------- BASE and journal

  /** Every BASE ever stored is a pair the remote held together, whose bytes LOCAL held or whose vault
      LOCAL held. */
  lemma BaseInvariant(ws: seq<World>, acts: seq<Action>, i: nat, d: nat, n: nat)
    requires Run(ws, acts) && i < |ws| && d in ws[i].devices && n < |ws[i].devices[d].bases|
    requires ws[i].devices[d].bases[n].Some?
    ensures Held(ws[i].remote, ws[i].devices[d].bases[n].value)
    ensures LocalMeant(ws[i].rules, ws[i].devices[d].held, ws[i].devices[d].bases[n].value.content)
  {
    AlwaysInv(ws, acts, i);
    assert DeviceOk(LogOf(ws[i], d), ws[i].devices[d]);
  }

  /** A journal describes a real decision over real inputs, and its phase is never ahead of the facts. */
  lemma JournalMeansWhatItSays(ws: seq<World>, acts: seq<Action>, i: nat, d: nat)
    requires Run(ws, acts) && i < |ws| && d in ws[i].devices && ws[i].devices[d].journal.Some?
    ensures
      var j := ws[i].devices[d].journal.value;
      && InputsReal(LogOf(ws[i], d), j.origin) && Follows(ws[i].rules, j.origin, j.candidate)
      && j.expectedLocal == Digest(j.origin.local) && j.expectedRemote == RevisionOf(j.origin.remote)
      && (j.phase in {RemoteCommitted, LocalCommitted} ==>
            j.committed.Some? && Held(ws[i].remote, Pair(j.candidate, j.committed.value)))
      && (j.phase == LocalCommitted ==> j.candidate in ws[i].devices[d].held)
  {
    AlwaysInv(ws, acts, i);
    assert DeviceOk(LogOf(ws[i], d), ws[i].devices[d]);
  }

  // ---------------------------------------------------------------- conflict tokens

  ghost predicate Takes(w: World, a: Action, d: nat, token: nat)
  {
    && a.Step? && a.procedure == Resolving && a.t in w.tasks && w.tasks[a.t].device == d
    && w.tasks[a.t].pc.ResolveTake? && w.tasks[a.t].pc.token == token
  }

  ghost predicate Installs(w: World, a: Action, d: nat, token: nat)
  {
    && a.Step? && a.procedure == Syncing && a.t in w.tasks && w.tasks[a.t].device == d
    && w.tasks[a.t].pc.Install? && a.choice.freshId == token
  }

  /** How one action can move the token sets and one device's conflict. */
  lemma TokenMoves(w: World, a: Action, d: nat)
    requires Inv(w) && Enabled(w, a) && d in w.devices
    ensures d in Do(w, a).devices && w.minted <= Do(w, a).minted && w.spent <= Do(w, a).spent
    ensures Do(w, a).devices[d].latestToken != w.devices[d].latestToken ==>
              && a.Step? && Installs(w, a, d, a.choice.freshId) && a.choice.freshId !in w.minted
              && Do(w, a).devices[d].latestToken == Some(a.choice.freshId)
    ensures a.Step? && Installs(w, a, d, a.choice.freshId) ==>
              Do(w, a).devices[d].latestToken == Some(a.choice.freshId) && a.choice.freshId in Do(w, a).minted
    ensures forall token :: Takes(w, a, d, token) ==>
              token in Do(w, a).spent && token !in w.spent && w.devices[d].latestToken == Some(token)
    ensures Do(w, a).devices[d].pending != w.devices[d].pending ==>
              || (a.StartSync? && a.d == d) || (a.Crash? && a.d == d)
              || (a.Step? && Installs(w, a, d, a.choice.freshId))
              || (w.devices[d].pending.Some? && Takes(w, a, d, w.devices[d].pending.value.token))
  {
    if a.Step? {
      var owner := w.tasks[a.t].device;
      TokenSteps(a.procedure, w.rules, w.remote, w.devices[owner], w.tasks[a.t].key, w.tasks[a.t].pc, a.choice);
    }
  }

  lemma TokensMonotone(ws: seq<World>, acts: seq<Action>, i: nat, d: nat)
    requires Run(ws, acts) && i < |acts| && d in ws[i].devices
    ensures d in ws[i + 1].devices && ws[i].minted <= ws[i + 1].minted && ws[i].spent <= ws[i + 1].spent
    ensures ws[i + 1].devices[d].latestToken == ws[i].devices[d].latestToken
            || (ws[i + 1].devices[d].latestToken.Some? && ws[i + 1].devices[d].latestToken.value !in ws[i].minted)
  {
    AlwaysInv(ws, acts, i);
    assert Next(ws[i], acts[i], ws[i + 1]);
    TokenMoves(ws[i], acts[i], d);
  }

  /** A pending conflict stays usable through anything but a new sync, a crash, a newer conflict or
      its own take: a wrong token or credential never costs it. */
  lemma PendingSurvives(ws: seq<World>, acts: seq<Action>, i: nat, d: nat)
    requires Run(ws, acts) && i < |acts| && d in ws[i].devices && ws[i].devices[d].pending.Some?
    requires !(acts[i].StartSync? && acts[i].d == d) && !(acts[i].Crash? && acts[i].d == d)
    requires !(acts[i].Step? && Installs(ws[i], acts[i], d, acts[i].choice.freshId))
    requires !Takes(ws[i], acts[i], d, ws[i].devices[d].pending.value.token)
    ensures d in ws[i + 1].devices && ws[i + 1].devices[d].pending == ws[i].devices[d].pending
  {
    AlwaysInv(ws, acts, i);
    assert Next(ws[i], acts[i], ws[i + 1]);
    TokenMoves(ws[i], acts[i], d);
  }

  lemma {:induction false} StaysSpent(ws: seq<World>, acts: seq<Action>, i: nat, k: nat, d: nat, token: nat)
    requires Run(ws, acts) && i <= k < |ws| && d in ws[i].devices && token in ws[i].spent
    ensures d in ws[k].devices && token in ws[k].spent
  {
    if i < k {
      StaysSpent(ws, acts, i, k - 1, d, token);
      TokensMonotone(ws, acts, k - 1, d);
    }
  }

  /** No token is taken twice, by any calls on any devices. */
  lemma TokenTakenOnce(ws: seq<World>, acts: seq<Action>, i: nat, d: nat, k: nat, o: nat, token: nat)
    requires Run(ws, acts) && i < |acts| && k < |acts|
    requires Takes(ws[i], acts[i], d, token) && Takes(ws[k], acts[k], o, token)
    ensures i == k
  {
    if i < k {
      TakenThenSpent(ws, acts, i, d, k, o, token);
    } else if k < i {
      TakenThenSpent(ws, acts, k, o, i, d, token);
    }
  }

  lemma TakenThenSpent(ws: seq<World>, acts: seq<Action>, i: nat, d: nat, k: nat, o: nat, token: nat)
    requires Run(ws, acts) && i < k < |acts| && Takes(ws[i], acts[i], d, token)
    ensures !Takes(ws[k], acts[k], o, token)
  {
    AlwaysInv(ws, acts, i);
    assert Next(ws[i], acts[i], ws[i + 1]);
    TokenMoves(ws[i], acts[i], d);
    StaysSpent(ws, acts, i + 1, k, d, token);
    if Takes(ws[k], acts[k], o, token) {
      AlwaysInv(ws, acts, k);
      assert Next(ws[k], acts[k], ws[k + 1]);
      TokenMoves(ws[k], acts[k], o);
    }
  }

  lemma LatestMovesOn(ws: seq<World>, acts: seq<Action>, i: nat, d: nat, token: nat)
    requires Run(ws, acts) && i < |acts| && d in ws[i].devices
    requires token in ws[i].minted && ws[i].devices[d].latestToken != Some(token)
    ensures d in ws[i + 1].devices && token in ws[i + 1].minted && ws[i + 1].devices[d].latestToken != Some(token)
  {
    TokensMonotone(ws, acts, i, d);
  }

  lemma {:induction false} NeverLatestAgain(ws: seq<World>, acts: seq<Action>, i: nat, k: nat, d: nat, token: nat)
    requires Run(ws, acts) && i <= k < |ws| && d in ws[i].devices
    requires token in ws[i].minted && ws[i].devices[d].latestToken != Some(token)
    ensures d in ws[k].devices && token in ws[k].minted && ws[k].devices[d].latestToken != Some(token)
    decreases k - i
  {
    if i < k {
      LatestMovesOn(ws, acts, i, d, token);
      NeverLatestAgain(ws, acts, i + 1, k, d, token);
    }
  }

  lemma {:induction false} StaysMinted(ws: seq<World>, acts: seq<Action>, i: nat, k: nat, d: nat, token: nat)
    requires Run(ws, acts) && i <= k < |ws| && d in ws[i].devices && token in ws[i].minted
    ensures d in ws[k].devices && token in ws[k].minted
  {
    if i < k {
      StaysMinted(ws, acts, i, k - 1, d, token);
      TokensMonotone(ws, acts, k - 1, d);
    }
  }

  /** A token is taken only while it is the latest installed: a newer conflict closes it for good. */
  lemma OnlyLatestTaken(ws: seq<World>, acts: seq<Action>, i: nat, j: nat, k: nat, d: nat, token: nat, newer: nat)
    requires Run(ws, acts) && i < j < k < |acts|
    requires Installs(ws[i], acts[i], d, token) && Installs(ws[j], acts[j], d, newer)
    ensures !Takes(ws[k], acts[k], d, token)
  {
    AlwaysInv(ws, acts, i);
    assert Next(ws[i], acts[i], ws[i + 1]);
    TokenMoves(ws[i], acts[i], d);
    StaysMinted(ws, acts, i + 1, j, d, token);
    AlwaysInv(ws, acts, j);
    assert Next(ws[j], acts[j], ws[j + 1]);
    TokenMoves(ws[j], acts[j], d);
    NeverLatestAgain(ws, acts, j + 1, k, d, token);
    if Takes(ws[k], acts[k], d, token) {
      AlwaysInv(ws, acts, k);
      assert Next(ws[k], acts[k], ws[k + 1]);
      TokenMoves(ws[k], acts[k], d);
    }
  }

  /** Whatever conflict is pending on `d`, it is not the one of `token`, and `token` is not fresh. */
  ghost predicate Closed(w: World, d: nat, token: nat)
  {
    && d in w.devices && token in w.minted
    && (w.devices[d].pending.Some? ==> w.devices[d].pending.value.token != token)
  }

  lemma ClosedStays(ws: seq<World>, acts: seq<Action>, i: nat, d: nat, token: nat)
    requires Run(ws, acts) && i < |acts| && Closed(ws[i], d, token)
    ensures Closed(ws[i + 1], d, token)
  {
    AlwaysInv(ws, acts, i);
    assert Next(ws[i], acts[i], ws[i + 1]);
    TokenMoves(ws[i], acts[i], d);
    AlwaysInv(ws, acts, i + 1);
    if ws[i + 1].devices[d].pending.Some? {
      PendingIsLatest(ws[i + 1], d);
    }
  }

  lemma PendingIsLatest(w: World, d: nat)
    requires Inv(w) && d in w.devices && w.devices[d].pending.Some?
    ensures w.devices[d].latestToken == Some(w.devices[d].pending.value.token)
  {
  }

  lemma {:induction false} ClosedForever(ws: seq<World>, acts: seq<Action>, i: nat, k: nat, d: nat, token: nat)
    requires Run(ws, acts) && i <= k < |ws| && Closed(ws[i], d, token)
    ensures Closed(ws[k], d, token)
    decreases k - i
  {
    if i < k {
      ClosedStays(ws, acts, i, d, token);
      ClosedForever(ws, acts, i + 1, k, d, token);
    }
  }

  /** A new sync and a restart close the conflict that was pending: its token is never taken after. */
  lemma NewSyncClosesConflict(ws: seq<World>, acts: seq<Action>, i: nat, k: nat, d: nat)
    requires Run(ws, acts) && i < k < |acts| && d in ws[i].devices && ws[i].devices[d].pending.Some?
    requires (acts[i].StartSync? || acts[i].Crash?) && acts[i].d == d
    ensures !Takes(ws[k], acts[k], d, ws[i].devices[d].pending.value.token)
  {
    var token := ws[i].devices[d].pending.value.token;
    AlwaysInv(ws, acts, i);
    assert Next(ws[i], acts[i], ws[i + 1]);
    TokensMonotone(ws, acts, i, d);
    assert Closed(ws[i + 1], d, token);
    ClosedForever(ws, acts, i + 1, k, d, token);
    assert Next(ws[k], acts[k], ws[k + 1]);
  }

  /** A whole-vault choice, of either side, is prepared only after BASE, LOCAL and the remote were each
      seen again, after the conflict was taken, exactly as they were captured; and a plan carries such
      evidence only if it is a choice. */
  lemma ChoiceRechecked(ws: seq<World>, acts: seq<Action>, i: nat, t: nat)
    requires Run(ws, acts) && i < |ws| && t in ws[i].tasks && ws[i].tasks[t].pc.Prepare?
    ensures ws[i].tasks[t].device in ws[i].devices
    ensures ws[i].tasks[t].pc.plan.origin.evidence.Some? <==>
              ws[i].tasks[t].pc.plan.origin.kind in {ChosenLocal, ChosenRemote}
    ensures ws[i].tasks[t].pc.plan.origin.evidence.Some? ==>
      var log, plan := LogOf(ws[i], ws[i].tasks[t].device), ws[i].tasks[t].pc.plan;
      var e := plan.origin.evidence.value;
      && TakenEarlier(log, e.taken)
      && BaseRechecked(log, e.pending, e.taken, e.seen.base)
      && LocalRechecked(log, e.pending, e.taken, e.seen.local)
      && RemoteRechecked(log, e.pending, e.taken, e.seen.remote)
      && plan.snapshot == e.pending.local && plan.origin.remote == Some(e.pending.remote)
  {
    AlwaysInv(ws, acts, i);
    assert TaskOk(ws[i], t);
  }

  /** Every plan that `resolve` prepares is such a choice. */
  lemma ResolvePreparesChoices(w: World, a: Action)
    requires WellFormed(w) && Enabled(w, a) && a.Step? && a.procedure == Resolving && a.t in Do(w, a).tasks
    requires Do(w, a).tasks[a.t].pc.Prepare?
    ensures Do(w, a).tasks[a.t].pc.plan.origin.kind in {ChosenLocal, ChosenRemote}
  {
  }

  /** No edit in LOCAL is lost by synchronizing. Whenever a commit or a recovery replaces LOCAL, the
      replacement is a merge that had LOCAL as its input, or LOCAL held nothing that BASE did not
      mean, or the user chose the remote side, with every captured value seen again. */
  lemma LocalEditsSurvive(ws: seq<World>, acts: seq<Action>, i: nat, d: nat)
    requires Run(ws, acts) && i < |acts| && d in ws[i].devices && !acts[i].Save?
    requires d in ws[i + 1].devices && ws[i + 1].devices[d].held != ws[i].devices[d].held
    ensures acts[i].Step? && acts[i].t in ws[i].tasks && ReplacesLocal(acts[i].procedure, ws[i].tasks[acts[i].t].pc)
    ensures
      var pc := ws[i].tasks[acts[i].t].pc;
      var o, c := OriginAt(pc), CandidateAt(pc);
      && o.local == Local(ws[i].devices[d]) && ws[i + 1].devices[d].held == ws[i].devices[d].held + [c]
      && (|| (o.kind == MergedBoth && Follows(ws[i].rules, o, c))
          || (o.kind == AppliedRemote && o.base.Some? && WasBase(ws[i].devices[d].bases, o.base.value)
              && SameMeaning(ws[i].rules, o.local, o.base.value))
          || (o.kind == ChosenRemote && o.evidence.Some? && EvidenceOk(LogOf(ws[i], d), o.evidence.value)))
  {
    AlwaysInv(ws, acts, i);
    assert Next(ws[i], acts[i], ws[i + 1]);
    LocalSafety(ws, acts, i, d);
    ReplacementHasReason(ws[i], acts[i], d);
  }

  /** A candidate that is not LOCAL was merged, fast-forwarded or chosen. */
  ghost predicate HasReason(w: World, d: nat, o: Origin, c: Ciphertext)
    requires d in w.devices && Started(w.devices[d])
  {
    && o.local == Local(w.devices[d])
    && (|| (o.kind == MergedBoth && Follows(w.rules, o, c))
        || (o.kind == AppliedRemote && o.base.Some? && WasBase(w.devices[d].bases, o.base.value)
            && SameMeaning(w.rules, o.local, o.base.value))
        || (o.kind == ChosenRemote && o.evidence.Some? && EvidenceOk(LogOf(w, d), o.evidence.value)))
  }

  lemma ReplacementHasReason(w: World, a: Action, d: nat)
    requires Inv(w) && Enabled(w, a) && a.Step? && a.t in w.tasks && w.tasks[a.t].device == d && d in w.devices
    requires Started(w.devices[d])
    requires ReplacesLocal(a.procedure, w.tasks[a.t].pc) && Do(w, a).devices[d].held != w.devices[d].held
    ensures HasReason(w, d, OriginAt(w.tasks[a.t].pc), CandidateAt(w.tasks[a.t].pc))
  {
    assert TaskOk(w, a.t);
    ReplacementDiffers(w, a, d);
    if w.tasks[a.t].pc.RecoverLocal? {
      RecoveryHasReason(w, a, d);
    } else {
      CommitHasReason(w, a, d);
    }
  }

  lemma RecoveryHasReason(w: World, a: Action, d: nat)
    requires WellFormed(w) && Enabled(w, a) && a.Step? && a.t in w.tasks && w.tasks[a.t].device == d && d in w.devices
    requires Started(w.devices[d])
    requires a.procedure == Recovering && w.tasks[a.t].pc.RecoverLocal? && TaskOk(w, a.t)
    requires CandidateAt(w.tasks[a.t].pc) != Local(w.devices[d]) && Do(w, a).devices[d].held != w.devices[d].held
    ensures HasReason(w, d, OriginAt(w.tasks[a.t].pc), CandidateAt(w.tasks[a.t].pc))
  {
  }

  lemma CommitHasReason(w: World, a: Action, d: nat)
    requires WellFormed(w) && Enabled(w, a) && a.Step? && a.t in w.tasks && w.tasks[a.t].device == d && d in w.devices
    requires Started(w.devices[d])
    requires a.procedure == Committing && w.tasks[a.t].pc.ReplaceLocal? && TaskOk(w, a.t)
    requires CandidateAt(w.tasks[a.t].pc) != Local(w.devices[d]) && Do(w, a).devices[d].held != w.devices[d].held
    ensures HasReason(w, d, OriginAt(w.tasks[a.t].pc), CandidateAt(w.tasks[a.t].pc))
  {
  }

  /** A replacement step runs only when the candidate is not LOCAL already. */
  lemma ReplacementDiffers(w: World, a: Action, d: nat)
    requires WellFormed(w) && Enabled(w, a) && a.Step? && w.tasks[a.t].device == d && d in w.devices
    requires ReplacesLocal(a.procedure, w.tasks[a.t].pc) && Do(w, a).devices[d].held != w.devices[d].held
    ensures CandidateAt(w.tasks[a.t].pc) != Local(w.devices[d])
  {
  }
}

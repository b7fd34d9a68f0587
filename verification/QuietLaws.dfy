/** What one call does when nothing else happens meanwhile: the steps of `sync` and `resolve`, run one
    after another, add up to a result that is told at once from what the device and the remote hold. */
module QuietLaws {
  import opened Vault
  import opened VaultSync
  import opened SyncProtocol

  // ---------------------------------------------------------------- a call alone

  function ProcedureOf(pc: Pc): (p: Procedure)
  {
    match pc
    case Capture => Syncing
    case LoadBase(_) => Syncing
    case ReadRemote(_, _) => Syncing
    case Confirm(_, _) => Syncing
    case Rebase(_) => Syncing
    case Install(_, _, _) => Syncing
    case Prepare(_) => Committing
    case Send(_, _) => Committing
    case Await(_, _) => Committing
    case MarkRemote(_, _, _) => Committing
    case ReplaceLocal(_, _, _) => Committing
    case MarkLocal(_, _, _) => Committing
    case WriteBase(_, _, _) => Committing
    case Forget(_) => Committing
    case ResolveCapture(_, _) => Resolving
    case ResolveTake(_, _) => Resolving
    case ResolveBase(_, _, _) => Resolving
    case ResolveLocal(_, _, _, _) => Resolving
    case ResolveRead(_, _, _, _, _) => Resolving
    case _ => Recovering
  }

  /** A call with its device and what it has sent; no `pc`: it has returned. */
  datatype At = At(device: Device, pc: Option<Pc>, sent: set<Request>)

  /** What a call is given: the merge rules, the remote, the credential, and what it cannot choose. */
  datatype Setting = Setting(rules: Rules, remote: seq<Generation>, key: nat, choice: Choice)

  function NextAlone(s: Setting, at: At): (r: Option<At>)
    requires Started(at.device)
    ensures r.Some? ==> Started(r.value.device)
  {
    if at.pc.None? then None
    else match CallStep(ProcedureOf(at.pc.value), s.rules, s.remote, at.device, s.key, at.pc.value, s.choice)
      case None => None
      case Some(e) => Some(At(e.device, e.next, at.sent + e.send))
  }

  /** The call runs until it returns, fails, or waits for the answer to a write. */
  function Alone(s: Setting, at: At, fuel: nat): (r: At)
    requires Started(at.device)
    ensures Started(r.device)
    decreases fuel
  {
    if fuel == 0 || (at.pc.Some? && at.pc.value.Await?) || NextAlone(s, at).None? then at
    else Alone(s, NextAlone(s, at).value, fuel - 1)
  }

  /** `n` steps lead from `a` to `b`. */
  ghost predicate Goes(s: Setting, a: At, b: At, n: nat)
  {
    && Started(a.device) && Started(b.device)
    && forall fuel: nat {:trigger Alone(s, a, fuel)} :: fuel >= n ==> Alone(s, a, fuel) == Alone(s, b, fuel - n)
  }

  /** It has returned, failed, or waits for an answer. */
  predicate Final(s: Setting, at: At)
    requires Started(at.device)
  {
    (at.pc.Some? && at.pc.value.Await?) || NextAlone(s, at).None?
  }

  lemma GoesOne(s: Setting, a: At, b: At)
    requires Started(a.device) && !Final(s, a)
    requires NextAlone(s, a).value.device == b.device && NextAlone(s, a).value.pc == b.pc
    requires NextAlone(s, a).value.sent == b.sent
    ensures Goes(s, a, b, 1)
  {
  }

  lemma GoesOn(s: Setting, a: At, b: At, c: At, m: nat, n: nat)
    requires Goes(s, a, b, m) && Goes(s, b, c, n)
    ensures Goes(s, a, c, m + n)
  {
    forall fuel: nat | fuel >= m + n ensures Alone(s, a, fuel) == Alone(s, c, fuel - (m + n)) {
      assert Alone(s, a, fuel) == Alone(s, b, fuel - m);
      assert Alone(s, b, fuel - m) == Alone(s, c, fuel - m - n);
    }
  }

  lemma GoesStep(s: Setting, a: At, b: At, c: At, n: nat)
    requires Started(a.device) && !Final(s, a)
    requires NextAlone(s, a).value.device == b.device && NextAlone(s, a).value.pc == b.pc
    requires NextAlone(s, a).value.sent == b.sent
    requires Goes(s, b, c, n)
    ensures Goes(s, a, c, n + 1)
  {
    GoesOne(s, a, b);
    GoesOn(s, a, b, c, 1, n);
  }

  lemma GoesNowhere(s: Setting, a: At)
    requires Started(a.device)
    ensures Goes(s, a, a, 0)
  {
  }

  lemma EndsThere(s: Setting, a: At, b: At, n: nat, fuel: nat)
    requires Goes(s, a, b, n) && Final(s, b) && fuel >= n
    ensures Alone(s, a, fuel) == b
  {
    assert Alone(s, a, fuel) == Alone(s, b, fuel - n);
  }

  // ---------------------------------------------------------------- results

  /** It failed, with nothing sent and the device as it was. */
  predicate Failed(at: At, device: Device)
  {
    at.pc.Some? && !at.pc.value.Await? && at.device == device && at.sent == {}
  }

  /** It has journaled `candidate` and sent exactly one write of it, on the condition `expected`. */
  predicate Uploads(at: At, device: Device, expected: Option<nat>, candidate: Ciphertext, kind: Kind)
    requires Started(device)
  {
    && at.pc.Some? && at.pc.value.Await? && at.sent == {PlanRequest(at.pc.value.plan)}
    && at.device == device.(journal := Some(at.pc.value.j))
    && at.pc.value.plan.snapshot == Snapshot(device.session, Local(device))
    && at.pc.value.plan.expected == expected && at.pc.value.plan.candidate == candidate
    && at.pc.value.plan.origin.kind == kind
    && at.pc.value.j.phase == Prepared && at.pc.value.j.candidate == candidate && at.pc.value.j.committed.None?
    && at.pc.value.j.expectedLocal == Digest(Local(device)) && at.pc.value.j.expectedRemote == expected
  }

  /** It has returned without a write, LOCAL is the remote content, and BASE the remote generation. */
  predicate TakesOver(at: At, device: Device, r: Pair)
    requires Started(device) && Started(at.device)
  {
    && at.pc.None? && at.sent == {} && Local(at.device) == r.content && Base(at.device) == Some(r)
    && at.device == device.(held := at.device.held, bases := at.device.bases)
  }

  /** It has returned without a write, LOCAL is as it was, and BASE is the remote generation. */
  predicate Rebases(at: At, device: Device, r: Pair)
  {
    at.pc.None? && at.sent == {} && at.device == device.(bases := device.bases + [Some(r)])
  }

  /** It has returned without a write and left a conflict for the user to decide. */
  predicate LeavesConflict(at: At, device: Device, r: Pair, token: nat)
    requires Started(device)
  {
    && at.pc.None? && at.sent == {}
    && at.device == device.(latestToken := Some(token),
                            pending := Some(Pending(token, Snapshot(device.session, Local(device)), r, BaseDigest(Base(device)))))
  }

  // ---------------------------------------------------------------- commits

  lemma UploadAlone(s: Setting, device: Device, plan: Plan) returns (at: At)
    requires Started(device) && device.journal.None? && OpenDocument(plan.candidate, s.key).Some?
    requires plan.action != AlreadyCommitted && plan.snapshot == Snapshot(device.session, Local(device))
    ensures Goes(s, At(device, Some(Prepare(plan)), {}), at, 2) && Final(s, at)
    ensures Uploads(at, device, plan.expected, plan.candidate, plan.origin.kind)
  {
    var j := Journal(s.choice.freshId, Prepared, Digest(plan.snapshot.content), plan.expected, plan.candidate, None,
                     plan.origin);
    var prepared := device.(journal := Some(j));
    at := At(prepared, Some(Await(plan, j)), {PlanRequest(plan)});
    GoesOne(s, At(prepared, Some(Send(plan, j)), {}), at);
    GoesStep(s, At(device, Some(Prepare(plan)), {}), At(prepared, Some(Send(plan, j)), {}), at, 1);
  }

  /** The device at the end of a commit: LOCAL is the candidate, BASE too, and there is no journal. */
  function Finished(device: Device, plan: Plan, rev: nat): (r: Device)
  {
    device.(journal := None, bases := device.bases + [Some(Pair(plan.candidate, rev))],
            held := if plan.candidate == plan.snapshot.content then device.held else device.held + [plan.candidate])
  }

  lemma CloseAlone(s: Setting, device: Device, plan: Plan, j: Journal, rev: nat)
    requires Started(device) && device.journal == Some(j)
    ensures Goes(s, At(device, Some(MarkLocal(plan, j, rev)), {}),
                 At(device.(journal := None, bases := device.bases + [Some(Pair(plan.candidate, rev))]), None, {}), 3)
  {
    var marked := j.(phase := LocalCommitted);
    var d1 := device.(journal := Some(marked));
    var d2 := StoreBase(d1, Pair(plan.candidate, rev));
    var end := At(d2.(journal := None), None, {});
    GoesOne(s, At(d2, Some(Forget(j.op)), {}), end);
    GoesStep(s, At(d1, Some(WriteBase(plan, marked, rev)), {}), At(d2, Some(Forget(j.op)), {}), end, 1);
    GoesStep(s, At(device, Some(MarkLocal(plan, j, rev)), {}), At(d1, Some(WriteBase(plan, marked, rev)), {}), end, 2);
  }

  lemma FinishAlone(s: Setting, device: Device, plan: Plan, j: Journal, rev: nat)
    requires Started(device) && device.journal == Some(j) && LocalUnchanged(device, plan.snapshot)
    ensures Goes(s, At(device, Some(MarkRemote(plan, j, rev)), {}), At(Finished(device, plan, rev), None, {}), 5)
  {
    var marked := j.(phase := RemoteCommitted, committed := Some(rev));
    var d1 := device.(journal := Some(marked));
    var d2 := if plan.candidate == plan.snapshot.content then d1 else d1.(held := d1.held + [plan.candidate]);
    var end := At(Finished(device, plan, rev), None, {});
    CloseAlone(s, d2, plan, marked, rev);
    GoesStep(s, At(d1, Some(ReplaceLocal(plan, marked, rev)), {}), At(d2, Some(MarkLocal(plan, marked, rev)), {}), end,
             3);
    GoesStep(s, At(device, Some(MarkRemote(plan, j, rev)), {}), At(d1, Some(ReplaceLocal(plan, marked, rev)), {}), end,
             4);
  }

  lemma TakeOverAlone(s: Setting, device: Device, plan: Plan, r: Pair) returns (at: At)
    requires Started(device) && device.journal.None? && OpenDocument(plan.candidate, s.key).Some?
    requires plan.action == AlreadyCommitted && plan.expected == Some(r.revision) && plan.candidate == r.content
    requires plan.snapshot == Snapshot(device.session, Local(device))
    ensures Goes(s, At(device, Some(Prepare(plan)), {}), at, 7) && Final(s, at) && TakesOver(at, device, r)
  {
    var j := Journal(s.choice.freshId, Prepared, Digest(plan.snapshot.content), plan.expected, plan.candidate, None,
                     plan.origin);
    var prepared := device.(journal := Some(j));
    at := At(Finished(prepared, plan, r.revision), None, {});
    FinishAlone(s, prepared, plan, j, r.revision);
    GoesStep(s, At(prepared, Some(Send(plan, j)), {}), At(prepared, Some(MarkRemote(plan, j, r.revision)), {}), at, 5);
    GoesStep(s, At(device, Some(Prepare(plan)), {}), At(prepared, Some(Send(plan, j)), {}), at, 6);
  }

  /** The answer to a write: a confirmed one ends with LOCAL and BASE the candidate; a refused one ends
      with everything as it was before the call. */
  lemma AnswerExactly(s: Setting, device: Device, plan: Plan, j: Journal, fuel: nat)
    requires Started(device) && device.journal == Some(j) && LocalUnchanged(device, plan.snapshot) && fuel >= 5
    requires !s.choice.reply.WriteResultUncertain?
    ensures var next := NextAlone(s, At(device, Some(Await(plan, j)), {}));
            && next.Some?
            && Alone(s, next.value, fuel) ==
                 At(if s.choice.reply.Committed? then Finished(device, plan, s.choice.reply.revision) else device.(journal := None),
                    None, {})
  {
    var next := NextAlone(s, At(device, Some(Await(plan, j)), {}));
    assert next.value.sent == {};
    if s.choice.reply.Committed? {
      FinishAlone(s, device, plan, j, s.choice.reply.revision);
      EndsThere(s, next.value, At(Finished(device, plan, s.choice.reply.revision), None, {}), 5, fuel);
    } else {
      var end := At(device.(journal := None), None, {});
      GoesOne(s, next.value, end);
      EndsThere(s, next.value, end, 1, fuel);
    }
  }

  lemma FinishedAs(device: Device, plan: Plan, rev: nat)
    requires Started(device) && Local(device) == plan.snapshot.content
    ensures var r := Finished(device, plan, rev);
            && Local(r) == plan.candidate && Base(r) == Some(Pair(plan.candidate, rev)) && r.journal.None?
            && r.pending == device.pending && r.session == device.session && r.latestToken == device.latestToken
  {
  }

  // ---------------------------------------------------------------- sync

  /** Whether the credential opens the bytes. */
  predicate Opens(c: Ciphertext, key: nat)
  {
    c.Sealed? && c.key == key
  }

  /** What `sync` amounts to on a device without a journal. */
  predicate SyncResult(s: Setting, device: Device, at: At)
    requires Started(device) && Started(at.device)
  {
    var local, base, remote := Local(device), Base(device), Current(s.remote);
    if remote.None? then
      if base.None? && Opens(local, s.key) then Uploads(at, device, None, local, Created) else Failed(at, device)
    else if !Opens(local, s.key) || !Opens(remote.value.content, s.key) then Failed(at, device)
    else if base.None? then
      if s.rules.same(local.document, remote.value.content.document) then Rebases(at, device, remote.value)
      else LeavesConflict(at, device, remote.value, s.choice.freshId)
    else if !Opens(base.value.content, s.key) then Failed(at, device)
    else match s.choice.outcome
      case Equivalent => Rebases(at, device, remote.value)
      case FastForwardLocal => Uploads(at, device, Some(remote.value.revision), local, FastForward)
      case FastForwardRemote => TakesOver(at, device, remote.value)
      case Merged(m) => Uploads(at, device, Some(remote.value.revision), Sealed(m, s.key, s.choice.salt), MergedBoth)
      case Conflicted(_) => LeavesConflict(at, device, remote.value, s.choice.freshId)
      case _ => Failed(at, device)
  }

  lemma RebaseAlone(s: Setting, device: Device, r: Pair) returns (at: At)
    requires Started(device)
    ensures Goes(s, At(device, Some(Confirm(Snapshot(device.session, Local(device)), r)), {}), at, 2) && Final(s, at)
    ensures Rebases(at, device, r)
  {
    at := At(StoreBase(device, r), None, {});
    GoesOne(s, At(device, Some(Rebase(r)), {}), at);
    GoesStep(s, At(device, Some(Confirm(Snapshot(device.session, Local(device)), r)), {}),
             At(device, Some(Rebase(r)), {}), at, 1);
  }

  lemma ConflictAlone(s: Setting, device: Device, r: Pair) returns (at: At)
    requires Started(device)
    ensures Goes(s, At(device, Some(Install(Snapshot(device.session, Local(device)), r, BaseDigest(Base(device)))), {}), at, 1)
    ensures Final(s, at) && LeavesConflict(at, device, r, s.choice.freshId)
  {
    var snap := Snapshot(device.session, Local(device));
    var pending := Pending(s.choice.freshId, snap, r, BaseDigest(Base(device)));
    at := At(device.(pending := Some(pending), latestToken := Some(s.choice.freshId)), None, {});
    GoesOne(s, At(device, Some(Install(snap, r, BaseDigest(Base(device)))), {}), at);
  }

  lemma PlannedAlone(s: Setting, device: Device, plan: Plan) returns (at: At, n: nat)
    requires Started(device) && device.journal.None?
    requires Decide(s.rules, Snapshot(device.session, Local(device)), Base(device), Current(s.remote), s.key, s.choice)
             == Some(Prepare(plan))
    ensures Goes(s, At(device, Some(Prepare(plan)), {}), at, n) && n <= 7 && Final(s, at) && SyncResult(s, device, at)
  {
    if OpenDocument(plan.candidate, s.key).None? {
      at, n := At(device, Some(Prepare(plan)), {}), 0;
      GoesNowhere(s, at);
    } else if plan.action == AlreadyCommitted {
      at := TakeOverAlone(s, device, plan, Current(s.remote).value);
      n := 7;
    } else {
      at := UploadAlone(s, device, plan);
      n := 2;
    }
  }

  /** The decision leads to its result. */
  lemma DecidedAlone(s: Setting, device: Device) returns (at: At, n: nat)
    requires Started(device) && device.journal.None?
    ensures Goes(s, At(device, Some(ReadRemote(Snapshot(device.session, Local(device)), Base(device))), {}), at, n)
    ensures n <= 8 && Final(s, at) && SyncResult(s, device, at)
  {
    var start := At(device, Some(ReadRemote(Snapshot(device.session, Local(device)), Base(device))), {});
    var next := Decide(s.rules, Snapshot(device.session, Local(device)), Base(device), Current(s.remote), s.key,
                       s.choice);
    if next.None? {
      at, n := start, 0;
      GoesNowhere(s, at);
    } else {
      if next.value.Confirm? {
        at := RebaseAlone(s, device, next.value.r);
        n := 2;
      } else if next.value.Install? {
        at := ConflictAlone(s, device, next.value.r);
        n := 1;
      } else {
        at, n := PlannedAlone(s, device, next.value.plan);
      }
      GoesStep(s, start, At(device, next, {}), at, n);
      n := n + 1;
    }
  }

  /** An undisturbed sync does exactly what the merge outcome asks for: it fails, uploads, takes over
      the remote vault, only moves BASE, or leaves a conflict, and nothing else changes. */
  lemma SyncAloneExactly(s: Setting, device: Device, fuel: nat)
    requires Started(device) && device.journal.None? && fuel >= 11
    ensures SyncResult(s, device, Alone(s, At(device, Some(Capture), {}), fuel))
  {
    var snap := Snapshot(device.session, Local(device));
    var at, n := DecidedAlone(s, device);
    GoesStep(s, At(device, Some(LoadBase(snap)), {}), At(device, Some(ReadRemote(snap, Base(device))), {}), at, n);
    GoesStep(s, At(device, Some(LoadJournal(snap, FromSync)), {}), At(device, Some(LoadBase(snap)), {}), at, n + 1);
    GoesStep(s, At(device, Some(Capture), {}), At(device, Some(LoadJournal(snap, FromSync)), {}), at, n + 2);
    EndsThere(s, At(device, Some(Capture), {}), at, n + 3, fuel);
  }

  // ---------------------------------------------------------------- resolve

  /** Nothing has changed since the conflict was captured. */
  predicate AsCaptured(s: Setting, device: Device, p: Pending)
    requires Started(device)
  {
    BaseDigest(Base(device)) == p.base && LocalUnchanged(device, p.local) && Current(s.remote) == Some(p.remote)
  }

  /** What `resolve` amounts to: a wrong credential or token costs nothing; otherwise the conflict is
      used up, and the choice is carried out if and only if nothing has changed since. */
  predicate ResolveResult(s: Setting, device: Device, token: nat, keepLocal: bool, at: At)
    requires Started(device) && Started(at.device)
  {
    if !Opens(Local(device), s.key) || device.pending.None? || device.pending.value.token != token then Failed(at, device)
    else TakenResult(s, device.(pending := None), device.pending.value, keepLocal, at)
  }

  predicate TakenResult(s: Setting, used: Device, p: Pending, keepLocal: bool, at: At)
    requires Started(used) && Started(at.device)
  {
    if !AsCaptured(s, used, p) then Failed(at, used) else ChoiceResult(s, used, p, keepLocal, at)
  }

  predicate ChoiceResult(s: Setting, used: Device, p: Pending, keepLocal: bool, at: At)
    requires Started(used) && Started(at.device)
  {
    if keepLocal then Uploads(at, used, Some(p.remote.revision), p.local.content, ChosenLocal)
    else if Opens(p.remote.content, s.key) then TakesOver(at, used, p.remote)
    else Failed(at, used)
  }

  lemma ChoiceAlone(s: Setting, device: Device, p: Pending, evidence: Evidence, keepLocal: bool)
    returns (at: At, n: nat)
    requires Started(device) && device.journal.None? && LocalUnchanged(device, p.local) && Opens(Local(device), s.key)
    ensures Goes(s, At(device, Some(Prepare(ChoicePlan(p, evidence, keepLocal))), {}), at, n)
    ensures n <= 7 && Final(s, at) && ChoiceResult(s, device, p, keepLocal, at)
  {
    var plan := ChoicePlan(p, evidence, keepLocal);
    assert plan.snapshot == Snapshot(device.session, Local(device));
    if OpenDocument(plan.candidate, s.key).None? {
      at, n := At(device, Some(Prepare(plan)), {}), 0;
      GoesNowhere(s, at);
    } else if keepLocal {
      at := UploadAlone(s, device, plan);
      n := 2;
    } else {
      at := TakeOverAlone(s, device, plan, p.remote);
      n := 7;
    }
  }

  /** The three re-checks, and what follows. */
  lemma TakenAlone(s: Setting, used: Device, p: Pending, taken: Stamp, keepLocal: bool) returns (at: At, n: nat)
    requires Started(used) && used.journal.None? && Opens(Local(used), s.key)
    ensures Goes(s, At(used, Some(ResolveBase(p, taken, keepLocal)), {}), at, n)
    ensures n <= 10 && Final(s, at) && TakenResult(s, used, p, keepLocal, at)
  {
    var a0 := At(used, Some(ResolveBase(p, taken, keepLocal)), {});
    if BaseDigest(Base(used)) != p.base {
      at, n := a0, 0;
      GoesNowhere(s, a0);
    } else {
      at, n := RereadAlone(s, used, p, taken, |used.bases| - 1, keepLocal);
      GoesStep(s, a0, At(used, Some(ResolveLocal(p, taken, |used.bases| - 1, keepLocal)), {}), at, n);
      n := n + 1;
    }
  }

  lemma RereadAlone(s: Setting, used: Device, p: Pending, taken: Stamp, baseAt: nat, keepLocal: bool)
    returns (at: At, n: nat)
    requires Started(used) && used.journal.None? && Opens(Local(used), s.key) && BaseDigest(Base(used)) == p.base
    ensures Goes(s, At(used, Some(ResolveLocal(p, taken, baseAt, keepLocal)), {}), at, n)
    ensures n <= 9 && Final(s, at) && TakenResult(s, used, p, keepLocal, at)
  {
    var a1 := At(used, Some(ResolveLocal(p, taken, baseAt, keepLocal)), {});
    if !LocalUnchanged(used, p.local) {
      at, n := a1, 0;
      GoesNowhere(s, a1);
    } else {
      at, n := RemoteRereadAlone(s, used, p, taken, baseAt, |used.held| - 1, keepLocal);
      GoesStep(s, a1, At(used, Some(ResolveRead(p, taken, baseAt, |used.held| - 1, keepLocal)), {}), at, n);
      n := n + 1;
    }
  }

  lemma RemoteRereadAlone(s: Setting, used: Device, p: Pending, taken: Stamp, baseAt: nat, localAt: nat,
                          keepLocal: bool)
    returns (at: At, n: nat)
    requires Started(used) && used.journal.None? && Opens(Local(used), s.key) && BaseDigest(Base(used)) == p.base
    requires LocalUnchanged(used, p.local)
    ensures Goes(s, At(used, Some(ResolveRead(p, taken, baseAt, localAt, keepLocal)), {}), at, n)
    ensures n <= 8 && Final(s, at) && TakenResult(s, used, p, keepLocal, at)
  {
    var a2 := At(used, Some(ResolveRead(p, taken, baseAt, localAt, keepLocal)), {});
    if Current(s.remote) != Some(p.remote) {
      at, n := a2, 0;
      GoesNowhere(s, a2);
    } else {
      var evidence := Evidence(p, taken, Stamp(baseAt, localAt, |s.remote| - 1));
      at, n := ChoiceAlone(s, used, p, evidence, keepLocal);
      GoesStep(s, a2, At(used, Some(Prepare(ChoicePlan(p, evidence, keepLocal))), {}), at, n);
      n := n + 1;
    }
  }

  /** An undisturbed resolve does exactly what the choice asks for: keeping LOCAL uploads the captured
      LOCAL bytes over the captured generation; keeping REMOTE sends nothing and ends with LOCAL the
      captured remote bytes and BASE the captured generation. */
  lemma ResolveAloneExactly(s: Setting, device: Device, token: nat, keepLocal: bool, fuel: nat)
    requires Started(device) && device.journal.None? && fuel >= 12
    ensures ResolveResult(s, device, token, keepLocal, Alone(s, At(device, Some(ResolveCapture(token, keepLocal)), {}), fuel))
  {
    var at, n := ResolveAlone(s, device, token, keepLocal);
    EndsThere(s, At(device, Some(ResolveCapture(token, keepLocal)), {}), at, n, fuel);
  }

  lemma ResolveAlone(s: Setting, device: Device, token: nat, keepLocal: bool) returns (at: At, n: nat)
    requires Started(device) && device.journal.None?
    ensures Goes(s, At(device, Some(ResolveCapture(token, keepLocal)), {}), at, n)
    ensures n <= 12 && Final(s, at) && ResolveResult(s, device, token, keepLocal, at)
  {
    var a0 := At(device, Some(ResolveCapture(token, keepLocal)), {});
    var a1 := At(device, Some(ResolveTake(token, keepLocal)), {});
    if !Opens(Local(device), s.key) {
      at, n := a0, 0;
      GoesNowhere(s, a0);
    } else if device.pending.None? || device.pending.value.token != token {
      at, n := a1, 1;
      GoesOne(s, a0, a1);
    } else {
      var used, taken := device.(pending := None), Now(s.remote, device);
      at, n := TakenAlone(s, used, device.pending.value, taken, keepLocal);
      GoesStep(s, a1, At(used, Some(ResolveBase(device.pending.value, taken, keepLocal)), {}), at, n);
      GoesStep(s, a0, a1, at, n + 1);
      n := n + 2;
    }
  }
}

/** Every step of every call, and every move of the environment, keeps the protocol invariant. */
module SyncSteps {
  import opened Vault
  import opened SyncProtocol
  import opened SyncInvariant

  lemma LocalMeansItself(rules: Rules, held: seq<Ciphertext>, c: Ciphertext)
    requires c in held
    ensures LocalMeant(rules, held, c)
  {
    var i :| 0 <= i < |held| && held[i] == c;
    assert SameMeaning(rules, held[i], c);
  }

  function LogFor(rules: Rules, remote: seq<Generation>, device: Device): (log: Log)
  {
    Log(rules, remote, device.held, device.bases)
  }

  /** An effect that grows its own logs and leaves its device and its call sound. */
  ghost predicate Sound(rules: Rules, remote: seq<Generation>, device: Device, e: Effect)
  {
    && Grows(LogFor(rules, remote, device), LogFor(rules, remote, e.device)) && Started(e.device)
    && DeviceOk(LogFor(rules, remote, e.device), e.device)
    && StandsAt(LogFor(rules, remote, e.device), e.next)
    && forall q :: q in e.send ==> RequestOk(rules, remote, q)
  }

  lemma StoredBaseOk(rules: Rules, remote: seq<Generation>, device: Device, r: Pair)
    requires DeviceOk(LogFor(rules, remote, device), device) && BaseOk(LogFor(rules, remote, device), r)
    ensures Grows(LogFor(rules, remote, device), LogFor(rules, remote, StoreBase(device, r)))
    ensures DeviceOk(LogFor(rules, remote, StoreBase(device, r)), StoreBase(device, r))
  {
    var log, log2 := LogFor(rules, remote, device), LogFor(rules, remote, StoreBase(device, r));
    DeviceGrows(log, log2, device);
  }

  lemma ReplacedClaims(rules: Rules, remote: seq<Generation>, device: Device, c: Ciphertext, pc: Pc)
    requires StandsAt(LogFor(rules, remote, device), Some(pc))
    ensures StandsAt(LogFor(rules, remote, device.(held := device.held + [c])), Some(pc))
    ensures c in device.(held := device.held + [c]).held
  {
    var device2 := device.(held := device.held + [c]);
    ClaimsSurvive(LogFor(rules, remote, device), LogFor(rules, remote, device2), pc);
    assert device2.held[|device.held|] == c;
  }

  /** LOCAL is replaced, by bytes that the next position relies on having been held. */
  lemma LocalReplaced(rules: Rules, remote: seq<Generation>, device: Device, c: Ciphertext, next: Pc)
    requires Started(device) && DeviceOk(LogFor(rules, remote, device), device)
    requires StandsAt(LogFor(rules, remote, device.(held := device.held + [c])), Some(next))
    ensures Sound(rules, remote, device, Goto(device.(held := device.held + [c]), next))
  {
    DeviceGrows(LogFor(rules, remote, device), LogFor(rules, remote, device.(held := device.held + [c])), device);
  }

  lemma LoadingSound(rules: Rules, remote: seq<Generation>, device: Device, key: nat, pc: Pc)
    requires pc.LoadJournal? || pc.RecoverMarkRemote? || pc.RecoverDrop?
    requires Started(device) && DeviceOk(LogFor(rules, remote, device), device)
    requires StandsAt(LogFor(rules, remote, device), Some(pc))
    requires RecoveryStep(remote, device, key, pc).Some?
    ensures Sound(rules, remote, device, RecoveryStep(remote, device, key, pc).value)
  {
  }

  lemma JudgingSound(rules: Rules, remote: seq<Generation>, device: Device, key: nat, pc: Pc)
    requires pc.RecoverRead?
    requires Started(device) && DeviceOk(LogFor(rules, remote, device), device)
    requires StandsAt(LogFor(rules, remote, device), Some(pc))
    requires RecoveryStep(remote, device, key, pc).Some?
    ensures Sound(rules, remote, device, RecoveryStep(remote, device, key, pc).value)
  {
  }

  lemma ReplacingSound(rules: Rules, remote: seq<Generation>, device: Device, key: nat, pc: Pc)
    requires pc.RecoverLocal?
    requires Started(device) && DeviceOk(LogFor(rules, remote, device), device)
    requires StandsAt(LogFor(rules, remote, device), Some(pc))
    requires RecoveryStep(remote, device, key, pc).Some?
    ensures Sound(rules, remote, device, RecoveryStep(remote, device, key, pc).value)
  {
    ReplacedClaims(rules, remote, device, pc.j.candidate, pc);
    LocalReplaced(rules, remote, device, pc.j.candidate, RecoverMarkLocal(pc.j, pc.seen));
  }

  lemma CompletingSound(rules: Rules, remote: seq<Generation>, device: Device, key: nat, pc: Pc)
    requires pc.RecoverMarkLocal? || pc.RecoverCheck?
    requires Started(device) && DeviceOk(LogFor(rules, remote, device), device)
    requires StandsAt(LogFor(rules, remote, device), Some(pc))
    requires RecoveryStep(remote, device, key, pc).Some?
    ensures Sound(rules, remote, device, RecoveryStep(remote, device, key, pc).value)
  {
  }

  lemma BasingSound(rules: Rules, remote: seq<Generation>, device: Device, key: nat, pc: Pc)
    requires pc.RecoverBase?
    requires Started(device) && DeviceOk(LogFor(rules, remote, device), device)
    requires StandsAt(LogFor(rules, remote, device), Some(pc))
    requires RecoveryStep(remote, device, key, pc).Some?
    ensures Sound(rules, remote, device, RecoveryStep(remote, device, key, pc).value)
  {
    LocalMeansItself(rules, device.held, pc.j.candidate);
    StoredBaseOk(rules, remote, device, pc.seen);
  }

  lemma RecoveryStepSound(rules: Rules, remote: seq<Generation>, device: Device, key: nat, pc: Pc)
    requires Started(device) && DeviceOk(LogFor(rules, remote, device), device)
    requires StandsAt(LogFor(rules, remote, device), Some(pc))
    requires RecoveryStep(remote, device, key, pc).Some?
    ensures Sound(rules, remote, device, RecoveryStep(remote, device, key, pc).value)
  {
    if pc.RecoverLocal? {
      ReplacingSound(rules, remote, device, key, pc);
    } else if pc.RecoverMarkLocal? || pc.RecoverCheck? {
      CompletingSound(rules, remote, device, key, pc);
    } else if pc.RecoverBase? {
      BasingSound(rules, remote, device, key, pc);
    } else if pc.RecoverRead? {
      JudgingSound(rules, remote, device, key, pc);
    } else {
      LoadingSound(rules, remote, device, key, pc);
    }
  }

  lemma DecideSound(log: Log, snap: Snapshot, base: Option<Pair>, key: nat, c: Choice)
    requires snap.content in log.held && (base.Some? ==> WasBase(log.bases, base.value.content))
    requires DecisionAllowed(log.rules, snap, base, Current(log.remote), key, c)
    ensures StandsAt(log, Decide(log.rules, snap, base, Current(log.remote), key, c))
  {
  }

  lemma SyncStepSound(rules: Rules, remote: seq<Generation>, device: Device, key: nat, pc: Pc, c: Choice)
    requires Started(device) && DeviceOk(LogFor(rules, remote, device), device)
    requires StandsAt(LogFor(rules, remote, device), Some(pc))
    requires pc.ReadRemote? ==> DecisionAllowed(rules, pc.snap, pc.base, Current(remote), key, c)
    requires SyncStep(rules, remote, device, key, pc, c).Some?
    ensures Sound(rules, remote, device, SyncStep(rules, remote, device, key, pc, c).value)
  {
    match pc
    case ReadRemote(snap, base) => DecideSound(LogFor(rules, remote, device), snap, base, key, c);
    case Rebase(r) => StoredBaseOk(rules, remote, device, r);
    case _ =>
  }

  lemma PreparingSound(rules: Rules, remote: seq<Generation>, device: Device, key: nat, pc: Pc, c: Choice)
    requires pc.Prepare?
    requires Started(device) && DeviceOk(LogFor(rules, remote, device), device)
    requires StandsAt(LogFor(rules, remote, device), Some(pc))
    requires CommitStep(device, key, pc, c).Some?
    ensures Sound(rules, remote, device, CommitStep(device, key, pc, c).value)
  {
  }

  lemma MarkingSound(rules: Rules, remote: seq<Generation>, device: Device, key: nat, pc: Pc, c: Choice)
    requires pc.MarkRemote?
    requires Started(device) && DeviceOk(LogFor(rules, remote, device), device)
    requires StandsAt(LogFor(rules, remote, device), Some(pc))
    requires CommitStep(device, key, pc, c).Some?
    ensures Sound(rules, remote, device, CommitStep(device, key, pc, c).value)
  {
  }

  lemma AnsweredSound(rules: Rules, remote: seq<Generation>, device: Device, key: nat, pc: Pc, c: Choice)
    requires pc.Await?
    requires Started(device) && DeviceOk(LogFor(rules, remote, device), device)
    requires StandsAt(LogFor(rules, remote, device), Some(pc))
    requires c.reply.Committed? ==> Held(remote, Pair(pc.plan.candidate, c.reply.revision))
    requires CommitStep(device, key, pc, c).Some?
    ensures Sound(rules, remote, device, CommitStep(device, key, pc, c).value)
  {
  }

  lemma SendingSound(rules: Rules, remote: seq<Generation>, device: Device, key: nat, pc: Pc, c: Choice)
    requires pc.Send?
    requires Started(device) && DeviceOk(LogFor(rules, remote, device), device)
    requires StandsAt(LogFor(rules, remote, device), Some(pc))
    requires CommitStep(device, key, pc, c).Some?
    ensures Sound(rules, remote, device, CommitStep(device, key, pc, c).value)
  {
  }

  lemma InstallingSound(rules: Rules, remote: seq<Generation>, device: Device, key: nat, pc: Pc, c: Choice)
    requires pc.ReplaceLocal?
    requires Started(device) && DeviceOk(LogFor(rules, remote, device), device)
    requires StandsAt(LogFor(rules, remote, device), Some(pc))
    requires CommitStep(device, key, pc, c).Some?
    ensures Sound(rules, remote, device, CommitStep(device, key, pc, c).value)
  {
    var next := MarkLocal(pc.plan, pc.j, pc.rev);
    ReplacedClaims(rules, remote, device, pc.plan.candidate, pc);
    LocalReplaced(rules, remote, device, pc.plan.candidate, next);
  }

  lemma ClosingSound(rules: Rules, remote: seq<Generation>, device: Device, key: nat, pc: Pc, c: Choice)
    requires pc.MarkLocal? || pc.Forget?
    requires Started(device) && DeviceOk(LogFor(rules, remote, device), device)
    requires StandsAt(LogFor(rules, remote, device), Some(pc))
    requires CommitStep(device, key, pc, c).Some?
    ensures Sound(rules, remote, device, CommitStep(device, key, pc, c).value)
  {
  }

  lemma WritingBaseSound(rules: Rules, remote: seq<Generation>, device: Device, key: nat, pc: Pc, c: Choice)
    requires pc.WriteBase?
    requires Started(device) && DeviceOk(LogFor(rules, remote, device), device)
    requires StandsAt(LogFor(rules, remote, device), Some(pc))
    requires CommitStep(device, key, pc, c).Some?
    ensures Sound(rules, remote, device, CommitStep(device, key, pc, c).value)
  {
    LocalMeansItself(rules, device.held, pc.plan.candidate);
    StoredBaseOk(rules, remote, device, Pair(pc.plan.candidate, pc.rev));
  }

  lemma CommitStepSound(rules: Rules, remote: seq<Generation>, device: Device, key: nat, pc: Pc, c: Choice)
    requires Started(device) && DeviceOk(LogFor(rules, remote, device), device)
    requires StandsAt(LogFor(rules, remote, device), Some(pc))
    requires pc.Await? && c.reply.Committed? ==> Held(remote, Pair(pc.plan.candidate, c.reply.revision))
    requires CommitStep(device, key, pc, c).Some?
    ensures Sound(rules, remote, device, CommitStep(device, key, pc, c).value)
  {
    if pc.Prepare? {
      PreparingSound(rules, remote, device, key, pc, c);
    } else if pc.MarkRemote? {
      MarkingSound(rules, remote, device, key, pc, c);
    } else if pc.Await? {
      AnsweredSound(rules, remote, device, key, pc, c);
    } else if pc.Send? {
      SendingSound(rules, remote, device, key, pc, c);
    } else if pc.ReplaceLocal? {
      InstallingSound(rules, remote, device, key, pc, c);
    } else if pc.WriteBase? {
      WritingBaseSound(rules, remote, device, key, pc, c);
    } else {
      ClosingSound(rules, remote, device, key, pc, c);
    }
  }

  lemma RereadSound(rules: Rules, remote: seq<Generation>, device: Device, key: nat, pc: Pc)
    requires pc.ResolveRead?
    requires Started(device) && DeviceOk(LogFor(rules, remote, device), device)
    requires StandsAt(LogFor(rules, remote, device), Some(pc))
    requires ResolveStep(remote, device, key, pc).Some?
    ensures Sound(rules, remote, device, ResolveStep(remote, device, key, pc).value)
  {
    ChoicePlanOk(LogFor(rules, remote, device), pc.p,
                 Evidence(pc.p, pc.taken, Stamp(pc.baseAt, pc.localAt, |remote| - 1)), pc.keepLocal);
  }

  lemma ChoicePlanOk(log: Log, p: Pending, evidence: Evidence, keepLocal: bool)
    requires EvidenceOk(log, evidence) && evidence.pending == p
    ensures PlanOk(log, ChoicePlan(p, evidence, keepLocal))
  {
  }

  lemma TakingSound(rules: Rules, remote: seq<Generation>, device: Device, key: nat, pc: Pc)
    requires pc.ResolveCapture? || pc.ResolveTake?
    requires Started(device) && DeviceOk(LogFor(rules, remote, device), device)
    requires StandsAt(LogFor(rules, remote, device), Some(pc))
    requires ResolveStep(remote, device, key, pc).Some?
    ensures Sound(rules, remote, device, ResolveStep(remote, device, key, pc).value)
  {
  }

  lemma RecheckingSound(rules: Rules, remote: seq<Generation>, device: Device, key: nat, pc: Pc)
    requires pc.ResolveBase? || pc.ResolveLocal?
    requires Started(device) && DeviceOk(LogFor(rules, remote, device), device)
    requires StandsAt(LogFor(rules, remote, device), Some(pc))
    requires ResolveStep(remote, device, key, pc).Some?
    ensures Sound(rules, remote, device, ResolveStep(remote, device, key, pc).value)
  {
  }

  lemma ResolveStepSound(rules: Rules, remote: seq<Generation>, device: Device, key: nat, pc: Pc)
    requires Started(device) && DeviceOk(LogFor(rules, remote, device), device)
    requires StandsAt(LogFor(rules, remote, device), Some(pc))
    requires ResolveStep(remote, device, key, pc).Some?
    ensures Sound(rules, remote, device, ResolveStep(remote, device, key, pc).value)
  {
    if pc.ResolveRead? {
      RereadSound(rules, remote, device, key, pc);
    } else if pc.ResolveBase? || pc.ResolveLocal? {
      RecheckingSound(rules, remote, device, key, pc);
    } else {
      TakingSound(rules, remote, device, key, pc);
    }
  }

  /** Steps of every kind are sound under what the environment promises. */
  lemma CallStepSound(w: World, t: nat, p: Procedure, c: Choice)
    requires Inv(w) && t in w.tasks && StepOf(w, t, p, c).Some? && ChoiceAllowed(w, w.tasks[t].key, w.tasks[t].pc, c)
    ensures Sound(w.rules, w.remote, w.devices[w.tasks[t].device], StepOf(w, t, p, c).value)
  {
    var d, key, pc := w.tasks[t].device, w.tasks[t].key, w.tasks[t].pc;
    var device := w.devices[d];
    assert TaskOk(w, t) && LogOf(w, d) == LogFor(w.rules, w.remote, device);
    match p
    case Recovering => RecoveryStepSound(w.rules, w.remote, device, key, pc);
    case Syncing => SyncStepSound(w.rules, w.remote, device, key, pc, c);
    case Committing => CommitStepSound(w.rules, w.remote, device, key, pc, c);
    case Resolving => ResolveStepSound(w.rules, w.remote, device, key, pc);
  }

  // ---------------------------------------------------------------- tokens

  predicate KeepsTokens(device: Device, e: Effect)
  {
    e.mint == {} && e.spend == {} && e.device.pending == device.pending && e.device.latestToken == device.latestToken
  }

  predicate InstallsToken(e: Effect, token: nat)
  {
    && e.mint == {token} && e.spend == {} && e.device.latestToken == Some(token)
    && e.device.pending.Some? && e.device.pending.value.token == token
  }

  predicate TakesToken(device: Device, e: Effect, token: nat)
  {
    && device.pending.Some? && device.pending.value.token == token
    && e.mint == {} && e.spend == {token} && e.device.pending.None? && e.device.latestToken == device.latestToken
  }

  /** Only an install puts a token, and only a matching take removes and spends one. */
  lemma TokenSteps(p: Procedure, rules: Rules, remote: seq<Generation>, device: Device, key: nat, pc: Pc, c: Choice)
    requires Started(device) && CallStep(p, rules, remote, device, key, pc, c).Some?
    ensures var e := CallStep(p, rules, remote, device, key, pc, c).value;
            if p == Syncing && pc.Install? then InstallsToken(e, c.freshId)
            else if p == Resolving && pc.ResolveTake? then TakesToken(device, e, pc.token)
            else KeepsTokens(device, e)
  {
  }

  lemma TokensKept(w: World, t: nat, e: Effect, token: nat)
    requires WellFormed(w) && TokensOk(w) && t in w.tasks
    requires
      || KeepsTokens(w.devices[w.tasks[t].device], e)
      || (InstallsToken(e, token) && token !in w.minted)
      || TakesToken(w.devices[w.tasks[t].device], e, token)
    ensures TokensOk(Perform(w, t, e))
  {
  }

  lemma PerformFrame(w: World, t: nat, e: Effect)
    requires WellFormed(w) && t in w.tasks && Grows(LogOf(w, w.tasks[t].device), LogFor(w.rules, w.remote, e.device))
    ensures CallFrame(w, t, Perform(w, t, e))
  {
  }

  lemma StepKeeps(w: World, t: nat, p: Procedure, c: Choice)
    requires Inv(w) && Enabled(w, Step(t, p, c))
    ensures Inv(Do(w, Step(t, p, c)))
  {
    var d, pc := w.tasks[t].device, w.tasks[t].pc;
    var e := StepOf(w, t, p, c).value;
    CallStepSound(w, t, p, c);
    TokenSteps(p, w.rules, w.remote, w.devices[d], w.tasks[t].key, pc, c);
    TokensKept(w, t, e, if pc.ResolveTake? then pc.token else c.freshId);
    PerformFrame(w, t, e);
    CallKeeps(w, t, Perform(w, t, e));
  }

  // ---------------------------------------------------------------- the environment

  /** The compare-and-swap at work: a write that lands was decided over the generation it replaces. */
  lemma DeliverExtends(rules: Rules, remote: seq<Generation>, q: Request, revision: nat)
    requires RemoteOk(rules, remote) && RequestOk(rules, remote, q) && Delivered(remote, q, revision)
    ensures RemoteOk(rules, remote + [Generation(q.candidate, revision, q.origin)])
  {
    var after := remote + [Generation(q.candidate, revision, q.origin)];
    if q.origin.remote.Some? {
      var i :| 0 <= i < |remote| && PairOf(remote[i]) == q.origin.remote.value;
      assert remote[i].revision == remote[|remote| - 1].revision;
      assert PairOf(remote[|remote| - 1]) == q.origin.remote.value;
    }
    forall i | 0 <= i < |after| ensures GenerationOk(rules, after, i) {
      if i < |remote| { assert GenerationOk(rules, remote, i); }
    }
  }

  lemma DeliverKeeps(w: World, q: Request, revision: nat)
    requires Inv(w) && Enabled(w, Deliver(q, revision))
    ensures Inv(Do(w, Deliver(q, revision)))
  {
    var w2 := Do(w, Deliver(q, revision));
    DeliverExtends(w.rules, w.remote, q, revision);
    forall o | o in w2.sent ensures RequestOk(w2.rules, w2.remote, o) {
      assert RequestOk(w.rules, w.remote, o);
      if o.origin.remote.Some? { HeldGrows(w.remote, w2.remote, o.origin.remote.value); }
    }
    LogsGrow(w, w2);
  }

  /** Devices and calls that only see their logs grow stay sound. */
  lemma LogsGrow(w: World, w2: World)
    requires Inv(w) && w2.rules == w.rules && w2.devices == w.devices && w2.tasks == w.tasks && w.remote <= w2.remote
    ensures forall d :: d in w2.devices ==> DeviceOk(LogOf(w2, d), w2.devices[d])
    ensures WellFormed(w2) && forall t :: t in w2.tasks ==> TaskOk(w2, t)
  {
    forall d | d in w2.devices ensures DeviceOk(LogOf(w2, d), w2.devices[d]) {
      DeviceGrows(LogOf(w, d), LogOf(w2, d), w.devices[d]);
    }
    forall t | t in w2.tasks ensures TaskOk(w2, t) {
      TaskSurvives(w, w2, t);
    }
  }

  /** A device that keeps its journal and bases, grows its LOCAL log, and keeps or drops its conflict. */
  predicate Touched(device: Device, device2: Device)
  {
    && device.held <= device2.held && device2.bases == device.bases && device2.journal == device.journal
    && (device2.pending == device.pending || device2.pending.None?) && device2.latestToken == device.latestToken
  }

  /** A call that was already running, or one that has just been started. */
  predicate OldOrNew(w: World, w2: World, t: nat)
    requires t in w2.tasks
  {
    || (t in w.tasks && w2.tasks[t] == w.tasks[t])
    || (w2.tasks[t].device in w.devices && (w2.tasks[t].pc.Capture? || w2.tasks[t].pc.ResolveCapture?))
  }

  ghost predicate Touch(w: World, d: nat, device2: Device, w2: World)
  {
    && d in w.devices && Touched(w.devices[d], device2)
    && w2.rules == w.rules && w2.remote == w.remote && w2.devices == w.devices[d := device2] && w2.sent == w.sent
    && w2.minted == w.minted && w2.spent == w.spent
    && forall t :: t in w2.tasks ==> OldOrNew(w, w2, t)
  }

  lemma TouchFrame(w: World, d: nat, device2: Device, w2: World)
    requires WellFormed(w) && TokensOk(w) && Touch(w, d, device2, w2)
    ensures WellFormed(w2) && TokensOk(w2)
    ensures forall o :: o in w2.devices ==> Grows(LogOf(w, o), LogOf(w2, o))
  {
    forall t | t in w2.tasks ensures w2.tasks[t].device in w2.devices {
      assert OldOrNew(w, w2, t);
    }
  }

  /** A call that has just been started relies on nothing. */
  lemma StartsSound(log: Log, pc: Pc)
    requires pc.Capture? || pc.ResolveCapture?
    ensures StandsAt(log, Some(pc))
  {
  }

  lemma TouchedTaskOk(w: World, d: nat, device2: Device, w2: World, t: nat)
    requires Inv(w) && Touch(w, d, device2, w2) && t in w2.tasks
    ensures WellFormed(w2) && TaskOk(w2, t)
  {
    TouchFrame(w, d, device2, w2);
    assert OldOrNew(w, w2, t);
    if t in w.tasks && w2.tasks[t] == w.tasks[t] {
      TaskSurvives(w, w2, t);
    } else {
      StartsSound(LogOf(w2, w2.tasks[t].device), w2.tasks[t].pc);
    }
  }

  lemma TouchKeeps(w: World, d: nat, device2: Device, w2: World)
    requires Inv(w) && Touch(w, d, device2, w2)
    ensures Inv(w2)
  {
    TouchFrame(w, d, device2, w2);
    forall o | o in w2.devices ensures DeviceOk(LogOf(w2, o), w2.devices[o]) {
      DeviceGrows(LogOf(w, o), LogOf(w2, o), w.devices[o]);
    }
    forall t | t in w2.tasks ensures TaskOk(w2, t) {
      TouchedTaskOk(w, d, device2, w2, t);
    }
  }

  function TouchedBy(w: World, a: Action): (d: nat)
    requires WellFormed(w) && !a.Step? && !a.Deliver? && (a.Stop? ==> a.t in w.tasks)
  {
    if a.Stop? then w.tasks[a.t].device else a.d
  }

  /** Starts, saves, new sessions, stops and crashes only touch one device. */
  lemma EnvironmentTouches(w: World, a: Action)
    requires WellFormed(w) && Enabled(w, a) && !a.Step? && !a.Deliver?
    ensures TouchedBy(w, a) in Do(w, a).devices
    ensures Touch(w, TouchedBy(w, a), Do(w, a).devices[TouchedBy(w, a)], Do(w, a))
  {
    assert Do(w, a).devices == w.devices[TouchedBy(w, a) := Do(w, a).devices[TouchedBy(w, a)]];
  }

  /** Every action keeps the invariant. */
  lemma DoKeeps(w: World, a: Action)
    requires Inv(w) && Enabled(w, a)
    ensures Inv(Do(w, a))
  {
    if a.Step? {
      StepKeeps(w, a.t, a.procedure, a.choice);
    } else if a.Deliver? {
      DeliverKeeps(w, a.request, a.revision);
    } else {
      EnvironmentTouches(w, a);
      TouchKeeps(w, TouchedBy(w, a), Do(w, a).devices[TouchedBy(w, a)], Do(w, a));
    }
  }
}

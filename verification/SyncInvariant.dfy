/** What every step of the synchronization protocol keeps. Every claim about a running call is a
    claim about the past, so it survives whatever other calls, devices and the user do. */
module SyncInvariant {
  import opened Vault
  import opened SyncProtocol

  // ---------------------------------------------------------------- the past

  /** All that the remote and one device's LOCAL and BASE have been. */
  datatype Log = Log(rules: Rules, remote: seq<Generation>, held: seq<Ciphertext>, bases: seq<Option<Pair>>)

  function LogOf(w: World, d: nat): (log: Log)
    requires d in w.devices
  {
    Log(w.rules, w.remote, w.devices[d].held, w.devices[d].bases)
  }

  ghost predicate Grows(a: Log, b: Log)
  {
    a.rules == b.rules && a.remote <= b.remote && a.held <= b.held && a.bases <= b.bases
  }

  lemma HeldGrows(a: seq<Generation>, b: seq<Generation>, p: Pair)
    requires a <= b && Held(a, p)
    ensures Held(b, p)
  {
  }

  /** These bytes have been this device's BASE. */
  predicate WasBase(bases: seq<Option<Pair>>, c: Ciphertext)
  {
    exists i :: 0 <= i < |bases| && bases[i].Some? && bases[i].value.content == c
  }

  /** LOCAL has held bytes that mean the same. */
  predicate LocalMeant(rules: Rules, held: seq<Ciphertext>, c: Ciphertext)
  {
    exists i :: 0 <= i < |held| && SameMeaning(rules, held[i], c)
  }

  // ---------------------------------------------------------------- claims about the past

  /** The remote really held this pair, and LOCAL really held these bytes or an equal vault. */
  predicate BaseOk(log: Log, p: Pair)
  {
    Held(log.remote, p) && LocalMeant(log.rules, log.held, p.content)
  }

  function RevisionOf(p: Option<Pair>): (r: Option<nat>)
  {
    if p.Some? then Some(p.value.revision) else None
  }

  /** The user chose between two whole vaults. */
  predicate Chosen(kind: Kind)
  {
    kind == ChosenLocal || kind == ChosenRemote
  }

  /** The candidate is what the remote already holds. */
  predicate TakesRemote(kind: Kind)
  {
    kind == AppliedRemote || kind == ChosenRemote
  }

  /** A choice, and only a choice, carries evidence, about these very inputs. */
  predicate ChoiceOk(log: Log, o: Origin)
  {
    && (o.evidence.Some? <==> Chosen(o.kind))
    && (o.evidence.Some? ==>
          && EvidenceOk(log, o.evidence.value) && o.local == o.evidence.value.pending.local.content
          && o.remote == Some(o.evidence.value.pending.remote))
  }

  /** The inputs of a decision were the device's LOCAL and BASE and the remote's content. */
  predicate InputsReal(log: Log, o: Origin)
  {
    && o.local in log.held
    && (o.remote.Some? ==> Held(log.remote, o.remote.value))
    && (o.base.Some? ==> WasBase(log.bases, o.base.value))
    && ChoiceOk(log, o)
  }

  predicate JournalOk(log: Log, j: Journal)
  {
    && InputsReal(log, j.origin) && Follows(log.rules, j.origin, j.candidate)
    && j.expectedLocal == Digest(j.origin.local) && j.expectedRemote == RevisionOf(j.origin.remote)
    && (j.phase != Prepared ==> j.committed.Some? && Held(log.remote, Pair(j.candidate, j.committed.value)))
    && (j.phase == LocalCommitted ==> j.candidate in log.held)
  }

  predicate PendingOk(log: Log, p: Pending)
  {
    && p.local.content in log.held && Held(log.remote, p.remote)
    && (p.base.Some? ==> WasBase(log.bases, p.base.value.of))
  }

  /** BASE was seen again, no earlier than the conflict was taken. */
  predicate BaseRechecked(log: Log, p: Pending, taken: Stamp, at: nat)
  {
    taken.base <= at < |log.bases| && BaseDigest(log.bases[at]) == p.base
  }

  predicate LocalRechecked(log: Log, p: Pending, taken: Stamp, at: nat)
  {
    taken.local <= at < |log.held| && log.held[at] == p.local.content
  }

  predicate RemoteRechecked(log: Log, p: Pending, taken: Stamp, at: nat)
  {
    taken.remote <= at + 1 && at < |log.remote| && PairOf(log.remote[at]) == p.remote
  }

  predicate TakenEarlier(log: Log, taken: Stamp)
  {
    taken.base < |log.bases| && taken.local < |log.held| && taken.remote <= |log.remote|
  }

  predicate EvidenceOk(log: Log, e: Evidence)
  {
    && PendingOk(log, e.pending) && TakenEarlier(log, e.taken)
    && BaseRechecked(log, e.pending, e.taken, e.seen.base)
    && LocalRechecked(log, e.pending, e.taken, e.seen.local)
    && RemoteRechecked(log, e.pending, e.taken, e.seen.remote)
  }

  predicate PlanOk(log: Log, plan: Plan)
  {
    && InputsReal(log, plan.origin) && Follows(log.rules, plan.origin, plan.candidate)
    && plan.snapshot.content == plan.origin.local && plan.expected == RevisionOf(plan.origin.remote)
    && (plan.action == AlreadyCommitted <==> TakesRemote(plan.origin.kind))
    && (plan.origin.evidence.Some? ==> plan.snapshot == plan.origin.evidence.value.pending.local)
  }

  predicate CommitOk(log: Log, plan: Plan, j: Journal, phase: Phase)
  {
    PlanOk(log, plan) && JournalOk(log, j) && j.candidate == plan.candidate && j.origin == plan.origin && j.phase == phase
  }

  predicate RecoverOk(log: Log, j: Journal, seen: Pair)
  {
    JournalOk(log, j) && Held(log.remote, seen) && seen.content == j.candidate
  }

  /** What a call may rely on at each point. */
  predicate PcOk(log: Log, pc: Pc)
  {
    match pc
    case Capture => true
    case LoadJournal(snap, _) => snap.content in log.held
    case RecoverRead(snap, j, _) => snap.content in log.held && JournalOk(log, j)
    case RecoverMarkRemote(snap, j, seen) => snap.content in log.held && RecoverOk(log, j, seen)
    case RecoverDrop(snap, j, _) => snap.content in log.held && JournalOk(log, j)
    case RecoverLocal(snap, j, seen) => snap.content in log.held && RecoverOk(log, j, seen) && j.phase == RemoteCommitted
    case RecoverMarkLocal(j, seen) => RecoverOk(log, j, seen) && j.phase == RemoteCommitted && j.candidate in log.held
    case RecoverCheck(j, seen) => RecoverOk(log, j, seen) && j.phase == LocalCommitted
    case RecoverBase(j, seen) => RecoverOk(log, j, seen) && j.phase == LocalCommitted
    case Forget(_) => true
    case LoadBase(snap) => snap.content in log.held
    case ReadRemote(snap, base) => snap.content in log.held && (base.Some? ==> WasBase(log.bases, base.value.content))
    case Confirm(snap, r) => Held(log.remote, r) && SameMeaning(log.rules, snap.content, r.content)
    case Rebase(r) => BaseOk(log, r)
    case Install(snap, r, digest) => PendingOk(log, Pending(0, snap, r, digest))
    case Prepare(plan) => PlanOk(log, plan)
    case Send(plan, j) => CommitOk(log, plan, j, Prepared)
    case Await(plan, j) => CommitOk(log, plan, j, Prepared)
    case MarkRemote(plan, j, rev) => CommitOk(log, plan, j, Prepared) && Held(log.remote, Pair(plan.candidate, rev))
    case ReplaceLocal(plan, j, rev) => CommitOk(log, plan, j, RemoteCommitted) && Held(log.remote, Pair(plan.candidate, rev))
    case MarkLocal(plan, j, rev) =>
      CommitOk(log, plan, j, RemoteCommitted) && Held(log.remote, Pair(plan.candidate, rev)) && plan.candidate in log.held
    case WriteBase(plan, j, rev) => CommitOk(log, plan, j, LocalCommitted) && Held(log.remote, Pair(plan.candidate, rev))
    case ResolveCapture(_, _) => true
    case ResolveTake(_, _) => true
    case ResolveBase(p, taken, _) => PendingOk(log, p) && TakenEarlier(log, taken)
    case ResolveLocal(p, taken, baseAt, _) =>
      PendingOk(log, p) && TakenEarlier(log, taken) && BaseRechecked(log, p, taken, baseAt)
    case ResolveRead(p, taken, baseAt, localAt, _) =>
      && PendingOk(log, p) && TakenEarlier(log, taken) && BaseRechecked(log, p, taken, baseAt)
      && LocalRechecked(log, p, taken, localAt)
  }

  /** Wherever a call goes next, if anywhere, it may rely on what that point claims. */
  ghost predicate StandsAt(log: Log, next: Option<Pc>)
  {
    forall pc :: next == Some(pc) ==> PcOk(log, pc)
  }

  // ---------------------------------------------------------------- claims survive

  lemma JournalGrows(a: Log, b: Log, j: Journal)
    requires Grows(a, b) && JournalOk(a, j)
    ensures JournalOk(b, j)
  {
  }

  lemma PendingGrows(a: Log, b: Log, p: Pending)
    requires Grows(a, b) && PendingOk(a, p)
    ensures PendingOk(b, p)
  {
  }

  lemma PlanGrows(a: Log, b: Log, plan: Plan)
    requires Grows(a, b) && PlanOk(a, plan)
    ensures PlanOk(b, plan)
  {
  }

  /** A point of a commit. */
  predicate AtCommit(pc: Pc)
  {
    pc.Prepare? || pc.Send? || pc.Await? || pc.MarkRemote? || pc.ReplaceLocal? || pc.MarkLocal? || pc.WriteBase?
  }

  lemma CommitClaimsSurvive(a: Log, b: Log, pc: Pc)
    requires Grows(a, b) && AtCommit(pc) && PcOk(a, pc)
    ensures PcOk(b, pc)
  {
    PlanGrows(a, b, pc.plan);
    if !pc.Prepare? {
      JournalGrows(a, b, pc.j);
    }
    if pc.MarkRemote? || pc.ReplaceLocal? || pc.MarkLocal? || pc.WriteBase? {
      HeldGrows(a.remote, b.remote, Pair(pc.plan.candidate, pc.rev));
    }
  }

  /** Whatever a call relies on stays true while the logs grow. */
  lemma ClaimsSurvive(a: Log, b: Log, pc: Pc)
    requires Grows(a, b) && PcOk(a, pc)
    ensures PcOk(b, pc)
  {
    if AtCommit(pc) {
      CommitClaimsSurvive(a, b, pc);
    } else if pc.RecoverRead? || pc.RecoverDrop? {
      JournalGrows(a, b, pc.j);
    } else if pc.RecoverMarkRemote? || pc.RecoverLocal? || pc.RecoverMarkLocal? || pc.RecoverCheck? || pc.RecoverBase? {
      JournalGrows(a, b, pc.j);
      HeldGrows(a.remote, b.remote, pc.seen);
    } else if pc.Confirm? {
      HeldGrows(a.remote, b.remote, pc.r);
    } else if pc.Install? {
      PendingGrows(a, b, Pending(0, pc.snap, pc.r, pc.digest));
    } else if pc.ResolveBase? || pc.ResolveLocal? || pc.ResolveRead? {
      PendingGrows(a, b, pc.p);
    }
  }

  // ---------------------------------------------------------------- the invariant

  predicate DeviceOk(log: Log, device: Device)
  {
    && (device.journal.Some? ==> JournalOk(log, device.journal.value))
    && (device.pending.Some? ==> PendingOk(log, device.pending.value))
    && forall i :: 0 <= i < |device.bases| && device.bases[i].Some? ==> BaseOk(log, device.bases[i].value)
  }

  /** Generation `i` was decided over exactly generation `i - 1`. */
  predicate GenerationOk(rules: Rules, remote: seq<Generation>, i: nat)
    requires i < |remote|
  {
    && remote[i].origin.remote == (if i == 0 then None else Some(PairOf(remote[i - 1])))
    && !TakesRemote(remote[i].origin.kind)
    && Follows(rules, remote[i].origin, remote[i].content)
  }

  predicate RemoteOk(rules: Rules, remote: seq<Generation>)
  {
    && (forall i :: 0 <= i < |remote| ==> GenerationOk(rules, remote, i))
    && forall i, k :: 0 <= i < |remote| && 0 <= k < |remote| && remote[i].revision == remote[k].revision ==>
         remote[i].content == remote[k].content
  }

  predicate RequestOk(rules: Rules, remote: seq<Generation>, q: Request)
  {
    && Follows(rules, q.origin, q.candidate) && !TakesRemote(q.origin.kind) && q.expected == RevisionOf(q.origin.remote)
    && (q.origin.remote.Some? ==> Held(remote, q.origin.remote.value))
  }

  /** A pending token is the latest of its device, has not been spent, and belongs to one device. */
  predicate TokensOk(w: World)
  {
    && w.spent <= w.minted
    && (forall d :: d in w.devices && w.devices[d].pending.Some? ==>
          && w.devices[d].pending.value.token in w.minted - w.spent
          && w.devices[d].latestToken == Some(w.devices[d].pending.value.token))
    && forall d, o :: d in w.devices && o in w.devices && d != o && w.devices[d].pending.Some? && w.devices[o].pending.Some? ==>
         w.devices[d].pending.value.token != w.devices[o].pending.value.token
  }

  ghost predicate TaskOk(w: World, t: nat)
    requires WellFormed(w) && t in w.tasks
  {
    StandsAt(LogOf(w, w.tasks[t].device), Some(w.tasks[t].pc))
  }

  ghost predicate Inv(w: World)
  {
    && WellFormed(w) && RemoteOk(w.rules, w.remote) && TokensOk(w)
    && (forall q :: q in w.sent ==> RequestOk(w.rules, w.remote, q))
    && (forall d :: d in w.devices ==> DeviceOk(LogOf(w, d), w.devices[d]))
    && forall t :: t in w.tasks ==> TaskOk(w, t)
  }

  lemma InitInv(w: World)
    requires Init(w)
    ensures Inv(w)
  {
  }

  lemma DeviceGrows(a: Log, b: Log, device: Device)
    requires Grows(a, b) && DeviceOk(a, device)
    ensures DeviceOk(b, device)
  {
  }

  /** A call that did not move stays sound while its logs grow. */
  lemma TaskSurvives(w: World, w2: World, t: nat)
    requires WellFormed(w) && WellFormed(w2) && t in w.tasks && t in w2.tasks && w2.tasks[t] == w.tasks[t]
    requires TaskOk(w, t) && Grows(LogOf(w, w.tasks[t].device), LogOf(w2, w.tasks[t].device))
    ensures TaskOk(w2, t)
  {
    ClaimsSurvive(LogOf(w, w.tasks[t].device), LogOf(w2, w.tasks[t].device), w.tasks[t].pc);
  }

  /** What one step of one call may do to the rest of the world. */
  ghost predicate Frame(w: World, d: nat, w2: World)
  {
    && w2.rules == w.rules && w2.remote == w.remote && d in w.devices && w2.devices.Keys == w.devices.Keys
    && (forall o :: o in w.devices && o != d ==> w2.devices[o] == w.devices[o])
    && Grows(LogOf(w, d), LogOf(w2, d))
  }

  ghost predicate CallFrame(w: World, t: nat, w2: World)
  {
    && t in w.tasks && Frame(w, w.tasks[t].device, w2)
    && w2.tasks.Keys <= w.tasks.Keys && w.tasks.Keys - {t} <= w2.tasks.Keys
    && (forall o :: o in w.tasks && o != t ==> w2.tasks[o] == w.tasks[o])
    && (t in w2.tasks ==> w2.tasks[t].device == w.tasks[t].device)
  }

  lemma CallFrameFormed(w: World, t: nat, w2: World)
    requires WellFormed(w) && CallFrame(w, t, w2)
    ensures WellFormed(w2)
    ensures forall o :: o in w2.devices ==> Grows(LogOf(w, o), LogOf(w2, o))
  {
  }

  /** A step that keeps its own device and its own call sound keeps every device and call sound. */
  lemma CallKeeps(w: World, t: nat, w2: World)
    requires Inv(w) && CallFrame(w, t, w2)
    requires DeviceOk(LogOf(w2, w.tasks[t].device), w2.devices[w.tasks[t].device])
    requires t in w2.tasks ==> StandsAt(LogOf(w2, w.tasks[t].device), Some(w2.tasks[t].pc))
    requires TokensOk(w2)
    requires forall q :: q in w2.sent ==> RequestOk(w.rules, w.remote, q)
    ensures Inv(w2)
  {
    var d := w.tasks[t].device;
    CallFrameFormed(w, t, w2);
    forall o | o in w2.devices ensures DeviceOk(LogOf(w2, o), w2.devices[o]) {
      if o != d { DeviceGrows(LogOf(w, o), LogOf(w2, o), w.devices[o]); }
    }
    forall o | o in w2.tasks ensures TaskOk(w2, o) {
      if o != t {
        TaskSurvives(w, w2, o);
      }
    }
  }
}

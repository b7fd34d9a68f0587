/** The synchronization protocol as a transition system: any number of devices, each running any
    number of engine calls against one compare-and-swap remote object, with user saves, lost or late
    write requests, failing calls and crashes between any two steps. */
module SyncProtocol {
  import opened Vault
  import opened VaultSync

  // ---------------------------------------------------------------- contents

  /** Encrypted bytes: a document under a key with a fresh salt, or bytes that do not open. */
  datatype Ciphertext = Sealed(document: Document, key: nat, salt: nat) | Garbage(tag: nat)

  /** A digest identifies exact bytes. */
  datatype Digest = Digest(of: Ciphertext)

  function OpenDocument(c: Ciphertext, key: nat): (r: Option<Document>)
  {
    if c.Sealed? && c.key == key then Some(c.document) else None
  }

  /** Exact remote bytes with the revision they were read under. */
  datatype Pair = Pair(content: Ciphertext, revision: nat)

  /** How a device judges opened documents: semantic equality, and which documents a three-way merge
      may produce. The protocol is safe for every choice of these; `SyncLaws` puts in the real ones. */
  datatype Rules = Rules(same: (Document, Document) -> bool, merges: (Document, Document, Document, Document) -> bool)

  predicate SameMeaning(rules: Rules, a: Ciphertext, b: Ciphertext)
  {
    a == b || (a.Sealed? && b.Sealed? && rules.same(a.document, b.document))
  }

  // ---------------------------------------------------------------- provenance

  datatype Kind = Created | FastForward | MergedBoth | ChosenLocal | AppliedRemote | ChosenRemote

  /** The BASE, LOCAL and REMOTE inputs of a decision, and for an explicit choice its re-checks. */
  datatype Origin = Origin(kind: Kind, base: Option<Ciphertext>, local: Ciphertext, remote: Option<Pair>, evidence: Option<Evidence>)

  /** `candidate` is what the decision `o` makes of its inputs. */
  predicate Follows(rules: Rules, o: Origin, candidate: Ciphertext)
  {
    match o.kind
    case Created => o.remote.None? && candidate == o.local
    case FastForward => o.remote.Some? && o.base.Some? && candidate == o.local && SameMeaning(rules, o.remote.value.content, o.base.value)
    case MergedBoth =>
      && o.remote.Some? && o.base.Some? && candidate.Sealed? && o.base.value.Sealed? && o.local.Sealed?
      && o.remote.value.content.Sealed?
      && rules.merges(o.base.value.document, o.local.document, o.remote.value.content.document, candidate.document)
    case ChosenLocal => o.remote.Some? && candidate == o.local
    case AppliedRemote =>
      o.remote.Some? && o.base.Some? && candidate == o.remote.value.content && SameMeaning(rules, o.local, o.base.value)
    case ChosenRemote => o.remote.Some? && candidate == o.remote.value.content
  }

  /** One content the remote object has held. */
  datatype Generation = Generation(content: Ciphertext, revision: nat, origin: Origin)

  function PairOf(g: Generation): (p: Pair)
  {
    Pair(g.content, g.revision)
  }

  /** A conditional write: create if absent, or replace if the revision is still `expected`. */
  datatype Request = Request(expected: Option<nat>, candidate: Ciphertext, origin: Origin)

  // ---------------------------------------------------------------- device state

  datatype Phase = Prepared | RemoteCommitted | LocalCommitted

  datatype Journal = Journal(
    op: nat, phase: Phase, expectedLocal: Digest, expectedRemote: Option<nat>, candidate: Ciphertext,
    committed: Option<nat>, origin: Origin)

  /** A clean local generation and the session that captured it. */
  datatype Snapshot = Snapshot(session: nat, content: Ciphertext)

  datatype Pending = Pending(token: nat, local: Snapshot, remote: Pair, base: Option<Digest>)

  /** `held` and `bases` record everything LOCAL and BASE have been; the current value is the last. */
  datatype Device = Device(
    session: nat, held: seq<Ciphertext>, bases: seq<Option<Pair>>, journal: Option<Journal>,
    pending: Option<Pending>, latestToken: Option<nat>)

  function Local(d: Device): (c: Ciphertext)
    requires d.held != []
  {
    d.held[|d.held| - 1]
  }

  function Base(d: Device): (b: Option<Pair>)
    requires d.bases != []
  {
    d.bases[|d.bases| - 1]
  }

  function BaseDigest(b: Option<Pair>): (r: Option<Digest>)
  {
    if b.Some? then Some(Digest(b.value.content)) else None
  }

  // ---------------------------------------------------------------- engine calls

  datatype RemoteAction = Create | Replace | AlreadyCommitted

  /** Log positions: of BASE, LOCAL and the remote. */
  datatype Stamp = Stamp(base: nat, local: nat, remote: nat)

  /** The captured conflict, when it was taken, and when each captured value was seen again. */
  datatype Evidence = Evidence(pending: Pending, taken: Stamp, seen: Stamp)

  datatype Plan = Plan(
    snapshot: Snapshot, expected: Option<nat>, action: RemoteAction, candidate: Ciphertext, origin: Origin)

  /** Whether recovery runs at the start of a sync or after an uncertain write. */
  datatype Caller = FromSync | FromCommit

  datatype Pc =
    | Capture
    | LoadJournal(snap: Snapshot, caller: Caller)
    | RecoverRead(snap: Snapshot, j: Journal, caller: Caller)
    | RecoverMarkRemote(snap: Snapshot, j: Journal, seen: Pair)
    | RecoverDrop(snap: Snapshot, j: Journal, caller: Caller)
    | RecoverLocal(snap: Snapshot, j: Journal, seen: Pair)
    | RecoverMarkLocal(j: Journal, seen: Pair)
    | RecoverCheck(j: Journal, seen: Pair)
    | RecoverBase(j: Journal, seen: Pair)
    | Forget(op: nat)
    | LoadBase(snap: Snapshot)
    | ReadRemote(snap: Snapshot, base: Option<Pair>)
    | Confirm(snap: Snapshot, r: Pair)
    | Rebase(r: Pair)
    | Install(snap: Snapshot, r: Pair, digest: Option<Digest>)
    | Prepare(plan: Plan)
    | Send(plan: Plan, j: Journal)
    | Await(plan: Plan, j: Journal)
    | MarkRemote(plan: Plan, j: Journal, rev: nat)
    | ReplaceLocal(plan: Plan, j: Journal, rev: nat)
    | MarkLocal(plan: Plan, j: Journal, rev: nat)
    | WriteBase(plan: Plan, j: Journal, rev: nat)
    | ResolveCapture(token: nat, keepLocal: bool)
    | ResolveTake(token: nat, keepLocal: bool)
    | ResolveBase(p: Pending, taken: Stamp, keepLocal: bool)
    | ResolveLocal(p: Pending, taken: Stamp, baseAt: nat, keepLocal: bool)
    | ResolveRead(p: Pending, taken: Stamp, baseAt: nat, localAt: nat, keepLocal: bool)

  datatype Task = Task(device: nat, key: nat, pc: Pc)

  datatype World = World(
    rules: Rules, remote: seq<Generation>, devices: map<nat, Device>, tasks: map<nat, Task>, sent: set<Request>,
    minted: set<nat>, spent: set<nat>)

  function Current(remote: seq<Generation>): (r: Option<Pair>)
  {
    if remote == [] then None else Some(PairOf(remote[|remote| - 1]))
  }

  // ---------------------------------------------------------------- transitions

  /** What a provider may answer to a conditional write. `RemoteChanged` proves nothing about the
      write itself: a read-back can meet a later writer. */
  datatype Reply = Committed(revision: nat) | RemoteChanged | WriteResultUncertain

  /** The choices a step cannot make itself: the merge result, a salt, a reply, fresh identities. */
  datatype Choice = Choice(outcome: MergeOutcome, salt: nat, reply: Reply, freshId: nat)

  /** What one step of one call does: to its own device, to its own position (`None`: it returns),
      and to the shared logs. */
  datatype Effect = Effect(device: Device, next: Option<Pc>, send: set<Request>, mint: set<nat>, spend: set<nat>)

  function Goto(device: Device, pc: Pc): (e: Effect)
  {
    Effect(device, Some(pc), {}, {}, {})
  }

  function Return(device: Device): (e: Effect)
  {
    Effect(device, None, {}, {}, {})
  }

  /** Journal writes replace only the record of the same operation. */
  function WriteJournal(device: Device, j: Journal, next: Pc): (r: Option<Effect>)
  {
    if device.journal.Some? && device.journal.value.op != j.op then None
    else Some(Goto(device.(journal := Some(j)), next))
  }

  function ForgetJournal(device: Device, op: nat, next: Option<Pc>): (r: Option<Effect>)
  {
    if device.journal.Some? && device.journal.value.op == op
    then Some(Effect(device.(journal := None), next, {}, {}, {})) else None
  }

  predicate LocalUnchanged(device: Device, expected: Snapshot)
    requires device.held != []
  {
    device.session == expected.session && Local(device) == expected.content
  }

  function ReplaceIfUnchanged(device: Device, expected: Snapshot, content: Ciphertext, next: Pc): (r: Option<Effect>)
    requires device.held != []
  {
    if LocalUnchanged(device, expected) then Some(Goto(device.(held := device.held + [content]), next)) else None
  }

  function StoreBase(device: Device, r: Pair): (n: Device)
  {
    device.(bases := device.bases + [Some(r)])
  }

  predicate Started(device: Device)
  {
    device.held != [] && device.bases != []
  }

  predicate WellFormed(w: World)
  {
    && (forall t :: t in w.tasks ==> w.tasks[t].device in w.devices)
    && forall d :: d in w.devices ==> Started(w.devices[d])
  }

  /** The decision of one sync attempt, once BASE and the remote have been read. */
  function Decide(rules: Rules, snap: Snapshot, base: Option<Pair>, remote: Option<Pair>, key: nat,
                  c: Choice): (r: Option<Pc>)
  {
    if base.None? && remote.None? then
      Some(Prepare(Plan(snap, None, Create, snap.content, Origin(Created, None, snap.content, None, None))))
    else if remote.None? then None
    else
      var r := remote.value;
      var local, other := OpenDocument(snap.content, key), OpenDocument(r.content, key);
      if local.None? || other.None? then None
      else if base.None? then
        if rules.same(local.value, other.value) then Some(Confirm(snap, r)) else Some(Install(snap, r, None))
      else
        var b := base.value.content;
        if OpenDocument(b, key).None? then None
        else match c.outcome
          case Equivalent => Some(Confirm(snap, r))
          case FastForwardLocal =>
            Some(Prepare(Plan(snap, Some(r.revision), Replace, snap.content, Origin(FastForward, Some(b), snap.content, Some(r), None))))
          case FastForwardRemote =>
            Some(Prepare(Plan(snap, Some(r.revision), AlreadyCommitted, r.content,
                              Origin(AppliedRemote, Some(b), snap.content, Some(r), None))))
          case Merged(m) =>
            Some(Prepare(Plan(snap, Some(r.revision), Replace, Sealed(m, key, c.salt),
                              Origin(MergedBoth, Some(b), snap.content, Some(r), None))))
          case Conflicted(_) => Some(Install(snap, r, Some(Digest(b))))
          case Failed(_) => None
  }

  /** What an outcome of the merge promises about the documents it was given. */
  predicate Promised(rules: Rules, base: Document, local: Document, remote: Document, out: MergeOutcome)
  {
    match out
    case Equivalent => rules.same(local, remote)
    case FastForwardLocal => rules.same(remote, base) && !rules.same(local, remote)
    case FastForwardRemote => rules.same(local, base) && !rules.same(local, remote)
    case Merged(m) => rules.merges(base, local, remote, m)
    case _ => true
  }

  predicate DecisionAllowed(rules: Rules, snap: Snapshot, base: Option<Pair>, remote: Option<Pair>, key: nat, c: Choice)
  {
    base.Some? && remote.Some? && OpenDocument(snap.content, key).Some? && OpenDocument(remote.value.content, key).Some?
    && OpenDocument(base.value.content, key).Some? ==>
      Promised(rules, base.value.content.document, snap.content.document, remote.value.content.document, c.outcome)
  }

  function PlanRequest(plan: Plan): (r: Request)
  {
    Request(plan.expected, plan.candidate, plan.origin)
  }

  /** Steps of `recover_loaded`. `None`: the call returns an error here. */
  function RecoveryStep(remote: seq<Generation>, device: Device, key: nat, pc: Pc): (r: Option<Effect>)
    requires Started(device)
  {
    match pc
    case LoadJournal(snap, caller) =>
      if device.journal.None? then (if caller == FromSync then Some(Goto(device, LoadBase(snap))) else None)
      else if OpenDocument(device.journal.value.candidate, key).None? then None
      else Some(Goto(device, RecoverRead(snap, device.journal.value, caller)))
    case RecoverRead(snap, j, caller) =>
      var next := JudgeRemote(snap, j, caller, Current(remote));
      if next.Some? then Some(Goto(device, next.value)) else None
    case RecoverMarkRemote(snap, j, seen) =>
      var marked := j.(phase := RemoteCommitted, committed := Some(seen.revision));
      WriteJournal(device, marked, RecoverLocal(snap, marked, seen))
    case RecoverDrop(snap, j, caller) =>
      ForgetJournal(device, j.op, if caller == FromSync then Some(LoadBase(snap)) else None)
    case RecoverLocal(snap, j, seen) =>
      if Digest(snap.content) == Digest(j.candidate) then Some(Goto(device, RecoverMarkLocal(j, seen)))
      else if Digest(snap.content) != j.expectedLocal then None
      else ReplaceIfUnchanged(device, snap, j.candidate, RecoverMarkLocal(j, seen))
    case RecoverMarkLocal(j, seen) =>
      var marked := j.(phase := LocalCommitted);
      WriteJournal(device, marked, RecoverCheck(marked, seen))
    case RecoverCheck(j, seen) =>
      if Digest(Local(device)) == Digest(j.candidate) then Some(Goto(device, RecoverBase(j, seen))) else None
    case RecoverBase(j, seen) => Some(Goto(StoreBase(device, Pair(j.candidate, seen.revision)), Forget(j.op)))
    case _ => None
  }

  /** Recovery's decision: by phase, by whether the remote is the candidate or still the expected
      revision, and by whether LOCAL is still the journaled one. */
  function JudgeRemote(snap: Snapshot, j: Journal, caller: Caller, remote: Option<Pair>): (r: Option<Pc>)
  {
    var matches := remote.Some? && Digest(remote.value.content) == Digest(j.candidate);
    var stillExpected := if remote.None? then j.expectedRemote.None? else j.expectedRemote == Some(remote.value.revision);
    if j.phase == Prepared then
      if matches then Some(RecoverMarkRemote(snap, j, remote.value))
      else if stillExpected && Digest(snap.content) == j.expectedLocal then Some(RecoverDrop(snap, j, caller))
      else None
    else if !matches then None
    else if j.phase == RemoteCommitted then Some(RecoverLocal(snap, j, remote.value))
    else Some(RecoverCheck(j, remote.value))
  }

  /** Steps of `sync` up to its decision. */
  function SyncStep(rules: Rules, remote: seq<Generation>, device: Device, key: nat, pc: Pc,
                    c: Choice): (r: Option<Effect>)
    requires Started(device)
  {
    match pc
    case Capture => Some(Goto(device, LoadJournal(Snapshot(device.session, Local(device)), FromSync)))
    case LoadBase(snap) => Some(Goto(device, ReadRemote(snap, Base(device))))
    case ReadRemote(snap, base) =>
      var next := Decide(rules, snap, base, Current(remote), key, c);
      if next.Some? then Some(Goto(device, next.value)) else None
    case Confirm(snap, r) => if LocalUnchanged(device, snap) then Some(Goto(device, Rebase(r))) else None
    case Rebase(r) => Some(Return(StoreBase(device, r)))
    case Install(snap, r, digest) =>
      var installed := device.(pending := Some(Pending(c.freshId, snap, r, digest)), latestToken := Some(c.freshId));
      Some(Effect(installed, None, {}, {c.freshId}, {}))
    case _ => None
  }

  /** Steps of `commit_candidate`. */
  function CommitStep(device: Device, key: nat, pc: Pc, c: Choice): (r: Option<Effect>)
    requires Started(device)
  {
    match pc
    case Prepare(plan) =>
      var j := Journal(c.freshId, Prepared, Digest(plan.snapshot.content), plan.expected, plan.candidate, None,
                       plan.origin);
      if device.journal.Some? || OpenDocument(plan.candidate, key).None? then None
      else Some(Goto(device.(journal := Some(j)), Send(plan, j)))
    case Send(plan, j) =>
      if plan.action == AlreadyCommitted then
        (if plan.expected.Some? then Some(Goto(device, MarkRemote(plan, j, plan.expected.value))) else None)
      else Some(Effect(device, Some(Await(plan, j)), {PlanRequest(plan)}, {}, {}))
    case Await(plan, j) =>
      (match c.reply
       case Committed(rev) => Some(Goto(device, MarkRemote(plan, j, rev)))
       case RemoteChanged => Some(Goto(device, Forget(j.op)))
       case WriteResultUncertain => Some(Goto(device, LoadJournal(Snapshot(device.session, Local(device)), FromCommit))))
    case MarkRemote(plan, j, rev) =>
      var marked := j.(phase := RemoteCommitted, committed := Some(rev));
      WriteJournal(device, marked, ReplaceLocal(plan, marked, rev))
    case ReplaceLocal(plan, j, rev) =>
      if plan.candidate != plan.snapshot.content
      then ReplaceIfUnchanged(device, plan.snapshot, plan.candidate, MarkLocal(plan, j, rev))
      else if LocalUnchanged(device, plan.snapshot) then Some(Goto(device, MarkLocal(plan, j, rev))) else None
    case MarkLocal(plan, j, rev) =>
      var marked := j.(phase := LocalCommitted);
      WriteJournal(device, marked, WriteBase(plan, marked, rev))
    case WriteBase(plan, j, rev) => Some(Goto(StoreBase(device, Pair(plan.candidate, rev)), Forget(j.op)))
    case Forget(op) => ForgetJournal(device, op, None)
    case _ => None
  }

  function Now(remote: seq<Generation>, device: Device): (s: Stamp)
    requires Started(device)
  {
    Stamp(|device.bases| - 1, |device.held| - 1, |remote|)
  }

  /** Steps of `resolve`. A wrong credential or a wrong token stops the call before the conflict is
      taken. */
  function ResolveStep(remote: seq<Generation>, device: Device, key: nat, pc: Pc): (r: Option<Effect>)
    requires Started(device)
  {
    match pc
    case ResolveCapture(token, keepLocal) =>
      if OpenDocument(Local(device), key).None? then None else Some(Goto(device, ResolveTake(token, keepLocal)))
    case ResolveTake(token, keepLocal) =>
      if device.pending.None? || device.pending.value.token != token then None
      else Some(Effect(device.(pending := None), Some(ResolveBase(device.pending.value, Now(remote, device), keepLocal)), {}, {}, {token}))
    case ResolveBase(p, taken, keepLocal) =>
      if BaseDigest(Base(device)) == p.base then Some(Goto(device, ResolveLocal(p, taken, |device.bases| - 1, keepLocal))) else None
    case ResolveLocal(p, taken, baseAt, keepLocal) =>
      if LocalUnchanged(device, p.local) then Some(Goto(device, ResolveRead(p, taken, baseAt, |device.held| - 1, keepLocal))) else None
    case ResolveRead(p, taken, baseAt, localAt, keepLocal) =>
      if Current(remote) != Some(p.remote) then None
      else Some(Goto(device, Prepare(ChoicePlan(p, Evidence(p, taken, Stamp(baseAt, localAt, |remote| - 1)), keepLocal))))
    case _ => None
  }

  function ChoicePlan(p: Pending, evidence: Evidence, keepLocal: bool): (plan: Plan)
  {
    var base := if p.base.Some? then Some(p.base.value.of) else None;
    if keepLocal then
      Plan(p.local, Some(p.remote.revision), Replace, p.local.content,
           Origin(ChosenLocal, base, p.local.content, Some(p.remote), Some(evidence)))
    else
      Plan(p.local, Some(p.remote.revision), AlreadyCommitted, p.remote.content,
           Origin(ChosenRemote, base, p.local.content, Some(p.remote), Some(evidence)))
  }

  datatype Procedure = Recovering | Syncing | Committing | Resolving

  /** The next step of a call, wherever it stands. */
  function CallStep(p: Procedure, rules: Rules, remote: seq<Generation>, device: Device, key: nat, pc: Pc,
                    c: Choice): (r: Option<Effect>)
    requires Started(device)
  {
    match p
    case Recovering => RecoveryStep(remote, device, key, pc)
    case Syncing => SyncStep(rules, remote, device, key, pc, c)
    case Committing => CommitStep(device, key, pc, c)
    case Resolving => ResolveStep(remote, device, key, pc)
  }

  /** Installs the effect of a step of call `t`. */
  function Perform(w: World, t: nat, e: Effect): (r: World)
    requires t in w.tasks
  {
    var task := w.tasks[t];
    World(w.rules, w.remote, w.devices[task.device := e.device],
          if e.next.Some? then w.tasks[t := task.(pc := e.next.value)] else w.tasks - {t},
          w.sent + e.send, w.minted + e.mint, w.spent + e.spend)
  }

  function Put(w: World, d: nat, device: Device): (r: World)
  {
    w.(devices := w.devices[d := device])
  }

  datatype Action =
    | StartSync(t: nat, d: nat, key: nat)
    | StartResolve(t: nat, d: nat, key: nat, token: nat, keepLocal: bool)
    | Step(t: nat, procedure: Procedure, choice: Choice)
    | Deliver(request: Request, revision: nat)
    | Save(d: nat, content: Ciphertext)
    | NewSession(d: nat)
    | Stop(t: nat)
    | Crash(d: nat)

  /** `If-None-Match: *` for a create, `If-Match` for a replace. */
  predicate Accepts(remote: seq<Generation>, expected: Option<nat>)
  {
    if remote == [] then expected.None? else expected == Some(remote[|remote| - 1].revision)
  }

  /** The remote has held exactly these bytes under exactly this revision. */
  predicate Held(remote: seq<Generation>, p: Pair)
  {
    exists i :: 0 <= i < |remote| && PairOf(remote[i]) == p
  }

  /** What the environment promises a step: the merge keeps its contract, a confirmed write has been
      held under the confirmed revision, and a new token is fresh. */
  predicate ChoiceAllowed(w: World, key: nat, pc: Pc, c: Choice)
  {
    match pc
    case ReadRemote(snap, base) => DecisionAllowed(w.rules, snap, base, Current(w.remote), key, c)
    case Await(plan, _) => c.reply.Committed? ==> Held(w.remote, Pair(plan.candidate, c.reply.revision))
    case Install(_, _, _) => c.freshId !in w.minted
    case _ => true
  }

  /** A write lands only if its condition holds, and a revision determines its content. */
  predicate Delivered(remote: seq<Generation>, q: Request, revision: nat)
  {
    && Accepts(remote, q.expected)
    && forall i :: 0 <= i < |remote| && remote[i].revision == revision ==> remote[i].content == q.candidate
  }

  function StepOf(w: World, t: nat, p: Procedure, c: Choice): (r: Option<Effect>)
    requires WellFormed(w) && t in w.tasks
  {
    CallStep(p, w.rules, w.remote, w.devices[w.tasks[t].device], w.tasks[t].key, w.tasks[t].pc, c)
  }

  predicate Enabled(w: World, a: Action)
    requires WellFormed(w)
  {
    match a
    case StartSync(t, d, _) => t !in w.tasks && d in w.devices
    case StartResolve(t, d, _, _, _) => t !in w.tasks && d in w.devices
    case Step(t, p, c) => t in w.tasks && StepOf(w, t, p, c).Some? && ChoiceAllowed(w, w.tasks[t].key, w.tasks[t].pc, c)
    case Deliver(request, revision) => request in w.sent && Delivered(w.remote, request, revision)
    case Save(d, _) => d in w.devices
    case NewSession(d) => d in w.devices
    case Stop(t) => t in w.tasks
    case Crash(d) => d in w.devices
  }

  function Do(w: World, a: Action): (r: World)
    requires WellFormed(w) && Enabled(w, a)
  {
    match a
    case StartSync(t, d, key) =>
      Put(w, d, w.devices[d].(pending := None)).(tasks := w.tasks[t := Task(d, key, Capture)])
    case StartResolve(t, d, key, token, keepLocal) => w.(tasks := w.tasks[t := Task(d, key, ResolveCapture(token, keepLocal))])
    case Step(t, p, c) => Perform(w, t, StepOf(w, t, p, c).value)
    case Deliver(request, revision) => w.(remote := w.remote + [Generation(request.candidate, revision, request.origin)])
    case Save(d, content) => Put(w, d, w.devices[d].(held := w.devices[d].held + [content]))
    case NewSession(d) => Put(w, d, w.devices[d].(session := w.devices[d].session + 1))
    case Stop(t) => w.(tasks := w.tasks - {t})
    case Crash(d) =>
      Put(w, d, w.devices[d].(pending := None, session := w.devices[d].session + 1)).(
        tasks := map t | t in w.tasks && w.tasks[t].device != d :: w.tasks[t])
  }

  /** Any devices with any local vaults, no remote object yet, nothing stored and nothing running. */
  predicate Init(w: World)
  {
    && w.remote == [] && w.tasks == map[] && w.sent == {} && w.minted == {} && w.spent == {}
    && forall d :: d in w.devices ==>
         && |w.devices[d].held| == 1 && w.devices[d].bases == [None] && w.devices[d].journal.None?
         && w.devices[d].pending.None? && w.devices[d].latestToken.None?
  }
}

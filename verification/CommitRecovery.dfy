/** One commit and its recovery on one device, with a crash after any durable write. */
module CommitRecovery {
  import opened Vault
  import opened SyncProtocol

  /** Everything that outlives the process, and the running session. */
  datatype Store = Store(remote: Option<Pair>, local: Snapshot, base: Option<Pair>, journal: Option<Journal>)

  datatype Outcome =
    | Done
    | Recovered
    | NothingToRecover
    | Crashed
    | ActiveJournal
    | RemoteChangedError
    | LocalChanged
    | LocalChangedDuringRecovery
    | UncertainState
    | VaultAuthenticationFailed
    | ProviderFailed
    | InternalError

  /** How the provider treats one conditional write: whether it lands, under which revision, and what
      the caller hears (`None`: any other provider error). */
  datatype Answer = Answer(lands: bool, revision: nat, reply: Option<Reply>)

  predicate AcceptsNow(remote: Option<Pair>, expected: Option<nat>)
  {
    match remote
    case None => expected.None?
    case Some(p) => expected == Some(p.revision)
  }

  predicate Lands(remote: Option<Pair>, plan: Plan, answer: Answer)
  {
    answer.lands && AcceptsNow(remote, if plan.action == Create then None else plan.expected)
  }

  /** A confirmation is heard only for a write that landed. */
  function Heard(remote: Option<Pair>, plan: Plan, answer: Answer): (r: Option<Reply>)
  {
    if answer.reply.Some? && answer.reply.value.Committed? then
      Some(if Lands(remote, plan, answer) then Committed(answer.revision) else RemoteChanged)
    else answer.reply
  }

  // ---------------------------------------------------------------- the durable states of a call

  /** The states a call leaves behind, one per durable write, and how it ends. */
  datatype Trace = Trace(states: seq<Store>, outcome: Outcome)

  function Then(s: Store, rest: Trace): (t: Trace)
  {
    Trace([s] + rest.states, rest.outcome)
  }

  function Ends(s: Store, outcome: Outcome): (t: Trace)
  {
    Trace([s], outcome)
  }

  function Mark(s: Store, j: Journal): (r: Store)
  {
    s.(journal := Some(j))
  }

  function RemoteMarked(j: Journal, revision: nat): (r: Journal)
  {
    j.(phase := RemoteCommitted, committed := Some(revision))
  }

  function LocalMarked(j: Journal): (r: Journal)
  {
    j.(phase := LocalCommitted)
  }

  function ReplaceLocal(s: Store, c: Ciphertext): (r: Store)
  {
    s.(local := s.local.(content := c))
  }

  predicate Matches(s: Store, j: Journal)
  {
    s.remote.Some? && s.remote.value.content == j.candidate
  }

  function RecoverTrace(s: Store, key: nat): (t: Trace)
  {
    if s.journal.None? then Ends(s, NothingToRecover)
    else
      var j := s.journal.value;
      if OpenDocument(j.candidate, key).None? then Ends(s, VaultAuthenticationFailed)
      else if j.phase == Prepared then
        if Matches(s, j) then
          var marked := RemoteMarked(j, s.remote.value.revision);
          Then(s, RecoverLocalTrace(Mark(s, marked), marked))
        else if !AcceptsNow(s.remote, j.expectedRemote) then Ends(s, UncertainState)
        else if Digest(s.local.content) != j.expectedLocal then Ends(s, LocalChangedDuringRecovery)
        else Then(s, Ends(s.(journal := None), NothingToRecover))
      else if !Matches(s, j) then Ends(s, UncertainState)
      else if j.phase == RemoteCommitted then RecoverLocalTrace(s, j)
      else RecoverBaseTrace(s, j)
  }

  function RecoverLocalTrace(s: Store, j: Journal): (t: Trace)
    requires Matches(s, j)
  {
    if s.local.content == j.candidate then Then(s, RecoverBaseTrace(Mark(s, LocalMarked(j)), LocalMarked(j)))
    else if Digest(s.local.content) != j.expectedLocal then Ends(s, LocalChangedDuringRecovery)
    else
      var replaced := ReplaceLocal(s, j.candidate);
      Then(s, Then(replaced, RecoverBaseTrace(Mark(replaced, LocalMarked(j)), LocalMarked(j))))
  }

  function RecoverBaseTrace(s: Store, j: Journal): (t: Trace)
    requires Matches(s, j)
  {
    if s.local.content != j.candidate then Ends(s, UncertainState)
    else FinishTrace(s, Pair(j.candidate, s.remote.value.revision), Recovered)
  }

  function FinishTrace(s: Store, base: Pair, outcome: Outcome): (t: Trace)
  {
    var based := s.(base := Some(base));
    Then(s, Then(based, Ends(based.(journal := None), outcome)))
  }

  function CommitTrace(s: Store, plan: Plan, op: nat, key: nat, answer: Answer): (t: Trace)
  {
    if s.journal.Some? then Ends(s, ActiveJournal)
    else
      var j := Journal(op, Prepared, Digest(plan.snapshot.content), plan.expected, plan.candidate, None, plan.origin);
      Then(s, WriteTrace(Mark(s, j), plan, j, key, answer))
  }

  function WriteTrace(s: Store, plan: Plan, j: Journal, key: nat, answer: Answer): (t: Trace)
  {
    if plan.action != Create && plan.expected.None? then Ends(s, InternalError)
    else if plan.action == AlreadyCommitted then
      var marked := RemoteMarked(j, plan.expected.value);
      Then(s, MarkedTrace(Mark(s, marked), plan, marked))
    else
      var heard := Heard(s.remote, plan, answer);
      if Lands(s.remote, plan, answer)
      then Then(s, AnsweredTrace(s.(remote := Some(Pair(plan.candidate, answer.revision))), plan, j, key, heard))
      else AnsweredTrace(s, plan, j, key, heard)
  }

  function AnsweredTrace(s: Store, plan: Plan, j: Journal, key: nat, heard: Option<Reply>): (t: Trace)
  {
    match heard
    case None => Ends(s, ProviderFailed)
    case Some(RemoteChanged) => Then(s, Ends(s.(journal := None), RemoteChangedError))
    case Some(WriteResultUncertain) =>
      var t := RecoverTrace(s, key);
      if t.outcome == NothingToRecover then t.(outcome := RemoteChangedError) else t
    case Some(Committed(revision)) => Then(s, MarkedTrace(Mark(s, RemoteMarked(j, revision)), plan, RemoteMarked(j, revision)))
  }

  function MarkedTrace(s: Store, plan: Plan, j: Journal): (t: Trace)
    requires j.committed.Some?
  {
    if s.local != plan.snapshot then Ends(s, LocalChanged)
    else if plan.candidate == plan.snapshot.content then Then(s, CommittedTrace(Mark(s, LocalMarked(j)), plan, j.committed.value))
    else
      var replaced := ReplaceLocal(s, plan.candidate);
      Then(s, Then(replaced, CommittedTrace(Mark(replaced, LocalMarked(j)), plan, j.committed.value)))
  }

  function CommittedTrace(s: Store, plan: Plan, revision: nat): (t: Trace)
  {
    FinishTrace(s, Pair(plan.candidate, revision), Done)
  }

  /** The state and result when the machine stops after `fuse` durable writes. */
  function StateAfter(t: Trace, fuse: nat): (s: Store)
    requires t.states != []
  {
    if fuse < |t.states| then t.states[fuse] else t.states[|t.states| - 1]
  }

  function OutcomeAfter(t: Trace, fuse: nat): (r: Outcome)
  {
    if fuse + 1 < |t.states| then Crashed else t.outcome
  }
}

/** The commit and its recovery as the engine performs them, step by step on durable state. */
module SyncEngine {
  import opened Vault
  import opened SyncProtocol
  import opened CommitRecovery

  /** Skipping the first durable write of a trace uses up one unit of the fuse. */
  lemma Burn(s: Store, rest: Trace, fuse: nat)
    requires rest.states != []
    ensures StateAfter(CommitRecovery.Then(s, rest), 0) == s && OutcomeAfter(CommitRecovery.Then(s, rest), 0) == Crashed
    ensures fuse > 0 ==> StateAfter(CommitRecovery.Then(s, rest), fuse) == StateAfter(rest, fuse - 1)
    ensures fuse > 0 ==> OutcomeAfter(CommitRecovery.Then(s, rest), fuse) == OutcomeAfter(rest, fuse - 1)
  {
  }

  class Engine {
    var remote: Option<Pair>
    var local: Snapshot
    var base: Option<Pair>
    var journal: Option<Journal>
    /** Durable writes left before the machine stops. */
    var fuse: nat

    constructor (s: Store, fuse: nat)
      ensures State() == s && this.fuse == fuse
    {
      remote, local, base, journal := s.remote, s.local, s.base, s.journal;
      this.fuse := fuse;
    }

    function State(): (s: Store)
      reads this
    {
      Store(remote, local, base, journal)
    }

    /** A crash loses the session, nothing else. */
    method Restart(fuse: nat)
      modifies this
      ensures State() == old(State()).(local := Snapshot(old(local.session) + 1, old(local.content)))
      ensures this.fuse == fuse
    {
      local := Snapshot(local.session + 1, local.content);
      this.fuse := fuse;
    }

    /** Installs one durable state, unless the machine stops first. */
    method Persist(next: Store) returns (alive: bool)
      modifies this
      ensures alive == (old(fuse) > 0)
      ensures State() == if alive then next else old(State())
      ensures fuse == if alive then old(fuse) - 1 else old(fuse)
    {
      alive := fuse > 0;
      if alive {
        remote, local, base, journal := next.remote, next.local, next.base, next.journal;
        fuse := fuse - 1;
      }
    }

    method WriteBaseAndForget(pair: Pair, done: Outcome) returns (out: Outcome)
      modifies this
      ensures State() == StateAfter(FinishTrace(old(State()), pair, done), old(fuse))
      ensures out == OutcomeAfter(FinishTrace(old(State()), pair, done), old(fuse))
    {
      var alive := Persist(State().(base := Some(pair)));
      if !alive { return Crashed; }
      alive := Persist(State().(journal := None));
      return if alive then done else Crashed;
    }

    /** `recover_loaded`: on any durable state, stops exactly where its trace says. */
    method RecoverLoaded(key: nat) returns (out: Outcome)
      modifies this
      ensures State() == StateAfter(RecoverTrace(old(State()), key), old(fuse))
      ensures out == OutcomeAfter(RecoverTrace(old(State()), key), old(fuse))
    {
      if journal.None? { return NothingToRecover; }
      var record := journal.value;
      var document := OpenDocument(record.candidate, key);
      if document.None? { return VaultAuthenticationFailed; }
      var matches := remote.Some? && Digest(remote.value.content) == Digest(record.candidate);
      if record.phase == Prepared {
        if matches {
          record := record.(phase := RemoteCommitted, committed := Some(remote.value.revision));
          ghost var before, left := State(), fuse;
          var alive := Persist(State().(journal := Some(record)));
          Burn(before, RecoverLocalTrace(Mark(before, record), record), left);
          if !alive { return Crashed; }
        } else {
          var expected := if remote.None? then record.expectedRemote.None? else record.expectedRemote == Some(remote.value.revision);
          if !expected { return UncertainState; }
          if Digest(local.content) != record.expectedLocal { return LocalChangedDuringRecovery; }
          var alive := Persist(State().(journal := None));
          return if alive then NothingToRecover else Crashed;
        }
      }
      if !matches { return UncertainState; }
      if record.phase == RemoteCommitted {
        out := RecoverLocalVault(record);
      } else {
        out := RecoverBase(record);
      }
    }

    method RecoverLocalVault(j: Journal) returns (out: Outcome)
      requires Matches(State(), j)
      modifies this
      ensures State() == StateAfter(RecoverLocalTrace(old(State()), j), old(fuse))
      ensures out == OutcomeAfter(RecoverLocalTrace(old(State()), j), old(fuse))
    {
      var record := j;
      if Digest(local.content) != Digest(record.candidate) {
        if Digest(local.content) != record.expectedLocal { return LocalChangedDuringRecovery; }
        ghost var before, left := State(), fuse;
        var alive := Persist(State().(local := local.(content := record.candidate)));
        ghost var replaced := CommitRecovery.ReplaceLocal(before, j.candidate);
        Burn(before, CommitRecovery.Then(replaced, RecoverBaseTrace(Mark(replaced, LocalMarked(j)), LocalMarked(j))),
             left);
        if !alive { return Crashed; }
      }
      ghost var current, left := State(), fuse;
      record := record.(phase := LocalCommitted);
      var alive := Persist(State().(journal := Some(record)));
      Burn(current, RecoverBaseTrace(Mark(current, LocalMarked(j)), LocalMarked(j)), left);
      if !alive { return Crashed; }
      out := RecoverBase(record);
    }

    method RecoverBase(j: Journal) returns (out: Outcome)
      requires Matches(State(), j)
      modifies this
      ensures State() == StateAfter(RecoverBaseTrace(old(State()), j), old(fuse))
      ensures out == OutcomeAfter(RecoverBaseTrace(old(State()), j), old(fuse))
    {
      if Digest(local.content) != Digest(j.candidate) { return UncertainState; }
      out := WriteBaseAndForget(Pair(j.candidate, remote.value.revision), Recovered);
    }

    /** `commit_candidate_bytes`, for any plan on any durable state and any provider answer. */
    method CommitCandidateBytes(plan: Plan, op: nat, key: nat, answer: Answer) returns (out: Outcome)
      modifies this
      ensures State() == StateAfter(CommitTrace(old(State()), plan, op, key, answer), old(fuse))
      ensures out == OutcomeAfter(CommitTrace(old(State()), plan, op, key, answer), old(fuse))
    {
      if journal.Some? { return ActiveJournal; }
      var record := Journal(op, Prepared, Digest(plan.snapshot.content), plan.expected, plan.candidate, None,
                            plan.origin);
      ghost var before, left := State(), fuse;
      var alive := Persist(State().(journal := Some(record)));
      Burn(before, WriteTrace(Mark(before, record), plan, record, key, answer), left);
      if !alive { return Crashed; }
      if plan.action != Create && plan.expected.None? { return InternalError; }
      if plan.action == AlreadyCommitted {
        out := Confirmed(plan, record, plan.expected.value);
        return;
      }
      var heard := Heard(remote, plan, answer);
      if Lands(remote, plan, answer) {
        ghost var sent, rest := State(), fuse;
        alive := Persist(State().(remote := Some(Pair(plan.candidate, answer.revision))));
        Burn(sent, AnsweredTrace(sent.(remote := Some(Pair(plan.candidate, answer.revision))), plan, record, key, heard), rest);
        if !alive { return Crashed; }
      }
      out := Answered(plan, record, key, heard);
    }

    /** The part of a commit after the provider has answered. */
    method Answered(plan: Plan, j: Journal, key: nat, heard: Option<Reply>) returns (out: Outcome)
      modifies this
      ensures State() == StateAfter(AnsweredTrace(old(State()), plan, j, key, heard), old(fuse))
      ensures out == OutcomeAfter(AnsweredTrace(old(State()), plan, j, key, heard), old(fuse))
    {
      match heard
      case None => return ProviderFailed;
      case Some(RemoteChanged) =>
        var alive := Persist(State().(journal := None));
        return if alive then RemoteChangedError else Crashed;
      case Some(WriteResultUncertain) =>
        out := RecoverLoaded(key);
        if out == NothingToRecover { return RemoteChangedError; }
      case Some(Committed(revision)) => out := Confirmed(plan, j, revision);
    }

    /** The part of a commit after the remote has taken the candidate. */
    method Confirmed(plan: Plan, j: Journal, revision: nat) returns (out: Outcome)
      modifies this
      ensures var rest := MarkedTrace(Mark(old(State()), RemoteMarked(j, revision)), plan, RemoteMarked(j, revision));
              && State() == StateAfter(CommitRecovery.Then(old(State()), rest), old(fuse))
              && out == OutcomeAfter(CommitRecovery.Then(old(State()), rest), old(fuse))
    {
      var record := j.(phase := RemoteCommitted, committed := Some(revision));
      ghost var before, left := State(), fuse;
      var alive := Persist(State().(journal := Some(record)));
      Burn(before, MarkedTrace(Mark(before, record), plan, record), left);
      if !alive { return Crashed; }
      if local != plan.snapshot { return LocalChanged; }
      if plan.candidate != plan.snapshot.content {
        ghost var old1, left1 := State(), fuse;
        alive := Persist(State().(local := local.(content := plan.candidate)));
        ghost var replaced := CommitRecovery.ReplaceLocal(old1, plan.candidate);
        Burn(old1, CommitRecovery.Then(replaced, CommittedTrace(Mark(replaced, LocalMarked(record)), plan, revision)),
             left1);
        if !alive { return Crashed; }
      }
      ghost var current, left2 := State(), fuse;
      record := record.(phase := LocalCommitted);
      alive := Persist(State().(journal := Some(record)));
      Burn(current, CommittedTrace(Mark(current, record), plan, revision), left2);
      if !alive { return Crashed; }
      out := WriteBaseAndForget(Pair(plan.candidate, revision), Done);
    }
  }
}

/** Crash atomicity: a commit that stops after any durable write, and is recovered by calls that may
    themselves stop anywhere, any number of times, ends as if it never ran or as if it never stopped. */
module CrashLaws {
  import opened Vault
  import opened SyncProtocol
  import opened CommitRecovery

  /** Nothing but the session may differ. */
  predicate SameDurable(a: Store, b: Store)
  {
    a.remote == b.remote && a.local.content == b.local.content && a.base == b.base && a.journal == b.journal
  }

  function Restarted(s: Store): (r: Store)
  {
    s.(local := s.local.(session := s.local.session + 1))
  }

  /** What a sync or a resolve has established when it commits, and nobody else has disturbed. */
  predicate Fits(s: Store, plan: Plan)
  {
    && s.journal.None? && s.local == plan.snapshot
    && match plan.action
       case Create => plan.expected.None? && s.remote.None?
       case Replace => plan.expected.Some? && s.remote.Some? && s.remote.value.revision == plan.expected.value
       case AlreadyCommitted => plan.expected.Some? && s.remote == Some(Pair(plan.candidate, plan.expected.value))
  }

  predicate HoldsCandidate(r: Option<Pair>, plan: Plan)
  {
    r.Some? && r.value.content == plan.candidate
  }

  /** Where recovery must end when the remote stands at `r`. */
  function Goal(s: Store, plan: Plan, r: Option<Pair>): (g: Store)
  {
    if HoldsCandidate(r, plan) then Store(r, Snapshot(s.local.session, plan.candidate), r, None)
    else Store(r, s.local, s.base, None)
  }

  /** The state of an unfinished commit, by phase. */
  predicate InFlight(s: Store, plan: Plan, r: Option<Pair>, x: Store, j: Journal)
  {
    && j.candidate == plan.candidate && j.expectedLocal == Digest(s.local.content) && j.expectedRemote == plan.expected
    && match j.phase
       case Prepared =>
         x.local.content == s.local.content && x.base == s.base && (HoldsCandidate(r, plan) || AcceptsNow(r, plan.expected))
       case RemoteCommitted =>
         HoldsCandidate(r, plan) && x.base == s.base && x.local.content in {s.local.content, plan.candidate}
       case LocalCommitted =>
         HoldsCandidate(r, plan) && x.base in {s.base, r} && x.local.content == plan.candidate
  }

  predicate Decided(s: Store, plan: Plan, r: Option<Pair>, x: Store)
  {
    && x.remote == r
    && if x.journal.None? then SameDurable(x, Goal(s, plan, r)) else InFlight(s, plan, r, x, x.journal.value)
  }

  predicate DecidedTrace(s: Store, plan: Plan, r: Option<Pair>, t: Trace)
  {
    t.states != [] && forall i :: 0 <= i < |t.states| ==> Decided(s, plan, r, t.states[i])
  }

  lemma DecidedThen(s: Store, plan: Plan, r: Option<Pair>, x: Store, rest: Trace)
    requires Decided(s, plan, r, x) && DecidedTrace(s, plan, r, rest)
    ensures DecidedTrace(s, plan, r, CommitRecovery.Then(x, rest))
  {
  }

  function Last(t: Trace): (x: Store)
    requires t.states != []
  {
    t.states[|t.states| - 1]
  }

  lemma RecoverBaseDecided(s: Store, plan: Plan, r: Option<Pair>, x: Store, j: Journal)
    requires Decided(s, plan, r, x) && x.journal == Some(j) && j.phase == LocalCommitted
    ensures Matches(x, j) && DecidedTrace(s, plan, r, RecoverBaseTrace(x, j))
    ensures SameDurable(Last(RecoverBaseTrace(x, j)), Goal(s, plan, r)) && RecoverBaseTrace(x, j).outcome == Recovered
  {
  }

  lemma RecoverLocalDecided(s: Store, plan: Plan, r: Option<Pair>, x: Store, j: Journal)
    requires Decided(s, plan, r, x) && x.journal == Some(j) && j.phase == RemoteCommitted
    ensures Matches(x, j) && DecidedTrace(s, plan, r, RecoverLocalTrace(x, j))
    ensures SameDurable(Last(RecoverLocalTrace(x, j)), Goal(s, plan, r)) && RecoverLocalTrace(x, j).outcome == Recovered
  {
    var marked := LocalMarked(j);
    if x.local.content == j.candidate {
      RecoverBaseDecided(s, plan, r, Mark(x, marked), marked);
      DecidedThen(s, plan, r, x, RecoverBaseTrace(Mark(x, marked), marked));
    } else {
      var replaced := CommitRecovery.ReplaceLocal(x, j.candidate);
      RecoverBaseDecided(s, plan, r, Mark(replaced, marked), marked);
      DecidedThen(s, plan, r, replaced, RecoverBaseTrace(Mark(replaced, marked), marked));
      DecidedThen(s, plan, r, x, CommitRecovery.Then(replaced, RecoverBaseTrace(Mark(replaced, marked), marked)));
    }
  }

  /** Recovery, under any credential, never leaves the states of the interrupted commit; under one
      that opens the candidate it reaches the goal. */
  lemma RecoverDecided(s: Store, plan: Plan, r: Option<Pair>, x: Store, key: nat)
    requires Decided(s, plan, r, x)
    ensures DecidedTrace(s, plan, r, RecoverTrace(x, key))
    ensures OpenDocument(plan.candidate, key).Some? ==>
              && SameDurable(Last(RecoverTrace(x, key)), Goal(s, plan, r))
              && (x.journal.Some? ==>
                    RecoverTrace(x, key).outcome == (if HoldsCandidate(r, plan) then Recovered else NothingToRecover))
  {
    if x.journal.Some? && OpenDocument(plan.candidate, key).Some? {
      var j := x.journal.value;
      if j.phase == RemoteCommitted {
        RecoverLocalDecided(s, plan, r, x, j);
      } else if j.phase == LocalCommitted {
        RecoverBaseDecided(s, plan, r, x, j);
      } else if Matches(x, j) {
        var marked := RemoteMarked(j, x.remote.value.revision);
        RecoverLocalDecided(s, plan, r, Mark(x, marked), marked);
        DecidedThen(s, plan, r, x, RecoverLocalTrace(Mark(x, marked), marked));
      }
    }
  }

  // ---------------------------------------------------------------- the commit itself

  /** The remote after `k` durable writes of the commit. */
  function RemoteAt(s: Store, plan: Plan, answer: Answer, k: nat): (r: Option<Pair>)
  {
    if k >= 2 && plan.action != AlreadyCommitted && Lands(s.remote, plan, answer)
    then Some(Pair(plan.candidate, answer.revision)) else s.remote
  }

  /** Nobody else writes: a rejected write is one that did not land. */
  predicate NoOutsideWriter(s: Store, plan: Plan, answer: Answer)
  {
    answer.reply == Some(RemoteChanged) ==> !Lands(s.remote, plan, answer)
  }

  lemma CommittedDecided(s: Store, plan: Plan, r: Option<Pair>, x: Store, revision: nat)
    requires Decided(s, plan, r, x) && x.journal.Some? && x.journal.value.phase == LocalCommitted
    requires r == Some(Pair(plan.candidate, revision))
    ensures DecidedTrace(s, plan, r, CommittedTrace(x, plan, revision))
    ensures SameDurable(Last(CommittedTrace(x, plan, revision)), Goal(s, plan, r))
  {
  }

  lemma MarkedDecided(s: Store, plan: Plan, r: Option<Pair>, x: Store, j: Journal, revision: nat)
    requires Decided(s, plan, r, x) && x.journal == Some(j) && j.phase == RemoteCommitted
    requires j.committed == Some(revision)
    requires r == Some(Pair(plan.candidate, revision)) && x.local == s.local == plan.snapshot
    ensures DecidedTrace(s, plan, r, MarkedTrace(x, plan, j)) && MarkedTrace(x, plan, j).outcome == Done
    ensures SameDurable(Last(MarkedTrace(x, plan, j)), Goal(s, plan, r))
  {
    var marked := LocalMarked(j);
    if plan.candidate == plan.snapshot.content {
      CommittedDecided(s, plan, r, Mark(x, marked), revision);
      DecidedThen(s, plan, r, x, CommittedTrace(Mark(x, marked), plan, revision));
    } else {
      var replaced := CommitRecovery.ReplaceLocal(x, plan.candidate);
      CommittedDecided(s, plan, r, Mark(replaced, marked), revision);
      DecidedThen(s, plan, r, replaced, CommittedTrace(Mark(replaced, marked), plan, revision));
      DecidedThen(s, plan, r, x, CommitRecovery.Then(replaced, CommittedTrace(Mark(replaced, marked), plan, revision)));
    }
  }

  lemma ConfirmedDecided(s: Store, plan: Plan, r: Option<Pair>, x: Store, j: Journal, revision: nat)
    requires Decided(s, plan, r, x) && x.journal == Some(j) && j.phase == Prepared
    requires r == Some(Pair(plan.candidate, revision)) && x.local == s.local == plan.snapshot
    ensures var t := CommitRecovery.Then(x, MarkedTrace(Mark(x, RemoteMarked(j, revision)), plan, RemoteMarked(j, revision)));
            DecidedTrace(s, plan, r, t) && t.outcome == Done && SameDurable(Last(t), Goal(s, plan, r))
  {
    var marked := RemoteMarked(j, revision);
    MarkedDecided(s, plan, r, Mark(x, marked), marked, revision);
    DecidedThen(s, plan, r, x, MarkedTrace(Mark(x, marked), plan, marked));
  }

  /** After the provider's answer: a rejected commit is undone, any other stays decided. */
  lemma AnsweredDecided(s: Store, plan: Plan, r: Option<Pair>, x: Store, j: Journal, key: nat, heard: Option<Reply>)
    requires Decided(s, plan, r, x) && x.journal == Some(j) && j.phase == Prepared
    requires x.local == s.local == plan.snapshot
    requires heard.Some? && heard.value.Committed? ==> r == Some(Pair(plan.candidate, heard.value.revision))
    requires heard != Some(RemoteChanged)
    ensures DecidedTrace(s, plan, r, AnsweredTrace(x, plan, j, key, heard))
    ensures AnsweredTrace(x, plan, j, key, heard).states[0] == x
    ensures AnsweredTrace(x, plan, j, key, heard).outcome in {Done, Recovered} ==>
              SameDurable(Last(AnsweredTrace(x, plan, j, key, heard)), Goal(s, plan, r)) && HoldsCandidate(r, plan)
  {
    if heard == Some(WriteResultUncertain) {
      RecoverDecided(s, plan, r, x, key);
    } else if heard.Some? {
      ConfirmedDecided(s, plan, r, x, j, heard.value.revision);
    }
  }

  function Commit(s: Store, plan: Plan, op: nat, key: nat, answer: Answer, k: nat): (x: Store)
  {
    StateAfter(CommitTrace(s, plan, op, key, answer), k)
  }

  /** The commit's trace begins with `s` and the prepared journal; the rest is given. */
  lemma AheadThenRest(s: Store, plan: Plan, r: Option<Pair>, rest: Trace, k: nat)
    requires DecidedTrace(s, plan, r, rest)
    ensures k == 0 ==> StateAfter(CommitRecovery.Then(s, rest), k) == s
    ensures k >= 1 ==> Decided(s, plan, r, StateAfter(CommitRecovery.Then(s, rest), k))
    ensures Last(CommitRecovery.Then(s, rest)) == Last(rest)
  {
  }

  function Prepare(s: Store, plan: Plan, op: nat): (x: Store)
  {
    Mark(s, Journal(op, Prepared, Digest(plan.snapshot.content), plan.expected, plan.candidate, None, plan.origin))
  }

  lemma PrepareDecided(s: Store, plan: Plan, op: nat)
    requires Fits(s, plan)
    ensures Decided(s, plan, s.remote, Prepare(s, plan, op))
  {
  }

  lemma AlreadyStates(s: Store, plan: Plan, op: nat, key: nat, answer: Answer, k: nat)
    requires Fits(s, plan) && plan.action == AlreadyCommitted
    ensures if k == 0 then Commit(s, plan, op, key, answer, k) == s else Decided(s, plan, s.remote, Commit(s, plan, op, key, answer, k))
    ensures SameDurable(Last(CommitTrace(s, plan, op, key, answer)), Goal(s, plan, s.remote))
  {
    var x := Prepare(s, plan, op);
    PrepareDecided(s, plan, op);
    ConfirmedDecided(s, plan, s.remote, x, x.journal.value, plan.expected.value);
    AheadThenRest(s, plan, s.remote, WriteTrace(x, plan, x.journal.value, key, answer), k);
  }

  lemma LandedStates(s: Store, plan: Plan, op: nat, key: nat, answer: Answer, k: nat)
    requires Fits(s, plan) && plan.action != AlreadyCommitted && NoOutsideWriter(s, plan, answer)
    requires Lands(s.remote, plan, answer)
    ensures if k == 0 then Commit(s, plan, op, key, answer, k) == s
            else Decided(s, plan, RemoteAt(s, plan, answer, k), Commit(s, plan, op, key, answer, k))
    ensures CommitTrace(s, plan, op, key, answer).outcome in {Done, Recovered} ==>
              SameDurable(Last(CommitTrace(s, plan, op, key, answer)), Goal(s, plan, RemoteAt(s, plan, answer, 2)))
  {
    var x, r, heard := Prepare(s, plan, op), Some(Pair(plan.candidate, answer.revision)), Heard(s.remote, plan, answer);
    var j := x.journal.value;
    var y := x.(remote := r);
    PrepareDecided(s, plan, op);
    assert Decided(s, plan, r, y);
    AnsweredDecided(s, plan, r, y, j, key, heard);
    var rest := AnsweredTrace(y, plan, j, key, heard);
    assert CommitTrace(s, plan, op, key, answer) == CommitRecovery.Then(s, CommitRecovery.Then(x, rest));
    if k >= 2 {
      assert Commit(s, plan, op, key, answer, k) == StateAfter(rest, k - 2);
    }
  }

  lemma UnlandedStates(s: Store, plan: Plan, op: nat, key: nat, answer: Answer, k: nat)
    requires Fits(s, plan) && plan.action != AlreadyCommitted && !Lands(s.remote, plan, answer)
    ensures Commit(s, plan, op, key, answer, k) == s || Decided(s, plan, s.remote, Commit(s, plan, op, key, answer, k))
  {
    var x, heard := Prepare(s, plan, op), Heard(s.remote, plan, answer);
    PrepareDecided(s, plan, op);
    if heard != Some(RemoteChanged) {
      AnsweredDecided(s, plan, s.remote, x, x.journal.value, key, heard);
      AheadThenRest(s, plan, s.remote, AnsweredTrace(x, plan, x.journal.value, key, heard), k);
    }
  }

  /** Wherever a commit stops, it is untouched or decided, and which one follows from how far it got. */
  lemma CommitStates(s: Store, plan: Plan, op: nat, key: nat, answer: Answer, k: nat)
    requires Fits(s, plan) && NoOutsideWriter(s, plan, answer)
    ensures Commit(s, plan, op, key, answer, k) == s
            || Decided(s, plan, RemoteAt(s, plan, answer, k), Commit(s, plan, op, key, answer, k))
    ensures k == 0 ==> Commit(s, plan, op, key, answer, k) == s
    ensures k >= 1 && (plan.action == AlreadyCommitted || Lands(s.remote, plan, answer)) ==>
              Decided(s, plan, RemoteAt(s, plan, answer, k), Commit(s, plan, op, key, answer, k))
  {
    if plan.action == AlreadyCommitted {
      AlreadyStates(s, plan, op, key, answer, k);
    } else if Lands(s.remote, plan, answer) {
      LandedStates(s, plan, op, key, answer, k);
    } else {
      UnlandedStates(s, plan, op, key, answer, k);
    }
  }

  // ---------------------------------------------------------------- crashes and retries

  /** One recovery attempt: under a credential, stopping after `fuse` durable writes. */
  datatype Attempt = Attempt(fuse: nat, key: nat)

  /** The machine restarts and recovers, again and again. */
  function Retried(x: Store, tries: seq<Attempt>): (y: Store)
    decreases |tries|
  {
    if tries == [] then x
    else Retried(StateAfter(RecoverTrace(Restarted(x), tries[0].key), tries[0].fuse), tries[1..])
  }

  lemma {:induction false} RetriedDecided(s: Store, plan: Plan, r: Option<Pair>, x: Store, tries: seq<Attempt>)
    requires Decided(s, plan, r, x)
    ensures Decided(s, plan, r, Retried(x, tries))
    decreases |tries|
  {
    if tries != [] {
      RecoverDecided(s, plan, r, Restarted(x), tries[0].key);
      RetriedDecided(s, plan, r, StateAfter(RecoverTrace(Restarted(x), tries[0].key), tries[0].fuse), tries[1..]);
    }
  }

  lemma {:induction false} RetriedIdle(x: Store, tries: seq<Attempt>)
    requires x.journal.None?
    ensures SameDurable(Retried(x, tries), x)
    decreases |tries|
  {
    if tries != [] {
      RetriedIdle(StateAfter(RecoverTrace(Restarted(x), tries[0].key), tries[0].fuse), tries[1..]);
    }
  }

  predicate SameContents(a: Store, b: Store)
  {
    && a.local.content == b.local.content && a.journal == b.journal
    && (a.remote.Some? <==> b.remote.Some?) && (a.remote.Some? ==> a.remote.value.content == b.remote.value.content)
    && (a.base.Some? <==> b.base.Some?) && (a.base.Some? ==> a.base.value.content == b.base.value.content)
  }

  /** The run that is never interrupted and hears its confirmation. */
  function Uncrashed(s: Store, plan: Plan, op: nat, key: nat, answer: Answer): (x: Store)
  {
    var t := CommitTrace(s, plan, op, key, Answer(true, answer.revision, Some(Committed(answer.revision))));
    t.states[|t.states| - 1]
  }

  lemma ConfirmedSucceeds(s: Store, plan: Plan, op: nat, key: nat, revision: nat)
    requires Fits(s, plan) && plan.action != AlreadyCommitted
    ensures CommitTrace(s, plan, op, key, Answer(true, revision, Some(Committed(revision)))).outcome == Done
  {
    var x := Prepare(s, plan, op).(remote := Some(Pair(plan.candidate, revision)));
    PrepareDecided(s, plan, op);
    assert Decided(s, plan, x.remote, x);
    ConfirmedDecided(s, plan, x.remote, x, x.journal.value, revision);
  }

  lemma UncrashedGoal(s: Store, plan: Plan, op: nat, key: nat, answer: Answer)
    requires Fits(s, plan)
    ensures SameDurable(Uncrashed(s, plan, op, key, answer), Goal(s, plan,
              if plan.action == AlreadyCommitted then s.remote else Some(Pair(plan.candidate, answer.revision))))
  {
    var confirmed := Answer(true, answer.revision, Some(Committed(answer.revision)));
    if plan.action == AlreadyCommitted {
      AlreadyStates(s, plan, op, key, confirmed, 0);
    } else {
      LandedStates(s, plan, op, key, confirmed, 0);
      ConfirmedSucceeds(s, plan, op, key, answer.revision);
    }
  }

  /** Crash atomicity. Stop the commit after any number `k` of durable writes; restart and recover any
      number of times, each attempt under any credential and stopping anywhere; then let one recovery
      under a credential that opens the candidate finish. The journal is gone, and remote, LOCAL and
      BASE hold what they held before the commit or what the uncrashed run leaves. Which of the two
      is settled by whether the write landed, not by the recoveries. */
  lemma CrashAtomicity(s: Store, plan: Plan, op: nat, key: nat, answer: Answer, k: nat, tries: seq<Attempt>, last: nat)
    requires Fits(s, plan) && NoOutsideWriter(s, plan, answer) && OpenDocument(plan.candidate, last).Some?
    ensures
      var end := Last(RecoverTrace(Restarted(Retried(Commit(s, plan, op, key, answer, k), tries)), last));
      var whole := Uncrashed(s, plan, op, key, answer);
      && end.journal.None?
      && (SameDurable(end, s) || SameContents(end, whole))
      && (k >= 1 && plan.action == AlreadyCommitted ==> SameDurable(end, whole))
      && (k >= 2 && plan.action != AlreadyCommitted && Lands(s.remote, plan, answer) ==> SameDurable(end, whole))
      && (k == 0 || (!Lands(s.remote, plan, answer) && !HoldsCandidate(s.remote, plan)) ==> SameDurable(end, s))
  {
    var x, r := Commit(s, plan, op, key, answer, k), RemoteAt(s, plan, answer, k);
    CommitStates(s, plan, op, key, answer, k);
    UncrashedGoal(s, plan, op, key, answer);
    if x == s {
      RetriedIdle(s, tries);
    }
    if Decided(s, plan, r, x) {
      RetriedDecided(s, plan, r, x, tries);
      RecoverDecided(s, plan, r, Restarted(Retried(x, tries)), last);
    }
  }

  // ---------------------------------------------------------------- a write still in flight

  /** The commit's own write lands late, when its condition still holds. */
  function Landed(x: Store, plan: Plan, revision: nat): (y: Store)
  {
    x.(remote := Some(Pair(plan.candidate, revision)))
  }

  predicate Atomic(end: Store, s: Store, whole: Store)
  {
    end.journal.None? && (SameContents(end, s) || SameContents(end, whole))
  }

  /** LOCAL and BASE already were the candidate, so that only the remote had to change. */
  predicate NothingElseToDo(s: Store, plan: Plan)
  {
    s.local.content == plan.candidate && s.base.Some? && s.base.value.content == plan.candidate
  }

  lemma WrittenAhead(s: Store, plan: Plan, op: nat, key: nat, answer: Answer)
    requires Fits(s, plan)
    ensures Commit(s, plan, op, key, answer, 1) == Prepare(s, plan, op)
    ensures Decided(s, plan, s.remote, Commit(s, plan, op, key, answer, 1))
  {
    PrepareDecided(s, plan, op);
  }

  /** While the journal stands, the late write is the write of a commit that is still going on, over
      the BASE that recovery has stored so far. */
  lemma LandsUnderJournal(s: Store, plan: Plan, x: Store, revision: nat)
    requires Decided(s, plan, s.remote, x) && x.journal.Some?
    ensures Decided(s.(base := x.base), plan, Some(Pair(plan.candidate, revision)), Landed(x, plan, revision))
  {
  }

  /** The exact reach of crash atomicity for a write that was sent before the crash and lands after
      any recoveries, with any recoveries following: the end is atomic if and only if the write
      landed while the journal was still there, or the remote already held the candidate, or LOCAL and
      BASE needed no change. */
  lemma LateDelivery(s: Store, plan: Plan, op: nat, key: nat, answer: Answer, before: seq<Attempt>, after: seq<Attempt>,
                     last: nat)
    requires Fits(s, plan) && plan.action != AlreadyCommitted && OpenDocument(plan.candidate, last).Some?
    ensures
      var x := Retried(Commit(s, plan, op, key, answer, 1), before);
      var y := Retried(Landed(x, plan, answer.revision), after);
      var end := Last(RecoverTrace(Restarted(y), last));
      && AcceptsNow(x.remote, plan.expected)
      && (Atomic(end, s, Uncrashed(s, plan, op, key, answer)) <==>
            x.journal.Some? || HoldsCandidate(s.remote, plan) || NothingElseToDo(s, plan))
      && (x.journal.Some? ==> SameDurable(end, Uncrashed(s, plan, op, key, answer)))
  {
    var start := Commit(s, plan, op, key, answer, 1);
    WrittenAhead(s, plan, op, key, answer);
    RetriedDecided(s, plan, s.remote, start, before);
    var x := Retried(start, before);
    var r := Some(Pair(plan.candidate, answer.revision));
    var landed := Landed(x, plan, answer.revision);
    UncrashedGoal(s, plan, op, key, answer);
    if x.journal.Some? {
      LandsUnderJournal(s, plan, x, answer.revision);
      RetriedDecided(s.(base := x.base), plan, r, landed, after);
      RecoverDecided(s.(base := x.base), plan, r, Restarted(Retried(landed, after)), last);
    } else {
      RetriedIdle(landed, after);
    }
  }

  /** Recovery before the landing is what loses the journal: one that finishes under a credential that
      opens the candidate drops it, and then the late write leaves the remote ahead of LOCAL and BASE. */
  lemma LateDeliverySplits(s: Store, plan: Plan, op: nat, key: nat, answer: Answer, fuse: nat)
    requires Fits(s, plan) && plan.action != AlreadyCommitted && !HoldsCandidate(s.remote, plan)
    requires OpenDocument(plan.candidate, key).Some? && fuse > 0 && !NothingElseToDo(s, plan)
    ensures
      var x := Retried(Commit(s, plan, op, key, answer, 1), [Attempt(fuse, key)]);
      var late := Landed(x, plan, answer.revision);
      && SameDurable(x, s) && late.journal.None?
      && !SameContents(late, s) && !SameContents(late, Uncrashed(s, plan, op, key, answer))
  {
    var start := Commit(s, plan, op, key, answer, 1);
    WrittenAhead(s, plan, op, key, answer);
    RecoverDecided(s, plan, s.remote, Restarted(start), key);
    var t := RecoverTrace(Restarted(start), key);
    assert |t.states| == 2;
    assert Retried(start, [Attempt(fuse, key)]) == Retried(StateAfter(t, fuse), []);
    UncrashedGoal(s, plan, op, key, answer);
  }

  // ---------------------------------------------------------------- recovery on any state

  predicate MayComplete(s: Store, j: Journal)
  {
    && Matches(s, j)
    && (s.local.content == j.candidate || (j.phase != LocalCommitted && Digest(s.local.content) == j.expectedLocal))
  }

  predicate MayDrop(s: Store, j: Journal)
  {
    j.phase == Prepared && !Matches(s, j) && AcceptsNow(s.remote, j.expectedRemote) && Digest(s.local.content) == j.expectedLocal
  }

  /** The two later stages of recovery, on any state whose remote is the candidate. */
  lemma BaseStage(s: Store, j: Journal)
    requires Matches(s, j) && s.journal == Some(j)
    ensures var t := RecoverBaseTrace(s, j);
            if s.local.content == j.candidate
            then t.outcome == Recovered && Last(t) == s.(base := s.remote, journal := None)
            else t.outcome == UncertainState && Last(t) == s
  {
  }

  lemma LocalStage(s: Store, j: Journal)
    requires Matches(s, j) && s.journal == Some(j)
    ensures var t := RecoverLocalTrace(s, j);
            if s.local.content == j.candidate || Digest(s.local.content) == j.expectedLocal
            then t.outcome == Recovered && Last(t) == Store(s.remote, s.local.(content := j.candidate), s.remote, None)
            else t.outcome == LocalChangedDuringRecovery && Last(t) == s
  {
    var marked := LocalMarked(j);
    BaseStage(Mark(s, marked), marked);
    BaseStage(Mark(CommitRecovery.ReplaceLocal(s, j.candidate), marked), marked);
  }

  /** What uninterrupted recovery does on any state, however it arose: it completes exactly when the
      remote is the candidate and LOCAL is the candidate or its input, drops exactly when neither has
      moved, and otherwise keeps the journaled operation and every content. It never writes the remote. */
  lemma RecoveryOnAnyState(s: Store, key: nat, j: Journal)
    requires s.journal == Some(j) && OpenDocument(j.candidate, key).Some?
    ensures
      var t := RecoverTrace(s, key);
      var end := Last(t);
      && end.remote == s.remote
      && (t.outcome == Recovered <==> MayComplete(s, j))
      && (t.outcome == NothingToRecover <==> MayDrop(s, j))
      && (t.outcome == Recovered ==> end == Store(s.remote, s.local.(content := j.candidate), s.remote, None))
      && (t.outcome == NothingToRecover ==> end == s.(journal := None))
      && (t.outcome !in {Recovered, NothingToRecover} ==>
            end.journal.Some? && end.journal.value.op == j.op && end == s.(journal := end.journal))
  {
    if Matches(s, j) {
      var marked := RemoteMarked(j, s.remote.value.revision);
      LocalStage(s, j);
      LocalStage(Mark(s, marked), marked);
      BaseStage(s, j);
    }
  }

  /** Which error a recovery that neither completes nor drops gives: LOCAL was edited, or nobody can
      tell what became of the write. */
  lemma RecoveryRefusedExactly(s: Store, key: nat)
    ensures RecoverTrace(s, key).outcome == VaultAuthenticationFailed <==>
              s.journal.Some? && OpenDocument(s.journal.value.candidate, key).None?
    ensures RecoverTrace(s, key).outcome == LocalChangedDuringRecovery <==>
              && s.journal.Some? && OpenDocument(s.journal.value.candidate, key).Some?
              && var j := s.journal.value;
                 && Digest(s.local.content) != j.expectedLocal
                 && if Matches(s, j) then j.phase != LocalCommitted && s.local.content != j.candidate
                    else j.phase == Prepared && AcceptsNow(s.remote, j.expectedRemote)
    ensures s.journal.None? ==> RecoverTrace(s, key) == Trace([s], NothingToRecover)
    ensures s.journal.Some? && OpenDocument(s.journal.value.candidate, key).None? ==> RecoverTrace(s, key).states == [s]
  {
    if s.journal.Some? && Matches(s, s.journal.value) {
      var j := s.journal.value;
      var marked := RemoteMarked(j, s.remote.value.revision);
      LocalStage(s, j);
      LocalStage(Mark(s, marked), marked);
      BaseStage(s, j);
    }
  }

  // ---------------------------------------------------------------- a commit on any state

  /** LOCAL and BASE are the candidate, the journal is gone, and the remote is `r`. */
  predicate Completed(s: Store, plan: Plan, r: Option<Pair>, revision: nat, t: Trace)
    requires t.states != []
  {
    t.outcome == Done && Last(t) == Store(r, s.local.(content := plan.candidate), Some(Pair(plan.candidate, revision)), None)
  }

  /** It stopped with its journal in `phase`, and LOCAL and BASE as they were. */
  predicate StoppedAt(s: Store, plan: Plan, op: nat, r: Option<Pair>, phase: Phase, t: Trace)
    requires t.states != []
  {
    && Last(t) == Store(r, s.local, s.base, Last(t).journal) && Last(t).journal.Some?
    && Last(t).journal.value.op == op && Last(t).journal.value.phase == phase
    && Last(t).journal.value.candidate == plan.candidate && Last(t).journal.value.expectedRemote == plan.expected
    && Last(t).journal.value.expectedLocal == Digest(plan.snapshot.content)
  }

  lemma MarkedOnAnyState(s: Store, plan: Plan, j: Journal, revision: nat)
    requires s.journal == Some(j) && j.committed == Some(revision) && j.phase == RemoteCommitted
    ensures var t := MarkedTrace(s, plan, j);
            if s.local == plan.snapshot
            then t.outcome == Done && Last(t) ==
                   Store(s.remote, s.local.(content := plan.candidate), Some(Pair(plan.candidate, revision)), None)
            else t.outcome == LocalChanged && Last(t) == s
  {
  }

  /** A commit is refused for a journal if and only if there is one, and then it does nothing; it is
      refused for a missing revision before it sends anything. */
  lemma CommitRefusedExactly(s: Store, plan: Plan, op: nat, key: nat, answer: Answer)
    ensures var t := CommitTrace(s, plan, op, key, answer);
            && (t.outcome == ActiveJournal <==> s.journal.Some?)
            && (s.journal.Some? ==> t.states == [s])
            && (t.outcome == InternalError <==> s.journal.None? && plan.action != Create && plan.expected.None?)
            && (t.outcome == InternalError ==> t.states != [] && StoppedAt(s, plan, op, s.remote, Prepared, t))
  {
  }

  /** A commit of what the remote has already: it completes if and only if LOCAL is still the captured
      one, whatever the remote is by now, which it neither reads nor writes. */
  lemma TakeOverOnAnyState(s: Store, plan: Plan, op: nat, key: nat, answer: Answer)
    requires s.journal.None? && plan.action == AlreadyCommitted && plan.expected.Some?
    ensures var t := CommitTrace(s, plan, op, key, answer);
            if s.local == plan.snapshot then Completed(s, plan, s.remote, plan.expected.value, t)
            else t.outcome == LocalChanged && StoppedAt(s, plan, op, s.remote, RemoteCommitted, t)
  {
    var j := Prepare(s, plan, op).journal.value;
    var marked := RemoteMarked(j, plan.expected.value);
    MarkedOnAnyState(Mark(s, marked), plan, marked, plan.expected.value);
  }

  /** The write lands if and only if the provider lets it and its condition holds. */
  predicate WriteLands(s: Store, plan: Plan, answer: Answer)
  {
    answer.lands && if plan.action == Create then s.remote.None? else RevisionAt(s.remote) == plan.expected
  }

  function RevisionAt(r: Option<Pair>): (n: Option<nat>)
  {
    if r.Some? then Some(r.value.revision) else None
  }

  /** An upload, by the provider's answer: a confirmed one completes if and only if LOCAL is still the
      captured one; a refused one leaves no trace; an unknown error leaves the journal for recovery. */
  lemma UploadOnAnyState(s: Store, plan: Plan, op: nat, key: nat, answer: Answer)
    requires s.journal.None? && plan.action != AlreadyCommitted && (plan.action == Create || plan.expected.Some?)
    requires answer.reply != Some(WriteResultUncertain)
    ensures
      var t := CommitTrace(s, plan, op, key, answer);
      var r := if WriteLands(s, plan, answer) then Some(Pair(plan.candidate, answer.revision)) else s.remote;
      match answer.reply
      case None => t.outcome == ProviderFailed && StoppedAt(s, plan, op, r, Prepared, t)
      case Some(Committed(_)) =>
        if !WriteLands(s, plan, answer) then t.outcome == RemoteChangedError && Last(t) == s
        else if s.local == plan.snapshot then Completed(s, plan, r, answer.revision, t)
        else t.outcome == LocalChanged && StoppedAt(s, plan, op, r, RemoteCommitted, t)
      case _ => t.outcome == RemoteChangedError && Last(t) == s.(remote := r)
  {
    if WriteLands(s, plan, answer) && answer.reply.Some? && answer.reply.value.Committed? {
      var x := Prepare(s, plan, op).(remote := Some(Pair(plan.candidate, answer.revision)));
      var marked := RemoteMarked(x.journal.value, answer.revision);
      MarkedOnAnyState(Mark(x, marked), plan, marked, answer.revision);
    }
  }

  /** An upload whose answer is uncertain ends as recovery ends on the state it left. */
  lemma UncertainOnAnyState(s: Store, plan: Plan, op: nat, key: nat, answer: Answer)
    requires s.journal.None? && plan.action != AlreadyCommitted && (plan.action == Create || plan.expected.Some?)
    requires answer.reply == Some(WriteResultUncertain) && OpenDocument(plan.candidate, key).Some?
    ensures
      var t := CommitTrace(s, plan, op, key, answer);
      var r := if WriteLands(s, plan, answer) then Some(Pair(plan.candidate, answer.revision)) else s.remote;
      && Last(t).remote == r
      && (t.outcome == Recovered <==>
            HoldsCandidate(r, plan) && s.local.content in {plan.candidate, plan.snapshot.content})
      && (t.outcome == Recovered ==> Last(t) == Store(r, s.local.(content := plan.candidate), r, None))
      && (t.outcome == RemoteChangedError <==>
            !HoldsCandidate(r, plan) && RevisionAt(r) == plan.expected && s.local.content == plan.snapshot.content)
      && (t.outcome == RemoteChangedError ==> Last(t) == s.(remote := r))
  {
    var x := Prepare(s, plan, op).(remote := if WriteLands(s, plan, answer) then Some(Pair(plan.candidate, answer.revision)) else s.remote);
    RecoveryOnAnyState(x, key, x.journal.value);
  }
}

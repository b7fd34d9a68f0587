/** The engine's recovery and the protocol's recovery steps are the same computation: left alone, the
    protocol's call ends where the engine's trace ends, in the same state and for the same reason. */
module EngineRefinement {
  import opened Vault
  import opened SyncProtocol
  import opened CommitRecovery
  import opened CrashLaws

  /** What the engine sees of the remote and one device. */
  function View(remote: seq<Generation>, device: Device): (s: Store)
    requires Started(device)
  {
    Store(Current(remote), Snapshot(device.session, Local(device)), Base(device), device.journal)
  }

  datatype Point = Point(device: Device, pc: Option<Pc>)

  /** One step of an undisturbed recovery. `None`: it has returned, left recovery, or failed. */
  function Next(remote: seq<Generation>, key: nat, p: Point): (r: Option<Point>)
    requires Started(p.device)
    ensures r.Some? ==> Started(r.value.device)
  {
    if p.pc.None? then None
    else
      var e := if p.pc.value.Forget? then ForgetJournal(p.device, p.pc.value.op, None) else RecoveryStep(remote, p.device, key, p.pc.value);
      if e.None? then None else Some(Point(e.value.device, e.value.next))
  }

  function Settle(remote: seq<Generation>, key: nat, p: Point, fuel: nat): (r: Point)
    requires Started(p.device)
    ensures Started(r.device)
    decreases fuel
  {
    if fuel == 0 || Next(remote, key, p).None? then p else Settle(remote, key, Next(remote, key, p).value, fuel - 1)
  }

  predicate Settled(remote: seq<Generation>, key: nat, p: Point)
    requires Started(p.device)
  {
    Next(remote, key, p).None?
  }

  /** Where an undisturbed recovery must stop, told by the engine's trace. */
  predicate Agrees(remote: seq<Generation>, key: nat, p: Point, t: Trace)
    requires Started(p.device)
  {
    && t.states != [] && View(remote, p.device) == Last(t) && Settled(remote, key, p)
    && (t.outcome == Recovered <==> p.pc.None?)
    && (t.outcome == NothingToRecover <==> p.pc.Some? && p.pc.value.LoadBase?)
  }

  lemma OneStep(remote: seq<Generation>, key: nat, p: Point, q: Point, fuel: nat)
    requires Started(p.device) && Next(remote, key, p) == Some(q) && fuel > 0
    ensures Settle(remote, key, p, fuel) == Settle(remote, key, q, fuel - 1)
  {
  }

  /** The last three steps: check LOCAL, store BASE, forget the journal. */
  lemma FinishAgrees(remote: seq<Generation>, key: nat, device: Device, j: Journal, seen: Pair, fuel: nat)
    requires Started(device) && device.journal == Some(j) && Current(remote) == Some(seen)
    requires seen.content == j.candidate && fuel >= 3
    ensures Agrees(remote, key, Settle(remote, key, Point(device, Some(RecoverCheck(j, seen))), fuel),
                   RecoverBaseTrace(View(remote, device), j))
  {
    var p := Point(device, Some(RecoverCheck(j, seen)));
    if Local(device) == j.candidate {
      var q := Point(device, Some(RecoverBase(j, seen)));
      var based := StoreBase(device, Pair(j.candidate, seen.revision));
      var r := Point(based, Some(Forget(j.op)));
      OneStep(remote, key, p, q, fuel);
      OneStep(remote, key, q, r, fuel - 1);
      OneStep(remote, key, r, Point(based.(journal := None), None), fuel - 2);
    }
  }

  lemma MarkLocalAgrees(remote: seq<Generation>, key: nat, device: Device, j: Journal, seen: Pair, fuel: nat)
    requires Started(device) && device.journal == Some(j) && Current(remote) == Some(seen)
    requires seen.content == j.candidate && fuel >= 4
    ensures var marked := LocalMarked(j);
            Agrees(remote, key, Settle(remote, key, Point(device, Some(RecoverMarkLocal(j, seen))), fuel),
                   RecoverBaseTrace(Mark(View(remote, device), marked), marked))
  {
    var marked := LocalMarked(j);
    var after := device.(journal := Some(marked));
    OneStep(remote, key, Point(device, Some(RecoverMarkLocal(j, seen))), Point(after, Some(RecoverCheck(marked, seen))),
            fuel);
    FinishAgrees(remote, key, after, marked, seen, fuel - 1);
  }

  lemma AgreesLater(remote: seq<Generation>, key: nat, p: Point, s: Store, rest: Trace)
    requires Started(p.device) && Agrees(remote, key, p, rest)
    ensures Agrees(remote, key, p, CommitRecovery.Then(s, rest))
  {
  }

  lemma LocalAgrees(remote: seq<Generation>, key: nat, device: Device, j: Journal, seen: Pair, fuel: nat)
    requires Started(device) && device.journal == Some(j) && Current(remote) == Some(seen)
    requires seen.content == j.candidate && fuel >= 5
    ensures Agrees(remote, key,
      Settle(remote, key, Point(device, Some(RecoverLocal(View(remote, device).local, j, seen))), fuel),
      RecoverLocalTrace(View(remote, device), j))
  {
    var s := View(remote, device);
    var p := Point(device, Some(RecoverLocal(s.local, j, seen)));
    var marked := LocalMarked(j);
    if Local(device) == j.candidate {
      OneStep(remote, key, p, Point(device, Some(RecoverMarkLocal(j, seen))), fuel);
      MarkLocalAgrees(remote, key, device, j, seen, fuel - 1);
      AgreesLater(remote, key, Settle(remote, key, p, fuel), s, RecoverBaseTrace(Mark(s, marked), marked));
    } else if Digest(Local(device)) == j.expectedLocal {
      var after := device.(held := device.held + [j.candidate]);
      var replaced := CommitRecovery.ReplaceLocal(s, j.candidate);
      assert View(remote, after) == replaced;
      OneStep(remote, key, p, Point(after, Some(RecoverMarkLocal(j, seen))), fuel);
      MarkLocalAgrees(remote, key, after, j, seen, fuel - 1);
      var rest := RecoverBaseTrace(Mark(replaced, marked), marked);
      AgreesLater(remote, key, Settle(remote, key, p, fuel), replaced, rest);
      AgreesLater(remote, key, Settle(remote, key, p, fuel), s, CommitRecovery.Then(replaced, rest));
    }
  }

  /** On any device and remote, undisturbed: same final state, and the call returns recovered, goes on
      to sync, or fails exactly as the engine's trace says. */
  lemma RecoveryRefines(remote: seq<Generation>, device: Device, key: nat, fuel: nat)
    requires Started(device) && fuel >= 8
    ensures Agrees(remote, key,
      Settle(remote, key, Point(device, Some(LoadJournal(View(remote, device).local, FromSync))), fuel),
      RecoverTrace(View(remote, device), key))
  {
    var s := View(remote, device);
    var p := Point(device, Some(LoadJournal(s.local, FromSync)));
    if device.journal.None? {
      OneStep(remote, key, p, Point(device, Some(LoadBase(s.local))), fuel);
    } else if OpenDocument(device.journal.value.candidate, key).Some? {
      var j := device.journal.value;
      var q := Point(device, Some(RecoverRead(s.local, j, FromSync)));
      OneStep(remote, key, p, q, fuel);
      JudgeAgrees(remote, device, key, j, fuel - 1);
    }
  }

  lemma MarkRemoteStep(remote: seq<Generation>, key: nat, device: Device, j: Journal, seen: Pair, fuel: nat)
    requires Started(device) && device.journal == Some(j) && Current(remote) == Some(seen)
    requires seen.content == j.candidate && fuel >= 6
    ensures var local, marked := View(remote, device).local, RemoteMarked(j, seen.revision);
            Settle(remote, key, Point(device, Some(RecoverMarkRemote(local, j, seen))), fuel)
            == Settle(remote, key, Point(device.(journal := Some(marked)), Some(RecoverLocal(local, marked, seen))), fuel - 1)
  {
    var local, marked := View(remote, device).local, RemoteMarked(j, seen.revision);
    OneStep(remote, key, Point(device, Some(RecoverMarkRemote(local, j, seen))),
            Point(device.(journal := Some(marked)), Some(RecoverLocal(local, marked, seen))), fuel);
  }

  lemma MarkedLocalAgrees(remote: seq<Generation>, key: nat, device: Device, marked: Journal, seen: Pair, fuel: nat)
    requires Started(device) && Current(remote) == Some(seen) && seen.content == marked.candidate && fuel >= 5
    ensures var s := View(remote, device);
            var p := Point(device.(journal := Some(marked)), Some(RecoverLocal(s.local, marked, seen)));
            Agrees(remote, key, Settle(remote, key, p, fuel),
                   RecoverLocalTrace(Mark(s, marked), marked))
  {
    LocalAgrees(remote, key, device.(journal := Some(marked)), marked, seen, fuel);
  }

  lemma MarkRemoteAgrees(remote: seq<Generation>, key: nat, device: Device, j: Journal, seen: Pair, fuel: nat)
    requires Started(device) && device.journal == Some(j) && Current(remote) == Some(seen)
    requires seen.content == j.candidate && fuel >= 6
    ensures var s, marked := View(remote, device), RemoteMarked(j, seen.revision);
            Agrees(remote, key, Settle(remote, key, Point(device, Some(RecoverMarkRemote(s.local, j, seen))), fuel),
                   CommitRecovery.Then(s, RecoverLocalTrace(Mark(s, marked), marked)))
  {
    var s := View(remote, device);
    var r := Point(device, Some(RecoverMarkRemote(s.local, j, seen)));
    var marked := RemoteMarked(j, seen.revision);
    MarkRemoteStep(remote, key, device, j, seen, fuel);
    MarkedLocalAgrees(remote, key, device, marked, seen, fuel - 1);
    AgreesLater(remote, key, Settle(remote, key, r, fuel), s, RecoverLocalTrace(Mark(s, marked), marked));
  }

  lemma JudgeAgrees(remote: seq<Generation>, device: Device, key: nat, j: Journal, fuel: nat)
    requires Started(device) && device.journal == Some(j) && OpenDocument(j.candidate, key).Some? && fuel >= 7
    ensures Agrees(remote, key,
      Settle(remote, key, Point(device, Some(RecoverRead(View(remote, device).local, j, FromSync))), fuel),
      RecoverTrace(View(remote, device), key))
  {
    var s := View(remote, device);
    var q := Point(device, Some(RecoverRead(s.local, j, FromSync)));
    var next := JudgeRemote(s.local, j, FromSync, Current(remote));
    if next.Some? {
      var r := Point(device, next);
      OneStep(remote, key, q, r, fuel);
      if next.value.RecoverMarkRemote? {
        MarkRemoteAgrees(remote, key, device, j, next.value.seen, fuel - 1);
      } else if next.value.RecoverDrop? {
        OneStep(remote, key, r, Point(device.(journal := None), Some(LoadBase(s.local))), fuel - 1);
      } else if next.value.RecoverLocal? {
        LocalAgrees(remote, key, device, j, next.value.seen, fuel - 1);
      } else {
        FinishAgrees(remote, key, device, j, next.value.seen, fuel - 1);
      }
    }
  }

  // ---------------------------------------------------------------- the commit

  /** One step of an undisturbed commit that is past the provider's answer. */
  function CommitNext(key: nat, p: Point, c: Choice): (r: Option<Point>)
    requires Started(p.device)
    ensures r.Some? ==> Started(r.value.device)
  {
    if p.pc.None? then None
    else
      var e := CommitStep(p.device, key, p.pc.value, c);
      if e.None? then None else Some(Point(e.value.device, e.value.next))
  }

  function CommitSettle(key: nat, p: Point, c: Choice, fuel: nat): (r: Point)
    requires Started(p.device)
    ensures Started(r.device)
    decreases fuel
  {
    if fuel == 0 || CommitNext(key, p, c).None? then p else CommitSettle(key, CommitNext(key, p, c).value, c, fuel - 1)
  }

  lemma OneCommitStep(key: nat, p: Point, q: Point, c: Choice, fuel: nat)
    requires Started(p.device) && CommitNext(key, p, c) == Some(q) && fuel > 0
    ensures CommitSettle(key, p, c, fuel) == CommitSettle(key, q, c, fuel - 1)
  {
  }

  predicate CommitAgrees(remote: seq<Generation>, key: nat, p: Point, c: Choice, t: Trace)
    requires Started(p.device)
  {
    && t.states != [] && View(remote, p.device) == Last(t) && CommitNext(key, p, c).None?
    && (t.outcome == Done <==> p.pc.None?)
  }

  lemma CommitAgreesLater(remote: seq<Generation>, key: nat, p: Point, c: Choice, s: Store, rest: Trace)
    requires Started(p.device) && CommitAgrees(remote, key, p, c, rest)
    ensures CommitAgrees(remote, key, p, c, CommitRecovery.Then(s, rest))
  {
  }

  lemma CommittedAgrees(remote: seq<Generation>, key: nat, device: Device, plan: Plan, j: Journal, rev: nat, c: Choice,
                        fuel: nat)
    requires Started(device) && device.journal == Some(j) && fuel >= 3
    ensures CommitAgrees(remote, key, CommitSettle(key, Point(device, Some(MarkLocal(plan, j, rev))), c, fuel), c,
                         CommittedTrace(Mark(View(remote, device), LocalMarked(j)), plan, rev))
  {
    var marked := LocalMarked(j);
    var after := device.(journal := Some(marked));
    var based := StoreBase(after, Pair(plan.candidate, rev));
    OneCommitStep(key, Point(device, Some(MarkLocal(plan, j, rev))), Point(after, Some(WriteBase(plan, marked, rev))),
                  c, fuel);
    OneCommitStep(key, Point(after, Some(WriteBase(plan, marked, rev))), Point(based, Some(Forget(j.op))), c, fuel - 1);
    OneCommitStep(key, Point(based, Some(Forget(j.op))), Point(based.(journal := None), None), c, fuel - 2);
  }

  /** From the confirmed write on, whatever LOCAL has become: the protocol's commit and the engine's
      trace end in the same state, and complete or fail together. */
  lemma CommitRefines(remote: seq<Generation>, key: nat, device: Device, plan: Plan, j: Journal, rev: nat, c: Choice,
                      fuel: nat)
    requires Started(device) && device.journal == Some(j) && fuel >= 5
    ensures var s, marked := View(remote, device), RemoteMarked(j, rev);
            CommitAgrees(remote, key, CommitSettle(key, Point(device, Some(MarkRemote(plan, j, rev))), c, fuel), c,
                         CommitRecovery.Then(s, MarkedTrace(Mark(s, marked), plan, marked)))
  {
    var s, marked := View(remote, device), RemoteMarked(j, rev);
    var after := device.(journal := Some(marked));
    var p := Point(device, Some(MarkRemote(plan, j, rev)));
    OneCommitStep(key, p, Point(after, Some(SyncProtocol.ReplaceLocal(plan, marked, rev))), c, fuel);
    LocalCommitAgrees(remote, key, after, plan, marked, rev, c, fuel - 1);
    CommitAgreesLater(remote, key, CommitSettle(key, p, c, fuel), c, s, MarkedTrace(Mark(s, marked), plan, marked));
  }

  lemma LocalCommitAgrees(remote: seq<Generation>, key: nat, device: Device, plan: Plan, j: Journal, rev: nat,
                          c: Choice, fuel: nat)
    requires Started(device) && device.journal == Some(j) && j.committed == Some(rev) && fuel >= 4
    ensures CommitAgrees(remote, key, CommitSettle(key, Point(device, Some(SyncProtocol.ReplaceLocal(plan, j, rev))), c, fuel), c,
                         MarkedTrace(View(remote, device), plan, j))
  {
    var s := View(remote, device);
    var p := Point(device, Some(SyncProtocol.ReplaceLocal(plan, j, rev)));
    if s.local == plan.snapshot {
      if plan.candidate == plan.snapshot.content {
        OneCommitStep(key, p, Point(device, Some(MarkLocal(plan, j, rev))), c, fuel);
        CommittedAgrees(remote, key, device, plan, j, rev, c, fuel - 1);
        CommitAgreesLater(remote, key, CommitSettle(key, p, c, fuel), c, s,
                          CommittedTrace(Mark(s, LocalMarked(j)), plan, rev));
      } else {
        var after := device.(held := device.held + [plan.candidate]);
        var replaced := CommitRecovery.ReplaceLocal(s, plan.candidate);
        assert View(remote, after) == replaced;
        OneCommitStep(key, p, Point(after, Some(MarkLocal(plan, j, rev))), c, fuel);
        CommittedAgrees(remote, key, after, plan, j, rev, c, fuel - 1);
        var rest := CommittedTrace(Mark(replaced, LocalMarked(j)), plan, rev);
        CommitAgreesLater(remote, key, CommitSettle(key, p, c, fuel), c, replaced, rest);
        CommitAgreesLater(remote, key, CommitSettle(key, p, c, fuel), c, s, CommitRecovery.Then(replaced, rest));
      }
    }
  }
}

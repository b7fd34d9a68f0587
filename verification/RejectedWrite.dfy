/** What a provider's rejection proves about the write it rejects: nothing. A commit that hears that the
    remote changed may have been committed, exactly when its request had been delivered. */
module RejectedWrite {
  import opened Vault
  import opened VaultSync
  import opened SyncProtocol
  import opened SyncInvariant
  import opened SyncLaws

  // ---------------------------------------------------------------- exactly when it was committed

  /** The remote has held the candidate, written by this very decision. */
  predicate WasCommitted(remote: seq<Generation>, plan: Plan)
  {
    exists k :: 0 <= k < |remote| && remote[k].content == plan.candidate && remote[k].origin == plan.origin
  }

  predicate DeliveredBefore(acts: seq<Action>, i: nat, q: Request)
  {
    exists n :: 0 <= n < i && n < |acts| && acts[n].Deliver? && acts[n].request == q
  }

  lemma {:induction false} RemoteGrows(ws: seq<World>, acts: seq<Action>, i: nat, k: nat)
    requires Run(ws, acts) && i <= k < |ws|
    ensures ws[i].remote <= ws[k].remote
  {
    if i < k {
      RemoteGrows(ws, acts, i, k - 1);
      assert Next(ws[k - 1], acts[k - 1], ws[k]);
      RemoteChangesByDelivery(ws[k - 1], acts[k - 1]);
    }
  }

  /** Every generation was put there by a delivery. */
  lemma {:induction false} GenerationDelivered(ws: seq<World>, acts: seq<Action>, i: nat, k: nat) returns (n: nat)
    requires Run(ws, acts) && i < |ws| && k < |ws[i].remote|
    ensures n < i && acts[n].Deliver? && acts[n].request in ws[n].sent
    ensures ws[i].remote[k].content == acts[n].request.candidate && ws[i].remote[k].origin == acts[n].request.origin
  {
    assert i > 0;
    assert Next(ws[i - 1], acts[i - 1], ws[i]);
    RemoteChangesByDelivery(ws[i - 1], acts[i - 1]);
    if k < |ws[i - 1].remote| {
      n := GenerationDelivered(ws, acts, i - 1, k);
    } else {
      n := i - 1;
    }
  }

  /** Wherever a commit waits for its answer, and so whatever it is about to hear, a rejection included:
      the candidate has been the remote's content by this decision if and only if the request had been
      delivered. The answer adds nothing to that. */
  lemma CommittedIffDelivered(ws: seq<World>, acts: seq<Action>, i: nat, t: nat)
    requires Run(ws, acts) && i < |ws| && t in ws[i].tasks && ws[i].tasks[t].pc.Await?
    ensures WasCommitted(ws[i].remote, ws[i].tasks[t].pc.plan) <==>
              DeliveredBefore(acts, i, PlanRequest(ws[i].tasks[t].pc.plan))
  {
    var plan := ws[i].tasks[t].pc.plan;
    if WasCommitted(ws[i].remote, plan) {
      var k :| 0 <= k < |ws[i].remote| && ws[i].remote[k].content == plan.candidate && ws[i].remote[k].origin == plan.origin;
      var n := GenerationDelivered(ws, acts, i, k);
      SameRequest(ws, acts, i, t, n);
    }
    if DeliveredBefore(acts, i, PlanRequest(plan)) {
      var n :| 0 <= n < i && n < |acts| && acts[n].Deliver? && acts[n].request == PlanRequest(plan);
      assert Next(ws[n], acts[n], ws[n + 1]);
      RemoteChangesByDelivery(ws[n], acts[n]);
      RemoteGrows(ws, acts, n + 1, i);
      var k := |ws[n].remote|;
      assert ws[n + 1].remote[k] == ws[i].remote[k];
    }
  }

  /** A request is determined by its candidate and its origin. */
  lemma SameRequest(ws: seq<World>, acts: seq<Action>, i: nat, t: nat, n: nat)
    requires Run(ws, acts) && n < i < |ws| && t in ws[i].tasks && ws[i].tasks[t].pc.Await?
    requires acts[n].Deliver? && acts[n].request in ws[n].sent
    requires acts[n].request.candidate == ws[i].tasks[t].pc.plan.candidate
    requires acts[n].request.origin == ws[i].tasks[t].pc.plan.origin
    ensures acts[n].request == PlanRequest(ws[i].tasks[t].pc.plan)
  {
    AlwaysInv(ws, acts, n);
    AlwaysInv(ws, acts, i);
    assert RequestOk(ws[n].rules, ws[n].remote, acts[n].request);
    assert TaskOk(ws[i], t);
  }

  // ---------------------------------------------------------------- a run in which it was

  ghost predicate Ongoing(ws: seq<World>, acts: seq<Action>)
  {
    Run(ws, acts) && WellFormed(ws[|acts|])
  }

  ghost predicate Continues(ws: seq<World>, acts: seq<Action>, ws2: seq<World>, acts2: seq<Action>)
  {
    Ongoing(ws2, acts2) && ws <= ws2 && acts <= acts2
  }

  lemma Extend(ws: seq<World>, acts: seq<Action>, a: Action) returns (ws2: seq<World>, acts2: seq<Action>)
    requires Ongoing(ws, acts) && Enabled(ws[|acts|], a)
    ensures Continues(ws, acts, ws2, acts2) && acts2 == acts + [a] && ws2[|acts2|] == Do(ws[|acts|], a)
  {
    ws2, acts2 := ws + [Do(ws[|acts|], a)], acts + [a];
    forall i | 0 <= i < |acts2| ensures Next(ws2[i], acts2[i], ws2[i + 1]) {
      if i < |acts| { assert Next(ws[i], acts[i], ws[i + 1]); }
    }
    AlwaysInv(ws2, acts2, |acts2|);
  }

  /** One step of call `t` on device `d`, written as what it makes of the device and the position. */
  lemma Advance(ws: seq<World>, acts: seq<Action>, t: nat, p: Procedure, c: Choice, e: Effect)
    returns (ws2: seq<World>, acts2: seq<Action>)
    requires Ongoing(ws, acts) && t in ws[|acts|].tasks
    requires StepOf(ws[|acts|], t, p, c) == Some(e)
    requires ChoiceAllowed(ws[|acts|], ws[|acts|].tasks[t].key, ws[|acts|].tasks[t].pc, c)
    ensures Continues(ws, acts, ws2, acts2) && acts2 == acts + [Step(t, p, c)]
    ensures ws2[|acts2|] == Perform(ws[|acts|], t, e)
  {
    ws2, acts2 := Extend(ws, acts, Step(t, p, c));
  }

  const NO_CHOICE: Choice := Choice(Equivalent, 0, RemoteChanged, 0)

  /** A fresh device without journal and BASE whose LOCAL opens. */
  predicate FreshDevice(w: World, d: nat, key: nat)
  {
    && d in w.devices && Started(w.devices[d]) && w.devices[d].journal.None? && Base(w.devices[d]).None?
    && w.devices[d].pending.None? && OpenDocument(Local(w.devices[d]), key).Some?
  }

  function Snap(device: Device): (s: Snapshot)
    requires Started(device)
  {
    Snapshot(device.session, Local(device))
  }

  /** A sync up to the decision about the remote it reads. */
  lemma Reads(ws: seq<World>, acts: seq<Action>, t: nat, d: nat, key: nat) returns (ws2: seq<World>, acts2: seq<Action>)
    requires Ongoing(ws, acts) && t !in ws[|acts|].tasks && FreshDevice(ws[|acts|], d, key)
    ensures Continues(ws, acts, ws2, acts2)
    ensures var w := ws[|acts|];
            ws2[|acts2|] == w.(tasks := w.tasks[t := Task(d, key, ReadRemote(Snap(w.devices[d]), None))])
  {
    var w := ws[|acts|];
    var device := w.devices[d];
    var snap := Snap(device);
    ws2, acts2 := Extend(ws, acts, StartSync(t, d, key));
    assert ws2[|acts2|] == w.(tasks := w.tasks[t := Task(d, key, Capture)]) by {
      assert w.devices[d := device.(pending := None)] == w.devices;
    }
    ws2, acts2 := MoveOn(ws2, acts2, w, d, t, key, Capture, Syncing, LoadJournal(snap, FromSync));
    ws2, acts2 := MoveOn(ws2, acts2, w, d, t, key, LoadJournal(snap, FromSync), Recovering, LoadBase(snap));
    ws2, acts2 := MoveOn(ws2, acts2, w, d, t, key, LoadBase(snap), Syncing, ReadRemote(snap, None));
  }

  /** `w` with call `t` of device `d` standing at `pc`. */
  function Standing(w: World, d: nat, t: nat, key: nat, pc: Pc): (r: World)
  {
    w.(tasks := w.tasks[t := Task(d, key, pc)])
  }

  /** A step that only moves its call on. */
  lemma MoveOn(ws: seq<World>, acts: seq<Action>, w: World, d: nat, t: nat, key: nat, from: Pc, p: Procedure, to: Pc)
    returns (ws2: seq<World>, acts2: seq<Action>)
    requires Ongoing(ws, acts) && d in w.devices && ws[|acts|] == Standing(w, d, t, key, from)
    requires Started(w.devices[d])
    requires CallStep(p, w.rules, w.remote, w.devices[d], key, from, NO_CHOICE) == Some(Goto(w.devices[d], to))
    requires !from.ReadRemote? && !from.Await? && !from.Install?
    ensures Continues(ws, acts, ws2, acts2) && ws2[|acts2|] == Standing(w, d, t, key, to)
  {
    StandsOn(w, d, t, key, from, to);
    ws2, acts2 := Advance(ws, acts, t, p, NO_CHOICE, Goto(w.devices[d], to));
  }

  lemma StandsOn(w: World, d: nat, t: nat, key: nat, from: Pc, to: Pc)
    requires d in w.devices
    ensures Perform(Standing(w, d, t, key, from), t, Goto(w.devices[d], to)) == Standing(w, d, t, key, to)
  {
    assert w.devices[d := w.devices[d]] == w.devices;
    assert w.tasks[t := Task(d, key, from)][t := Task(d, key, to)] == w.tasks[t := Task(d, key, to)];
  }

  function Journaled(plan: Plan, op: nat): (j: Journal)
  {
    Journal(op, Prepared, Digest(plan.snapshot.content), plan.expected, plan.candidate, None, plan.origin)
  }

  /** A prepared commit up to its write being under way. */
  lemma Sends(ws: seq<World>, acts: seq<Action>, t: nat, d: nat, key: nat, plan: Plan)
    returns (ws2: seq<World>, acts2: seq<Action>)
    requires Ongoing(ws, acts) && t in ws[|acts|].tasks && ws[|acts|].tasks[t] == Task(d, key, Prepare(plan))
    requires ws[|acts|].devices[d].journal.None? && OpenDocument(plan.candidate, key).Some?
    requires plan.action != AlreadyCommitted
    ensures Continues(ws, acts, ws2, acts2)
    ensures var w, j := ws[|acts|], Journaled(plan, 0);
            ws2[|acts2|] == w.(devices := w.devices[d := w.devices[d].(journal := Some(j))],
                               tasks := w.tasks[t := Task(d, key, Await(plan, j))], sent := w.sent + {PlanRequest(plan)})
  {
    var w, j := ws[|acts|], Journaled(plan, 0);
    var device := w.devices[d].(journal := Some(j));
    ws2, acts2 := Advance(ws, acts, t, Committing, NO_CHOICE, Goto(device, Send(plan, j)));
    ws2, acts2 := Advance(ws2, acts2, t, Committing, NO_CHOICE,
                          Effect(device, Some(Await(plan, j)), {PlanRequest(plan)}, {}, {}));
    assert w.devices[d := device][d := device] == w.devices[d := device];
    assert w.tasks[t := Task(d, key, Send(plan, j))][t := Task(d, key, Await(plan, j))] == w.tasks[t := Task(d, key, Await(plan, j))];
  }

  /** A first sync against a remote that holds another vault installs a conflict. */
  lemma Conflicts(ws: seq<World>, acts: seq<Action>, t: nat, d: nat, key: nat, token: nat)
    returns (ws2: seq<World>, acts2: seq<Action>)
    requires Ongoing(ws, acts) && FreshDevice(ws[|acts|], d, key) && t in ws[|acts|].tasks
    requires ws[|acts|].tasks[t] == Task(d, key, ReadRemote(Snap(ws[|acts|].devices[d]), None))
    requires token !in ws[|acts|].minted
    requires Current(ws[|acts|].remote).Some? && OpenDocument(Current(ws[|acts|].remote).value.content, key).Some?
    requires !ws[|acts|].rules.same(Local(ws[|acts|].devices[d]).document, Current(ws[|acts|].remote).value.content.document)
    ensures Continues(ws, acts, ws2, acts2)
    ensures var w := ws[|acts|];
            var p := Pending(token, Snap(w.devices[d]), Current(w.remote).value, None);
            ws2[|acts2|] == w.(devices := w.devices[d := w.devices[d].(pending := Some(p), latestToken := Some(token))],
                               tasks := w.tasks - {t}, minted := w.minted + {token})
  {
    var w := ws[|acts|];
    var device, r := w.devices[d], Current(w.remote).value;
    var snap := Snap(device);
    var choice := NO_CHOICE.(freshId := token);
    ws2, acts2 := Advance(ws, acts, t, Syncing, choice, Goto(device, Install(snap, r, None)));
    var installed := device.(pending := Some(Pending(token, snap, r, None)), latestToken := Some(token));
    ws2, acts2 := Advance(ws2, acts2, t, Syncing, choice, Effect(installed, None, {}, {token}, {}));
    assert w.devices[d := device][d := installed] == w.devices[d := installed];
    assert w.tasks[t := Task(d, key, Install(snap, r, None))] - {t} == w.tasks - {t};
  }

  function ChoiceOf(w: World, p: Pending, device: Device): (plan: Plan)
    requires Started(device) && w.remote != []
  {
    ChoicePlan(p, Evidence(p, Now(w.remote, device), Stamp(|device.bases| - 1, |device.held| - 1, |w.remote| - 1)), true)
  }

  lemma RecheckSteps(rules: Rules, remote: seq<Generation>, device: Device, key: nat, p: Pending, taken: Stamp)
    requires Started(device) && p.local == Snap(device) && Current(remote) == Some(p.remote) && p.base.None?
    requires Base(device).None?
    ensures var b, l := |device.bases| - 1, |device.held| - 1;
            && CallStep(Resolving, rules, remote, device, key, ResolveBase(p, taken, true), NO_CHOICE)
               == Some(Goto(device, ResolveLocal(p, taken, b, true)))
            && CallStep(Resolving, rules, remote, device, key, ResolveLocal(p, taken, b, true), NO_CHOICE)
               == Some(Goto(device, ResolveRead(p, taken, b, l, true)))
            && CallStep(Resolving, rules, remote, device, key, ResolveRead(p, taken, b, l, true), NO_CHOICE)
               == Some(Goto(device, Prepare(ChoicePlan(p, Evidence(p, taken, Stamp(b, l, |remote| - 1)), true))))
  {
  }

  lemma TakeSteps(rules: Rules, remote: seq<Generation>, device: Device, key: nat, p: Pending)
    requires Started(device) && device.pending == Some(p) && OpenDocument(Local(device), key).Some?
    ensures CallStep(Resolving, rules, remote, device, key, ResolveCapture(p.token, true), NO_CHOICE)
            == Some(Goto(device, ResolveTake(p.token, true)))
    ensures CallStep(Resolving, rules, remote, device, key, ResolveTake(p.token, true), NO_CHOICE)
            == Some(Effect(device.(pending := None), Some(ResolveBase(p, Now(remote, device), true)), {}, {}, {p.token}))
  {
  }

  /** The user keeps LOCAL while nothing has changed since the conflict was captured. */
  lemma KeepsLocal(ws: seq<World>, acts: seq<Action>, t: nat, d: nat, key: nat, p: Pending)
    returns (ws2: seq<World>, acts2: seq<Action>)
    requires Ongoing(ws, acts) && t !in ws[|acts|].tasks && d in ws[|acts|].devices
    requires var w := ws[|acts|];
             && w.devices[d].pending == Some(p) && p.local == Snap(w.devices[d]) && Current(w.remote) == Some(p.remote)
             && p.base.None? && Base(w.devices[d]).None? && OpenDocument(Local(w.devices[d]), key).Some?
    ensures Continues(ws, acts, ws2, acts2)
    ensures var w := ws[|acts|];
            var device := w.devices[d].(pending := None);
            ws2[|acts2|] == w.(devices := w.devices[d := device], spent := w.spent + {p.token},
                               tasks := w.tasks[t := Task(d, key, Prepare(ChoiceOf(w, p, device)))])
  {
    var w := ws[|acts|];
    var device := w.devices[d].(pending := None);
    var base := w.(devices := w.devices[d := device], spent := w.spent + {p.token});
    var taken := Now(w.remote, device);
    var b, l := |device.bases| - 1, |device.held| - 1;
    ws2, acts2 := Takes(ws, acts, t, d, key, p);
    RecheckSteps(base.rules, base.remote, device, key, p, taken);
    ws2, acts2 := MoveOn(ws2, acts2, base, d, t, key, ResolveBase(p, taken, true), Resolving,
                         ResolveLocal(p, taken, b, true));
    ws2, acts2 := MoveOn(ws2, acts2, base, d, t, key, ResolveLocal(p, taken, b, true), Resolving,
                         ResolveRead(p, taken, b, l, true));
    ws2, acts2 := MoveOn(ws2, acts2, base, d, t, key, ResolveRead(p, taken, b, l, true), Resolving,
                         Prepare(ChoiceOf(w, p, device)));
  }

  lemma Takes(ws: seq<World>, acts: seq<Action>, t: nat, d: nat, key: nat, p: Pending)
    returns (ws2: seq<World>, acts2: seq<Action>)
    requires Ongoing(ws, acts) && t !in ws[|acts|].tasks && d in ws[|acts|].devices
    requires ws[|acts|].devices[d].pending == Some(p) && OpenDocument(Local(ws[|acts|].devices[d]), key).Some?
    ensures Continues(ws, acts, ws2, acts2)
    ensures var w := ws[|acts|];
            var device := w.devices[d].(pending := None);
            ws2[|acts2|] == w.(devices := w.devices[d := device], spent := w.spent + {p.token},
                               tasks := w.tasks[t := Task(d, key, ResolveBase(p, Now(w.remote, device), true))])
  {
    var w := ws[|acts|];
    var device := w.devices[d];
    var next := ResolveBase(p, Now(w.remote, device), true);
    TakeSteps(w.rules, w.remote, device, key, p);
    ws2, acts2 := Extend(ws, acts, StartResolve(t, d, key, p.token, true));
    ws2, acts2 := MoveOn(ws2, acts2, w, d, t, key, ResolveCapture(p.token, true), Resolving,
                         ResolveTake(p.token, true));
    assert w.tasks[t := Task(d, key, ResolveTake(p.token, true))][t := Task(d, key, next)] == w.tasks[t := Task(d, key, next)];
    ws2, acts2 := Advance(ws2, acts2, t, Resolving, NO_CHOICE,
                          Effect(device.(pending := None), Some(next), {}, {}, {p.token}));
  }

  /** Everything but device `d` and call `t` is as it was. */
  ghost predicate ElseSame(w: World, w2: World, d: nat, t: nat)
  {
    && w2.rules == w.rules && d in w2.devices && t in w2.tasks
    && (forall o :: o in w.devices && o != d ==> o in w2.devices && w2.devices[o] == w.devices[o])
    && (forall o :: o in w.tasks && o != t ==> o in w2.tasks && w2.tasks[o] == w.tasks[o])
  }

  ghost predicate OtherVault(w: World, d: nat, key: nat)
  {
    && FreshDevice(w, d, key) && Current(w.remote).Some? && OpenDocument(Current(w.remote).value.content, key).Some?
    && !w.rules.same(Local(w.devices[d]).document, Current(w.remote).value.content.document)
  }

  lemma Chooses(ws: seq<World>, acts: seq<Action>, t: nat, d: nat, key: nat)
    returns (ws2: seq<World>, acts2: seq<Action>, plan: Plan)
    requires Ongoing(ws, acts) && OtherVault(ws[|acts|], d, key) && t !in ws[|acts|].tasks && 0 !in ws[|acts|].minted
    ensures Continues(ws, acts, ws2, acts2)
    ensures var w, w2 := ws[|acts|], ws2[|acts2|];
            && ElseSame(w, w2, d, t) && w2.remote == w.remote && w2.tasks[t] == Task(d, key, Prepare(plan))
            && w2.devices[d].journal.None?
            && plan.candidate == Local(w.devices[d]) && plan.action == Replace
            && plan.expected == Some(Current(w.remote).value.revision)
  {
    var w := ws[|acts|];
    ws2, acts2 := Reads(ws, acts, t, d, key);
    ws2, acts2 := Conflicts(ws2, acts2, t, d, key, 0);
    var p := Pending(0, Snap(w.devices[d]), Current(w.remote).value, None);
    var choosing := ws2[|acts2|];
    ws2, acts2 := KeepsLocal(ws2, acts2, t, d, key, p);
    plan := ChoiceOf(choosing, p, choosing.devices[d].(pending := None));
  }

  /** Another device puts a generation on top: conflict, choice and delivery. */
  lemma Overwrites(ws: seq<World>, acts: seq<Action>, t: nat, d: nat, key: nat, revision: nat)
    returns (ws2: seq<World>, acts2: seq<Action>)
    requires Ongoing(ws, acts) && OtherVault(ws[|acts|], d, key) && t !in ws[|acts|].tasks && 0 !in ws[|acts|].minted
    requires forall i :: 0 <= i < |ws[|acts|].remote| ==> ws[|acts|].remote[i].revision != revision
    ensures Continues(ws, acts, ws2, acts2)
    ensures ElseSame(ws[|acts|], ws2[|acts2|], d, t) && ws[|acts|].remote < ws2[|acts2|].remote
  {
    var plan;
    ws2, acts2, plan := Chooses(ws, acts, t, d, key);
    ws2, acts2 := Sends(ws2, acts2, t, d, key, plan);
    ws2, acts2 := Extend(ws2, acts2, Deliver(PlanRequest(plan), revision));
  }

  /** The world in which two devices hold vaults that do not mean the same. */
  predicate TwoVaults(w: World, key: nat)
  {
    && Init(w) && w.devices.Keys == {0, 1} && FreshDevice(w, 0, key) && FreshDevice(w, 1, key)
    && !w.rules.same(Local(w.devices[1]).document, Local(w.devices[0]).document)
  }

  /** A run in which a commit is told that the remote changed although its write was committed: the
      write landed, another device overwrote it, the rejection is heard, the journal is forgotten, and
      LOCAL has moved on, so that nothing on the device records the commit any more. */
  lemma RejectedAfterCommit(w: World, key: nat, saved: Ciphertext)
    returns (ws: seq<World>, acts: seq<Action>, heard: nat)
    requires TwoVaults(w, key) && saved != Local(w.devices[0])
    ensures Run(ws, acts) && ws[0] == w && heard < |acts| && acts[heard].Step? && acts[heard].t in ws[heard].tasks
    ensures ws[heard].tasks[acts[heard].t].pc.Await? && acts[heard].choice.reply == RemoteChanged
    ensures var plan, end := ws[heard].tasks[acts[heard].t].pc.plan, ws[|acts|];
            && WasCommitted(end.remote, plan) && 0 in end.devices && end.devices[0].journal.None?
            && end.devices[0].held == w.devices[0].held + [saved] && saved != plan.candidate
  {
    var plan;
    ws, acts, plan := CommittedUnheard(w, key);
    ws, acts := Overwrites(ws, acts, 1, 1, key, 1);
    ws, acts := Extend(ws, acts, Save(0, saved));
    heard := |acts|;
    var last := ws[|acts|];
    assert last.remote[0].content == plan.candidate && last.remote[0].origin == plan.origin;
    ws, acts := HearsRejection(ws, acts, plan, key);
  }

  /** The rejection is heard and the journal forgotten. */
  lemma HearsRejection(ws: seq<World>, acts: seq<Action>, plan: Plan, key: nat)
    returns (ws2: seq<World>, acts2: seq<Action>)
    requires Ongoing(ws, acts) && 0 in ws[|acts|].tasks && 0 in ws[|acts|].devices && Started(ws[|acts|].devices[0])
    requires ws[|acts|].tasks[0] == Task(0, key, Await(plan, Journaled(plan, 0)))
    requires ws[|acts|].devices[0].journal == Some(Journaled(plan, 0))
    ensures Continues(ws, acts, ws2, acts2) && |acts2| > |acts| && acts2[|acts|] == Step(0, Committing, NO_CHOICE)
    ensures var w, end := ws[|acts|], ws2[|acts2|];
            end.remote == w.remote && 0 in end.devices && end.devices[0] == w.devices[0].(journal := None)
  {
    var device := ws[|acts|].devices[0];
    ws2, acts2 := Advance(ws, acts, 0, Committing, NO_CHOICE, Goto(device, Forget(0)));
    ws2, acts2 := Advance(ws2, acts2, 0, Committing, NO_CHOICE, Return(device.(journal := None)));
  }

  /** Device 0 creates the object; its write has landed and the answer is still to come. */
  lemma CommittedUnheard(w: World, key: nat) returns (ws: seq<World>, acts: seq<Action>, plan: Plan)
    requires TwoVaults(w, key)
    ensures Ongoing(ws, acts) && ws[0] == w
    ensures var now := ws[|acts|];
            && now.rules == w.rules && now.remote == [Generation(plan.candidate, 0, plan.origin)]
            && plan.candidate == Local(w.devices[0])
            && now.tasks == map[0 := Task(0, key, Await(plan, Journaled(plan, 0)))] && now.minted == {}
            && now.devices == w.devices[0 := w.devices[0].(journal := Some(Journaled(plan, 0)))]
  {
    ws, acts := [w], [];
    var snap := Snap(w.devices[0]);
    plan := Plan(snap, None, Create, snap.content, Origin(Created, None, snap.content, None, None));
    ws, acts := Reads(ws, acts, 0, 0, key);
    ws, acts := Advance(ws, acts, 0, Syncing, NO_CHOICE, Goto(w.devices[0], Prepare(plan)));
    ws, acts := Sends(ws, acts, 0, 0, key, plan);
    ws, acts := Extend(ws, acts, Deliver(PlanRequest(plan), 0));
  }
}

/** What the user's choice between two whole vaults does, in every run: from the call that carries it,
    through anything that happens in between, to its end. */
module ChoiceLaws {
  import opened Vault
  import opened SyncProtocol
  import opened SyncInvariant
  import opened SyncLaws
  import opened DeviceLaws

  /** What a choice about the conflict `p` plans: keeping LOCAL replaces the captured remote generation
      by the captured LOCAL bytes; keeping REMOTE takes the captured remote bytes as they are. */
  ghost predicate PlanFor(plan: Plan, p: Pending, keepLocal: bool)
  {
    && plan.origin.evidence.Some? && plan.origin.evidence.value.pending == p
    && plan.snapshot == p.local && plan.expected == Some(p.remote.revision)
    && if keepLocal
       then plan.action == Replace && plan.candidate == p.local.content && plan.origin.kind == ChosenLocal
       else plan.action == AlreadyCommitted && plan.candidate == p.remote.content && plan.origin.kind == ChosenRemote
  }

  /** BASE has been the captured remote generation, and LOCAL its bytes. */
  predicate Applied(device: Device, p: Pending)
  {
    Some(p.remote) in device.bases && p.remote.content in device.held
  }

  /** Where a call stands that resolves `token` by `keepLocal`; `taken` is the conflict once it is taken. */
  ghost predicate Choosing(pc: Pc, device: Device, token: nat, keepLocal: bool, taken: Option<Pending>)
  {
    && (taken.Some? ==> taken.value.token == token)
    && match pc
       case ResolveCapture(k, keep) => taken.None? && k == token && keep == keepLocal
       case ResolveTake(k, keep) => taken.None? && k == token && keep == keepLocal
       case ResolveBase(p, _, keep) => taken == Some(p) && keep == keepLocal
       case ResolveLocal(p, _, _, keep) => taken == Some(p) && keep == keepLocal
       case ResolveRead(p, _, _, _, keep) => taken == Some(p) && keep == keepLocal
       case Prepare(plan) => taken.Some? && PlanFor(plan, taken.value, keepLocal)
       case Send(plan, j) => taken.Some? && PlanFor(plan, taken.value, keepLocal) && j.candidate == plan.candidate
       case Await(plan, j) => keepLocal && taken.Some? && PlanFor(plan, taken.value, keepLocal) && j.candidate == plan.candidate
       case MarkRemote(plan, _, rev) => taken.Some? && Confirmed(plan, rev, taken.value, keepLocal)
       case ReplaceLocal(plan, _, rev) => taken.Some? && Confirmed(plan, rev, taken.value, keepLocal)
       case MarkLocal(plan, _, rev) => taken.Some? && Confirmed(plan, rev, taken.value, keepLocal)
       case WriteBase(plan, _, rev) => taken.Some? && Confirmed(plan, rev, taken.value, keepLocal)
       case Forget(_) => taken.Some? && (!keepLocal ==> Applied(device, taken.value))
       case _ => keepLocal && taken.Some? && AfterUncertain(pc)
  }

  ghost predicate Confirmed(plan: Plan, rev: nat, p: Pending, keepLocal: bool)
  {
    PlanFor(plan, p, keepLocal) && (!keepLocal ==> rev == p.remote.revision)
  }

  /** Only an upload can meet an uncertain answer, and then looks for what became of it. */
  predicate AfterUncertain(pc: Pc)
  {
    || (pc.LoadJournal? && pc.caller == FromCommit) || (pc.RecoverRead? && pc.caller == FromCommit)
    || (pc.RecoverDrop? && pc.caller == FromCommit)
    || pc.RecoverMarkRemote? || pc.RecoverLocal? || pc.RecoverMarkLocal? || pc.RecoverCheck? || pc.RecoverBase?
  }

  // ---------------------------------------------------------------- one step

  /** What a step of the call makes of the conflict it has taken. */
  ghost function TakenAfter(device: Device, pc: Pc, taken: Option<Pending>): (r: Option<Pending>)
  {
    if pc.ResolveTake? then device.pending else taken
  }

  lemma ResolveKeepsChoice(remote: seq<Generation>, device: Device, key: nat, pc: Pc, token: nat, keepLocal: bool,
                           taken: Option<Pending>)
    requires Started(device) && Choosing(pc, device, token, keepLocal, taken)
    requires ResolveStep(remote, device, key, pc).Some?
    ensures var e := ResolveStep(remote, device, key, pc).value;
            && e.next.Some? && e.send == {} && e.device.held == device.held && e.device.bases == device.bases
            && Choosing(e.next.value, e.device, token, keepLocal, TakenAfter(device, pc, taken))
  {
  }

  lemma CommitKeepsChoice(log: Log, device: Device, key: nat, pc: Pc, c: Choice, token: nat, keepLocal: bool,
                          taken: Option<Pending>)
    requires Started(device) && Choosing(pc, device, token, keepLocal, taken) && log.held == device.held
    requires PcOk(log, pc)
    requires CommitStep(device, key, pc, c).Some?
    ensures var e := CommitStep(device, key, pc, c).value;
            && (e.next.Some? ==> Choosing(e.next.value, e.device, token, keepLocal, taken))
            && (e.next.None? ==> pc.Forget? && e.device == device.(journal := None))
            && (!keepLocal ==> e.send == {})
            && (pc.Send? && keepLocal ==> taken.Some? && e.send == {PlanRequest(pc.plan)})
            && (pc.ReplaceLocal? ==> taken.Some? && Local(e.device) == pc.plan.candidate)
  {
  }

  lemma RecoveryKeepsChoice(remote: seq<Generation>, device: Device, key: nat, pc: Pc, token: nat, keepLocal: bool,
                            taken: Option<Pending>)
    requires Started(device) && Choosing(pc, device, token, keepLocal, taken)
    requires RecoveryStep(remote, device, key, pc).Some?
    ensures var e := RecoveryStep(remote, device, key, pc).value;
            keepLocal && (e.next.Some? ==> Choosing(e.next.value, e.device, token, keepLocal, taken))
  {
  }

  lemma SyncHasNoStep(rules: Rules, remote: seq<Generation>, device: Device, key: nat, pc: Pc, c: Choice, token: nat,
                      keepLocal: bool, taken: Option<Pending>)
    requires Started(device) && Choosing(pc, device, token, keepLocal, taken)
    ensures SyncStep(rules, remote, device, key, pc, c).None?
  {
  }

  /** One step of the call itself. */
  lemma OwnStepKeepsChoice(w: World, t: nat, p: Procedure, c: Choice, token: nat, keepLocal: bool,
                           taken: Option<Pending>)
    requires Inv(w) && t in w.tasks && Enabled(w, Step(t, p, c))
    requires Choosing(w.tasks[t].pc, w.devices[w.tasks[t].device], token, keepLocal, taken)
    ensures var d, e := w.tasks[t].device, StepOf(w, t, p, c).value;
            && (e.next.Some? ==>
                  Choosing(e.next.value, e.device, token, keepLocal, TakenAfter(w.devices[d], w.tasks[t].pc, taken)))
            && (!keepLocal ==> e.send == {})
            && (!keepLocal && e.next.None? ==> w.tasks[t].pc.Forget? && e.device == w.devices[d].(journal := None))
  {
    var d, pc := w.tasks[t].device, w.tasks[t].pc;
    assert TaskOk(w, t);
    match p
    case Resolving => ResolveKeepsChoice(w.remote, w.devices[d], w.tasks[t].key, pc, token, keepLocal, taken);
    case Committing => CommitKeepsChoice(LogOf(w, d), w.devices[d], w.tasks[t].key, pc, c, token, keepLocal, taken);
    case Recovering => RecoveryKeepsChoice(w.remote, w.devices[d], w.tasks[t].key, pc, token, keepLocal, taken);
    case Syncing => SyncHasNoStep(w.rules, w.remote, w.devices[d], w.tasks[t].key, pc, c, token, keepLocal, taken);
  }

  lemma ChoosingSurvives(pc: Pc, a: Device, b: Device, token: nat, keepLocal: bool, taken: Option<Pending>)
    requires Choosing(pc, a, token, keepLocal, taken) && a.held <= b.held && a.bases <= b.bases
    ensures Choosing(pc, b, token, keepLocal, taken)
  {
  }

  // ---------------------------------------------------------------- runs

  /** Call `t` carries the choice from action `s` on, up to world `i`. */
  ghost predicate Carries(ws: seq<World>, acts: seq<Action>, s: nat, i: nat, t: nat, d: nat, token: nat,
                          keepLocal: bool)
  {
    && Run(ws, acts) && s < i < |ws| && acts[s].StartResolve? && acts[s].t == t && acts[s].d == d
    && acts[s].token == token && acts[s].keepLocal == keepLocal
    && forall m :: s < m <= i ==> t in ws[m].tasks
  }

  /** The conflict that call `t` took between `s` and `i`, if any. */
  ghost predicate TookBy(ws: seq<World>, acts: seq<Action>, s: nat, i: nat, t: nat, d: nat, token: nat,
                         taken: Option<Pending>)
    requires i <= |acts| && i <= |ws|
  {
    taken.Some? ==> exists k :: s < k < i && Takes(ws[k], acts[k], d, token) && acts[k].t == t
                                && d in ws[k].devices && ws[k].devices[d].pending == taken
  }

  /** In every run and at every point of the call: it still carries the choice it was started with,
      about the very conflict it took. */
  lemma {:induction false} ChoiceCarried(ws: seq<World>, acts: seq<Action>, s: nat, i: nat, t: nat, d: nat, token: nat,
                                         keepLocal: bool) returns (taken: Option<Pending>)
    requires Carries(ws, acts, s, i, t, d, token, keepLocal)
    ensures ws[i].tasks[t].device == d && d in ws[i].devices
    ensures Choosing(ws[i].tasks[t].pc, ws[i].devices[d], token, keepLocal, taken)
    ensures TookBy(ws, acts, s, i, t, d, token, taken)
    decreases i
  {
    if i == s + 1 {
      taken := None;
      assert Next(ws[s], acts[s], ws[i]);
      ChoiceStarts(ws[s], acts[s]);
    } else {
      var before := ChoiceCarried(ws, acts, s, i - 1, t, d, token, keepLocal);
      taken := ChoiceStep(ws, acts, s, i - 1, t, d, token, keepLocal, before);
    }
  }

  lemma ChoiceStarts(w: World, a: Action)
    requires WellFormed(w) && Enabled(w, a) && a.StartResolve?
    ensures a.t in Do(w, a).tasks && Do(w, a).tasks[a.t].device == a.d && a.d in Do(w, a).devices
    ensures Choosing(Do(w, a).tasks[a.t].pc, Do(w, a).devices[a.d], a.token, a.keepLocal, None)
  {
  }

  lemma ChoiceStep(ws: seq<World>, acts: seq<Action>, s: nat, i: nat, t: nat, d: nat, token: nat, keepLocal: bool,
                   before: Option<Pending>) returns (taken: Option<Pending>)
    requires Carries(ws, acts, s, i + 1, t, d, token, keepLocal) && s < i
    requires ws[i].tasks[t].device == d && d in ws[i].devices
    requires Choosing(ws[i].tasks[t].pc, ws[i].devices[d], token, keepLocal, before)
    requires TookBy(ws, acts, s, i, t, d, token, before)
    ensures ws[i + 1].tasks[t].device == d && d in ws[i + 1].devices
    ensures Choosing(ws[i + 1].tasks[t].pc, ws[i + 1].devices[d], token, keepLocal, taken)
    ensures TookBy(ws, acts, s, i + 1, t, d, token, taken)
  {
    var w, a := ws[i], acts[i];
    assert Next(w, a, ws[i + 1]);
    AlwaysInv(ws, acts, i);
    if a.Step? && a.t == t {
      OwnStepKeepsChoice(w, t, a.procedure, a.choice, token, keepLocal, before);
      taken := TakenAfter(w.devices[d], w.tasks[t].pc, before);
      if w.tasks[t].pc.ResolveTake? {
        TakenHere(w, a, token, keepLocal, before);
      }
    } else {
      taken := before;
      OthersGrow(w, a, t, d);
      ChoosingSurvives(w.tasks[t].pc, w.devices[d], ws[i + 1].devices[d], token, keepLocal, taken);
    }
  }

  lemma TakenHere(w: World, a: Action, token: nat, keepLocal: bool, before: Option<Pending>)
    requires WellFormed(w) && Enabled(w, a) && a.Step? && w.tasks[a.t].pc.ResolveTake?
    requires Choosing(w.tasks[a.t].pc, w.devices[w.tasks[a.t].device], token, keepLocal, before)
    ensures Takes(w, a, w.tasks[a.t].device, token)
  {
  }

  lemma OthersGrow(w: World, a: Action, t: nat, d: nat)
    requires WellFormed(w) && Enabled(w, a) && t in w.tasks && t in Do(w, a).tasks && w.tasks[t].device == d
    requires !(a.Step? && a.t == t)
    ensures Do(w, a).tasks[t] == w.tasks[t] && d in Do(w, a).devices
    ensures w.devices[d].held <= Do(w, a).devices[d].held && w.devices[d].bases <= Do(w, a).devices[d].bases
  {
    if a.Step? {
      StepGrows(a.procedure, w.rules, w.remote, w.devices[w.tasks[a.t].device], w.tasks[a.t].key, w.tasks[a.t].pc,
                a.choice);
    }
  }

  lemma StepGrows(p: Procedure, rules: Rules, remote: seq<Generation>, device: Device, key: nat, pc: Pc, c: Choice)
    requires Started(device) && CallStep(p, rules, remote, device, key, pc, c).Some?
    ensures device.held <= CallStep(p, rules, remote, device, key, pc, c).value.device.held
    ensures device.bases <= CallStep(p, rules, remote, device, key, pc, c).value.device.bases
  {
  }

  // ---------------------------------------------------------------- what the choice does

  /** The plan of a resolve is the one that the choice asks for, about the conflict that was taken. */
  lemma ChoiceDecidesPlan(ws: seq<World>, acts: seq<Action>, s: nat, i: nat, t: nat, d: nat, token: nat,
                          keepLocal: bool)
    returns (p: Pending)
    requires Carries(ws, acts, s, i, t, d, token, keepLocal) && ws[i].tasks[t].pc.Prepare?
    ensures PlanFor(ws[i].tasks[t].pc.plan, p, keepLocal) && p.token == token
    ensures TookBy(ws, acts, s, i, t, d, token, Some(p))
  {
    var taken := ChoiceCarried(ws, acts, s, i, t, d, token, keepLocal);
    p := taken.value;
  }

  /** Keeping REMOTE never asks for a write: no step of the call sends a request, and no request that
      was ever sent carries such a choice. */
  lemma KeepRemoteNeverWrites(ws: seq<World>, acts: seq<Action>, s: nat, i: nat, t: nat, d: nat, token: nat)
    requires Carries(ws, acts, s, i, t, d, token, false) && i < |acts|
    ensures acts[i].Step? && acts[i].t == t ==> ws[i + 1].sent == ws[i].sent && ws[i + 1].remote == ws[i].remote
    ensures forall q :: q in ws[i].sent ==> q.origin.kind != ChosenRemote
  {
    var taken := ChoiceCarried(ws, acts, s, i, t, d, token, false);
    AlwaysInv(ws, acts, i);
    assert Next(ws[i], acts[i], ws[i + 1]);
    if acts[i].Step? && acts[i].t == t {
      OwnStepKeepsChoice(ws[i], t, acts[i].procedure, acts[i].choice, token, false, taken);
    }
    forall q | q in ws[i].sent ensures q.origin.kind != ChosenRemote {
      assert RequestOk(ws[i].rules, ws[i].remote, q);
    }
  }

  /** When keeping REMOTE returns, LOCAL has been the captured remote bytes and BASE the captured
      remote generation, and nothing is left in the journal. */
  lemma KeepRemoteApplies(ws: seq<World>, acts: seq<Action>, s: nat, i: nat, t: nat, d: nat, token: nat)
    returns (p: Pending)
    requires Carries(ws, acts, s, i, t, d, token, false) && i < |acts|
    requires acts[i].Step? && acts[i].t == t && t !in ws[i + 1].tasks
    ensures p.token == token && TookBy(ws, acts, s, i, t, d, token, Some(p))
    ensures d in ws[i + 1].devices && Applied(ws[i + 1].devices[d], p) && ws[i + 1].devices[d].journal.None?
  {
    var taken := ChoiceCarried(ws, acts, s, i, t, d, token, false);
    AlwaysInv(ws, acts, i);
    assert Next(ws[i], acts[i], ws[i + 1]);
    OwnStepKeepsChoice(ws[i], t, acts[i].procedure, acts[i].choice, token, false, taken);
    p := taken.value;
  }

  lemma OnlyCommitsStep(p: Procedure, rules: Rules, remote: seq<Generation>, device: Device, key: nat, pc: Pc,
                        c: Choice)
    requires Started(device) && (pc.Send? || pc.ReplaceLocal?) && CallStep(p, rules, remote, device, key, pc, c).Some?
    ensures p == Committing
  {
  }

  lemma SettlingStep(w: World, a: Action, token: nat, keepLocal: bool, taken: Option<Pending>)
    requires WellFormed(w) && Enabled(w, a) && a.Step? && TaskOk(w, a.t) && w.tasks[a.t].pc.ReplaceLocal?
    requires Choosing(w.tasks[a.t].pc, w.devices[w.tasks[a.t].device], token, keepLocal, taken)
    ensures var d := w.tasks[a.t].device;
            && d in Do(w, a).devices && Do(w, a).devices[d].held != []
            && Local(Do(w, a).devices[d]) == w.tasks[a.t].pc.plan.candidate
  {
    var d, pc := w.tasks[a.t].device, w.tasks[a.t].pc;
    OnlyCommitsStep(a.procedure, w.rules, w.remote, w.devices[d], w.tasks[a.t].key, pc, a.choice);
    CommitKeepsChoice(LogOf(w, d), w.devices[d], w.tasks[a.t].key, pc, a.choice, token, keepLocal, taken);
  }

  lemma SendingStep(w: World, a: Action, token: nat, keepLocal: bool, taken: Option<Pending>)
    requires WellFormed(w) && Enabled(w, a) && a.Step? && TaskOk(w, a.t) && w.tasks[a.t].pc.Send? && keepLocal
    requires Choosing(w.tasks[a.t].pc, w.devices[w.tasks[a.t].device], token, keepLocal, taken)
    ensures Do(w, a).sent == w.sent + {PlanRequest(w.tasks[a.t].pc.plan)}
  {
    var d, pc := w.tasks[a.t].device, w.tasks[a.t].pc;
    OnlyCommitsStep(a.procedure, w.rules, w.remote, w.devices[d], w.tasks[a.t].key, pc, a.choice);
    CommitKeepsChoice(LogOf(w, d), w.devices[d], w.tasks[a.t].key, pc, a.choice, token, keepLocal, taken);
  }

  /** The step of a choice that settles LOCAL leaves LOCAL with exactly the chosen bytes. */
  lemma ChoiceSettlesLocal(ws: seq<World>, acts: seq<Action>, s: nat, i: nat, t: nat, d: nat, token: nat,
                           keepLocal: bool)
    returns (p: Pending)
    requires Carries(ws, acts, s, i, t, d, token, keepLocal) && i < |acts|
    requires acts[i].Step? && acts[i].t == t && ws[i].tasks[t].pc.ReplaceLocal?
    ensures p.token == token && TookBy(ws, acts, s, i, t, d, token, Some(p))
    ensures d in ws[i + 1].devices && ws[i + 1].devices[d].held != []
    ensures Local(ws[i + 1].devices[d]) == if keepLocal then p.local.content else p.remote.content
  {
    var taken := ChoiceCarried(ws, acts, s, i, t, d, token, keepLocal);
    p := taken.value;
    AlwaysInv(ws, acts, i);
    assert Next(ws[i], acts[i], ws[i + 1]);
    assert TaskOk(ws[i], t);
    SettlingStep(ws[i], acts[i], token, keepLocal, taken);
  }

  /** Keeping LOCAL asks for one write: the captured LOCAL bytes over the captured remote revision. */
  lemma KeepLocalWrites(ws: seq<World>, acts: seq<Action>, s: nat, i: nat, t: nat, d: nat, token: nat)
    returns (p: Pending)
    requires Carries(ws, acts, s, i, t, d, token, true) && i < |acts|
    requires acts[i].Step? && acts[i].t == t && ws[i].tasks[t].pc.Send?
    ensures p.token == token && TookBy(ws, acts, s, i, t, d, token, Some(p))
    ensures ws[i + 1].sent == ws[i].sent + {Request(Some(p.remote.revision), p.local.content, ws[i].tasks[t].pc.plan.origin)}
  {
    var taken := ChoiceCarried(ws, acts, s, i, t, d, token, true);
    p := taken.value;
    AlwaysInv(ws, acts, i);
    assert Next(ws[i], acts[i], ws[i + 1]);
    assert TaskOk(ws[i], t);
    SendingStep(ws[i], acts[i], token, true, taken);
  }
}

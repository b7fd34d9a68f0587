/** The gateway's object store: requests interleave at every await, one mutex per vault id is reached
    through a table of weak references, and objects are read, compared and replaced under it. */
module Gateway {
  import opened Vault

  const MAX_REMOTE_CIPHERTEXT_BYTES: nat := 64 * 1024 * 1024

  /** Bytes of some length. */
  datatype Content = Content(tag: nat, size: nat)

  /** A revision is a strong digest of exact bytes. */
  datatype ETag = ETag(of: Content)

  datatype Item = Regular(content: Content) | NotRegular

  type Objects = map<nat, Item>

  datatype StorageError = PreconditionFailed | UnsafeFile | TooLarge | Io

  datatype Condition = Create | Replace(expected: ETag)

  datatype Operation = Read | Write(condition: Condition, content: Content)

  datatype Response = Object(content: Option<Content>) | Stored(revision: ETag) | Refused(error: StorageError)

  // ---------------------------------------------------------------- one operation on its own

  function ReadObject(files: Objects, v: nat): (r: Response)
  {
    if v !in files then Object(None)
    else if files[v].NotRegular? then Refused(UnsafeFile)
    else if files[v].content.size > MAX_REMOTE_CIPHERTEXT_BYTES then Refused(TooLarge)
    else Object(Some(files[v].content))
  }

  /** Why a write may not go ahead. */
  function Refusal(files: Objects, v: nat, condition: Condition): (r: Option<StorageError>)
  {
    var current := ReadObject(files, v);
    if current.Refused? then Some(current.error)
    else if current.Stored? then None
    else match (condition, current.content)
      case (Create, None) => None
      case (Create, Some(_)) => Some(PreconditionFailed)
      case (Replace(_), None) => Some(PreconditionFailed)
      case (Replace(expected), Some(c)) => if expected == ETag(c) then None else Some(PreconditionFailed)
  }

  /** One effect, in the order the effects happened. A failed rename applies nothing; a failed
      directory sync reports an error after the object was replaced. */
  datatype Event = Event(request: nat, vault: nat, op: Operation, applied: bool, response: Response)

  /** What a store that serves one request at a time could have answered and done. */
  predicate Legal(files: Objects, e: Event)
  {
    match e.op
    case Read => !e.applied && (e.response == Refused(Io) || e.response == ReadObject(files, e.vault))
    case Write(condition, content) =>
      if e.applied then Refusal(files, e.vault, condition).None? && (e.response == Stored(ETag(content)) || e.response == Refused(Io))
      else
        var refusal := Refusal(files, e.vault, condition);
        e.response == Refused(Io) || (refusal.Some? && e.response == Refused(refusal.value))
  }

  function After(files: Objects, e: Event): (r: Objects)
  {
    if e.applied && e.op.Write? then files[e.vault := Regular(e.op.content)] else files
  }

  function Replay(files: Objects, log: seq<Event>): (r: Objects)
  {
    if log == [] then files else After(Replay(files, log[..|log| - 1]), log[|log| - 1])
  }

  predicate LegalLog(files: Objects, log: seq<Event>)
  {
    forall i :: 0 <= i < |log| ==> Legal(Replay(files, log[..i]), log[i])
  }

  lemma LogGrows(files: Objects, log: seq<Event>, e: Event)
    requires LegalLog(files, log) && Legal(Replay(files, log), e)
    ensures LegalLog(files, log + [e]) && Replay(files, log + [e]) == After(Replay(files, log), e)
  {
    var longer := log + [e];
    assert longer[..|longer| - 1] == log;
    forall i | 0 <= i < |longer| ensures Legal(Replay(files, longer[..i]), longer[i]) {
      if i < |log| {
        assert longer[..i] == log[..i];
      }
    }
  }

  // ---------------------------------------------------------------- interleaved requests

  /** `Waiting` holds a strong reference to the mutex; `Holding`, `Checked` and `Finished` also its guard;
      `Leaving` has dropped the guard but not yet the reference. */
  datatype Stage = Waiting | Holding | Checked | Finished | Leaving

  datatype Request = Request(vault: nat, op: Operation, lock: nat, stage: Stage)

  datatype State = State(
    locks: map<nat, nat>, requests: map<nat, Request>, guards: map<nat, nat>, files: Objects, nextLock: nat,
    log: seq<Event>, acquired: seq<(nat, nat)>)

  /** The mutex still has a strong reference. */
  predicate Alive(s: State, lock: nat)
  {
    exists id :: id in s.requests && s.requests[id].lock == lock
  }

  /** `object_lock`: dead weak references are pruned first. */
  function Pruned(s: State): (locks: map<nat, nat>)
  {
    map v | v in s.locks && Alive(s, s.locks[v]) :: s.locks[v]
  }

  datatype Step =
    | Begin(id: nat, vault: nat, op: Operation)
    | Acquire(id: nat)
    | Look(id: nat, fails: bool)
    | Rename(id: nat, renameFails: bool, syncFails: bool)
    | Unlock(id: nat)
    | Leave(id: nat)
    | Abandon(id: nat)

  predicate At(s: State, id: nat, stage: Stage)
  {
    id in s.requests && s.requests[id].stage == stage
  }

  predicate Enabled(s: State, step: Step)
  {
    match step
    case Begin(id, v, op) => id !in s.requests && (op.Write? ==> op.content.size <= MAX_REMOTE_CIPHERTEXT_BYTES)
    case Acquire(id) => At(s, id, Waiting) && s.requests[id].lock !in s.guards
    case Look(id, _) => At(s, id, Holding)
    case Rename(id, _, _) => At(s, id, Checked) && s.requests[id].op.Write?
    case Unlock(id) => At(s, id, Finished)
    case Leave(id) => At(s, id, Leaving)
    case Abandon(id) => At(s, id, Waiting)
  }

  function Advance(s: State, id: nat, stage: Stage): (r: State)
    requires id in s.requests
  {
    s.(requests := s.requests[id := s.requests[id].(stage := stage)])
  }

  function Record(s: State, id: nat, applied: bool, response: Response): (r: State)
    requires id in s.requests
  {
    var request := s.requests[id];
    var e := Event(id, request.vault, request.op, applied, response);
    Advance(s.(files := After(s.files, e), log := s.log + [e]), id, Finished)
  }

  function Do(s: State, step: Step): (r: State)
    requires Enabled(s, step)
  {
    match step
    case Begin(id, v, op) =>
      var locks := Pruned(s);
      if v in locks then s.(locks := locks, requests := s.requests[id := Request(v, op, locks[v], Waiting)])
      else
        s.(locks := locks[v := s.nextLock], requests := s.requests[id := Request(v, op, s.nextLock, Waiting)],
           nextLock := s.nextLock + 1)
    case Acquire(id) =>
      Advance(s.(guards := s.guards[s.requests[id].lock := id], acquired := s.acquired + [(id, s.requests[id].vault)]), id, Holding)
    case Look(id, fails) =>
      var request := s.requests[id];
      if fails then Record(s, id, false, Refused(Io))
      else if request.op.Read? then Record(s, id, false, ReadObject(s.files, request.vault))
      else
        var refusal := Refusal(s.files, request.vault, request.op.condition);
        if refusal.Some? then Record(s, id, false, Refused(refusal.value)) else Advance(s, id, Checked)
    case Rename(id, renameFails, syncFails) =>
      if renameFails then Record(s, id, false, Refused(Io))
      else Record(s, id, true, if syncFails then Refused(Io) else Stored(ETag(s.requests[id].op.content)))
    case Unlock(id) => Advance(s, id, Leaving).(guards := s.guards - {s.requests[id].lock})
    case Leave(id) => s.(requests := s.requests - {id})
    case Abandon(id) => s.(requests := s.requests - {id})
  }

  // ---------------------------------------------------------------- the invariant

  predicate Guarding(stage: Stage)
  {
    stage in {Holding, Checked, Finished}
  }

  predicate Linked(s: State, id: nat)
    requires id in s.requests
  {
    s.requests[id].vault in s.locks && s.locks[s.requests[id].vault] == s.requests[id].lock
  }

  /** Every outstanding request reaches its mutex through the table. */
  predicate TableOk(s: State)
  {
    && (forall id {:trigger Linked(s, id)} :: id in s.requests ==> Linked(s, id))
    && (forall v, w :: v in s.locks && w in s.locks && s.locks[v] == s.locks[w] ==> v == w)
    && forall v :: v in s.locks ==> s.locks[v] < s.nextLock
  }

  predicate Owned(s: State, l: nat)
    requires l in s.guards
  {
    s.guards[l] in s.requests && s.requests[s.guards[l]].lock == l && Guarding(s.requests[s.guards[l]].stage)
  }

  predicate Owns(s: State, id: nat)
    requires id in s.requests
  {
    Guarding(s.requests[id].stage) ==> s.requests[id].lock in s.guards && s.guards[s.requests[id].lock] == id
  }

  predicate GuardsOk(s: State)
  {
    && (forall l {:trigger Owned(s, l)} :: l in s.guards ==> Owned(s, l))
    && forall id {:trigger Owns(s, id)} :: id in s.requests ==> Owns(s, id)
  }

  /** A write that passed its comparison would still pass it. */
  predicate StillPasses(s: State, id: nat)
    requires id in s.requests
  {
    s.requests[id].stage == Checked ==>
      s.requests[id].op.Write? && Refusal(s.files, s.requests[id].vault, s.requests[id].op.condition).None?
  }

  predicate ChecksOk(s: State)
  {
    forall id {:trigger StillPasses(s, id)} :: id in s.requests ==> StillPasses(s, id)
  }

  function AcquiredFor(order: seq<(nat, nat)>, v: nat): (ids: seq<nat>)
  {
    if order == [] then [] else
      var last := order[|order| - 1];
      AcquiredFor(order[..|order| - 1], v) + (if last.1 == v then [last.0] else [])
  }

  function EffectsFor(log: seq<Event>, v: nat): (ids: seq<nat>)
  {
    if log == [] then [] else
      var last := log[|log| - 1];
      EffectsFor(log[..|log| - 1], v) + (if last.vault == v then [last.request] else [])
  }

  /** The request that has the guard of `v` and has not taken effect yet. */
  function Running(s: State, v: nat): (ids: seq<nat>)
  {
    if v in s.locks && s.locks[v] in s.guards && s.guards[s.locks[v]] in s.requests
       && s.requests[s.guards[s.locks[v]]].stage in {Holding, Checked}
    then [s.guards[s.locks[v]]] else []
  }

  predicate InLockOrder(s: State, v: nat)
  {
    AcquiredFor(s.acquired, v) == EffectsFor(s.log, v) + Running(s, v)
  }

  ghost predicate Inv(initial: Objects, s: State)
  {
    && Sound(s)
    && LegalLog(initial, s.log) && s.files == Replay(initial, s.log)
    && forall v {:trigger InLockOrder(s, v)} :: InLockOrder(s, v)
  }

  lemma LastAcquired(order: seq<(nat, nat)>, id: nat, w: nat, v: nat)
    ensures AcquiredFor(order + [(id, w)], v) == AcquiredFor(order, v) + (if w == v then [id] else [])
  {
    assert (order + [(id, w)])[..|order|] == order;
  }

  lemma LastEffect(log: seq<Event>, e: Event, v: nat)
    ensures EffectsFor(log + [e], v) == EffectsFor(log, v) + (if e.vault == v then [e.request] else [])
  {
    assert (log + [e])[..|log|] == log;
  }

  predicate Sound(s: State)
  {
    TableOk(s) && GuardsOk(s) && ChecksOk(s)
  }

  lemma BeginTable(s: State, step: Step)
    requires Sound(s) && Enabled(s, step) && step.Begin?
    ensures TableOk(Do(s, step))
  {
    var t := Do(s, step);
    forall id | id in t.requests ensures Linked(t, id) {
      if id in s.requests {
        assert Linked(s, id);
        assert Alive(s, s.locks[s.requests[id].vault]);
      }
    }
  }

  lemma BeginGuards(s: State, step: Step)
    requires Sound(s) && Enabled(s, step) && step.Begin?
    ensures GuardsOk(Do(s, step)) && ChecksOk(Do(s, step))
  {
    var t := Do(s, step);
    forall l | l in t.guards ensures Owned(t, l) {
      assert Owned(s, l);
    }
    forall id | id in t.requests ensures Owns(t, id) && StillPasses(t, id) {
      if id in s.requests {
        assert Owns(s, id) && StillPasses(s, id);
      }
    }
  }

  lemma GuardBelow(s: State, l: nat)
    requires Sound(s) && l in s.guards
    ensures l < s.nextLock
  {
    assert Owned(s, l);
    assert Linked(s, s.guards[l]);
  }

  lemma BeginRunning(s: State, step: Step, v: nat)
    requires Sound(s) && Enabled(s, step) && step.Begin?
    ensures Running(Do(s, step), v) == Running(s, v)
  {
    if s.nextLock in s.guards {
      GuardBelow(s, s.nextLock);
    }
    if v in s.locks && s.locks[v] in s.guards {
      assert Owned(s, s.locks[v]);
      assert Alive(s, s.locks[v]);
    }
  }

  /** A step of a request that is past the table: it moves on, and takes, keeps or drops the guard. */
  lemma MoveSound(s: State, step: Step)
    requires Sound(s) && Enabled(s, step) && (step.Acquire? || step.Unlock? || step.Leave? || step.Abandon?)
    ensures Sound(Do(s, step))
  {
    var t := Do(s, step);
    forall id | id in t.requests ensures Linked(t, id) && Owns(t, id) && StillPasses(t, id) {
      assert Linked(s, id) && Owns(s, id) && StillPasses(s, id);
      if step.Unlock? {
        assert Owns(s, step.id);
      }
    }
    forall l | l in t.guards ensures Owned(t, l) {
      if l in s.guards { assert Owned(s, l); }
      assert Owns(s, step.id);
    }
  }

  lemma AcquireRunning(s: State, step: Step, v: nat)
    requires Sound(s) && Enabled(s, step) && step.Acquire?
    ensures Running(Do(s, step), v) == Running(s, v) + if v == s.requests[step.id].vault then [step.id] else []
  {
    assert Linked(s, step.id);
    if v in s.locks && s.locks[v] in s.guards {
      assert Owned(s, s.locks[v]);
    }
  }

  lemma LeaveRunning(s: State, step: Step, v: nat)
    requires Sound(s) && Enabled(s, step) && (step.Unlock? || step.Leave? || step.Abandon?)
    ensures Running(Do(s, step), v) == Running(s, v)
  {
    assert Linked(s, step.id) && Owns(s, step.id);
    if v in s.locks && s.locks[v] in s.guards {
      assert Owned(s, s.locks[v]);
    }
  }

  lemma MoveOrder(s: State, step: Step, v: nat)
    requires Sound(s) && Enabled(s, step) && (step.Acquire? || step.Unlock? || step.Leave? || step.Abandon?)
    requires InLockOrder(s, v)
    ensures InLockOrder(Do(s, step), v)
  {
    if step.Acquire? {
      LastAcquired(s.acquired, step.id, s.requests[step.id].vault, v);
      AcquireRunning(s, step, v);
    } else {
      LeaveRunning(s, step, v);
    }
  }

  /** Nobody else is past its comparison on the same vault. */
  lemma Alone(s: State, id: nat, other: nat)
    requires TableOk(s) && GuardsOk(s) && id in s.requests && other in s.requests
    requires s.requests[id].vault == s.requests[other].vault
    requires Guarding(s.requests[id].stage) && Guarding(s.requests[other].stage)
    ensures id == other
  {
    assert Linked(s, id) && Linked(s, other) && Owns(s, id) && Owns(s, other);
  }

  lemma RecordSound(s: State, id: nat, applied: bool, response: Response)
    requires Sound(s) && id in s.requests && s.requests[id].stage in {Holding, Checked}
    ensures Sound(Record(s, id, applied, response))
  {
    var t := Record(s, id, applied, response);
    forall o | o in t.requests ensures Linked(t, o) && Owns(t, o) && StillPasses(t, o) {
      assert Linked(s, o) && Owns(s, o) && StillPasses(s, o);
      if o != id && s.requests[o].stage == Checked && s.requests[o].vault == s.requests[id].vault {
        Alone(s, id, o);
      }
    }
    forall l | l in t.guards ensures Owned(t, l) {
      assert Owned(s, l);
    }
  }

  lemma RecordRunning(s: State, id: nat, applied: bool, response: Response, v: nat)
    requires Sound(s) && id in s.requests && s.requests[id].stage in {Holding, Checked}
    ensures Running(s, v) == (if v == s.requests[id].vault then [id] else []) + Running(Record(s, id, applied, response), v)
  {
    assert Linked(s, id) && Owns(s, id);
    if v in s.locks && s.locks[v] in s.guards {
      assert Owned(s, s.locks[v]);
    }
  }

  lemma RecordOrder(s: State, id: nat, applied: bool, response: Response, v: nat)
    requires Sound(s) && id in s.requests && s.requests[id].stage in {Holding, Checked} && InLockOrder(s, v)
    ensures InLockOrder(Record(s, id, applied, response), v)
  {
    LastEffect(s.log, Event(id, s.requests[id].vault, s.requests[id].op, applied, response), v);
    RecordRunning(s, id, applied, response, v);
  }

  /** Taking effect under the guard: one more legal event, in lock order. */
  lemma RecordKeeps(initial: Objects, s: State, id: nat, applied: bool, response: Response)
    requires Inv(initial, s) && id in s.requests && s.requests[id].stage in {Holding, Checked}
    requires Legal(s.files, Event(id, s.requests[id].vault, s.requests[id].op, applied, response))
    ensures Inv(initial, Record(s, id, applied, response))
  {
    LogGrows(initial, s.log, Event(id, s.requests[id].vault, s.requests[id].op, applied, response));
    RecordSound(s, id, applied, response);
    forall v ensures InLockOrder(Record(s, id, applied, response), v) {
      RecordOrder(s, id, applied, response, v);
    }
  }

  lemma DoKeeps(initial: Objects, s: State, step: Step)
    requires Inv(initial, s) && Enabled(s, step)
    ensures Inv(initial, Do(s, step))
  {
    match step
    case Begin(_, _, _) =>
      BeginTable(s, step);
      BeginGuards(s, step);
      forall v ensures InLockOrder(Do(s, step), v) {
        assert InLockOrder(s, v);
        BeginRunning(s, step, v);
      }
    case Look(id, fails) =>
      var request := s.requests[id];
      if fails {
        RecordKeeps(initial, s, id, false, Refused(Io));
      } else if request.op.Read? {
        RecordKeeps(initial, s, id, false, ReadObject(s.files, request.vault));
      } else {
        var refusal := Refusal(s.files, request.vault, request.op.condition);
        if refusal.Some? {
          RecordKeeps(initial, s, id, false, Refused(refusal.value));
        } else {
          CheckedKeeps(initial, s, id);
        }
      }
    case Rename(id, renameFails, syncFails) =>
      assert StillPasses(s, id);
      if renameFails {
        RecordKeeps(initial, s, id, false, Refused(Io));
      } else {
        RecordKeeps(initial, s, id, true, if syncFails then Refused(Io) else Stored(ETag(s.requests[id].op.content)));
      }
    case _ =>
      MoveSound(s, step);
      forall v ensures InLockOrder(Do(s, step), v) {
        MoveOrder(s, step, v);
      }
  }

  lemma CheckedKeeps(initial: Objects, s: State, id: nat)
    requires Inv(initial, s) && At(s, id, Holding) && s.requests[id].op.Write?
    requires Refusal(s.files, s.requests[id].vault, s.requests[id].op.condition).None?
    ensures Inv(initial, Advance(s, id, Checked))
  {
    var t := Advance(s, id, Checked);
    forall o | o in t.requests ensures Linked(t, o) && Owns(t, o) && StillPasses(t, o) {
      assert Linked(s, o) && Owns(s, o) && StillPasses(s, o);
    }
    forall l | l in t.guards ensures Owned(t, l) {
      assert Owned(s, l);
    }
    forall v ensures InLockOrder(t, v) {
      assert InLockOrder(s, v);
    }
  }

  // ---------------------------------------------------------------- every run

  ghost predicate Init(s: State)
  {
    s.locks == map[] && s.requests == map[] && s.guards == map[] && s.log == [] && s.acquired == []
  }

  ghost predicate Run(ss: seq<State>, steps: seq<Step>)
  {
    && |ss| == |steps| + 1 && Init(ss[0])
    && forall i :: 0 <= i < |steps| ==> Enabled(ss[i], steps[i]) && ss[i + 1] == Do(ss[i], steps[i])
  }

  lemma {:induction false} AlwaysInv(ss: seq<State>, steps: seq<Step>, i: nat)
    requires Run(ss, steps) && i < |ss|
    ensures Inv(ss[0].files, ss[i])
  {
    if i == 0 {
      forall v ensures InLockOrder(ss[0], v) {
      }
    } else {
      AlwaysInv(ss, steps, i - 1);
      DoKeeps(ss[0].files, ss[i - 1], steps[i - 1]);
    }
  }

  /** Linearizability: every answer ever given is the one a store serving one request at a time, in the
      order of the log, would give; the stored objects are that store's; and on each vault the log
      follows the order in which the mutex was granted. */
  lemma Linearizable(ss: seq<State>, steps: seq<Step>, i: nat, v: nat)
    requires Run(ss, steps) && i < |ss|
    ensures LegalLog(ss[0].files, ss[i].log) && ss[i].files == Replay(ss[0].files, ss[i].log)
    ensures AcquiredFor(ss[i].acquired, v) == EffectsFor(ss[i].log, v) + Running(ss[i], v) && |Running(ss[i], v)| <= 1
  {
    AlwaysInv(ss, steps, i);
    assert InLockOrder(ss[i], v);
  }

  /** Pruning never separates two outstanding requests for one vault from their common mutex, and only
      one of them has the guard. */
  lemma OneMutexPerVault(ss: seq<State>, steps: seq<Step>, i: nat, a: nat, b: nat)
    requires Run(ss, steps) && i < |ss| && a in ss[i].requests && b in ss[i].requests
    ensures ss[i].requests[a].lock == ss[i].requests[b].lock <==> ss[i].requests[a].vault == ss[i].requests[b].vault
    ensures (&& ss[i].requests[a].vault == ss[i].requests[b].vault
             && Guarding(ss[i].requests[a].stage) && Guarding(ss[i].requests[b].stage)) ==> a == b
  {
    AlwaysInv(ss, steps, i);
    assert Linked(ss[i], a) && Linked(ss[i], b) && Owns(ss[i], a) && Owns(ss[i], b);
  }

  /** A replacement that is reported stored overwrote exactly the bytes whose revision was presented; a
      creation, nothing. Every refusal left every object as it was. */
  lemma ResponsesAreHonest(ss: seq<State>, steps: seq<Step>, i: nat, k: nat)
    requires Run(ss, steps) && i < |ss| && k < |ss[i].log|
    ensures
      var e, before, after := ss[i].log[k], Replay(ss[0].files, ss[i].log[..k]), Replay(ss[0].files, ss[i].log[..k + 1]);
      && (e.response.Stored? ==>
            && e.op.Write? && e.response.revision == ETag(e.op.content)
            && after == before[e.vault := Regular(e.op.content)]
            && (e.op.condition.Create? ==> e.vault !in before)
            && (e.op.condition.Replace? ==>
                  e.vault in before && before[e.vault].Regular? && e.op.condition.expected == ETag(before[e.vault].content)))
      && (e.response.Refused? && e.response.error != Io ==> after == before)
      && (e.response.Object? ==> after == before && e.response == ReadObject(before, e.vault))
  {
    AlwaysInv(ss, steps, i);
    var log := ss[i].log;
    assert log[..k + 1][..k] == log[..k];
    assert Legal(Replay(ss[0].files, log[..k]), log[k]);
  }

  /** The two steps of `install_upload` in a row: compare, and rename if the comparison passed. */
  function Installed(s: State, id: nat, readFails: bool, renameFails: bool, syncFails: bool): (t: State)
    requires At(s, id, Holding) && s.requests[id].op.Write?
  {
    var looked := Do(s, Look(id, readFails));
    if At(looked, id, Checked) then Do(looked, Rename(id, renameFails, syncFails)) else looked
  }

  lemma InstalledKeeps(initial: Objects, s: State, id: nat, readFails: bool, renameFails: bool, syncFails: bool)
    requires Inv(initial, s) && At(s, id, Holding) && s.requests[id].op.Write?
    ensures Inv(initial, Installed(s, id, readFails, renameFails, syncFails))
  {
    DoKeeps(initial, s, Look(id, readFails));
    var looked := Do(s, Look(id, readFails));
    if At(looked, id, Checked) {
      DoKeeps(initial, looked, Rename(id, renameFails, syncFails));
    }
  }

  /** Together they record one event: applied exactly when the comparison and the rename succeeded. */
  lemma InstalledRecords(s: State, id: nat, readFails: bool, renameFails: bool, syncFails: bool)
    requires At(s, id, Holding) && s.requests[id].op.Write?
    ensures
      var request := s.requests[id];
      var refusal := if readFails then Some(Io) else Refusal(s.files, request.vault, request.op.condition);
      Installed(s, id, readFails, renameFails, syncFails) ==
        if refusal.Some? then Record(s, id, false, Refused(refusal.value))
        else if renameFails then Record(s, id, false, Refused(Io))
        else Record(s, id, true, if syncFails then Refused(Io) else Stored(ETag(request.op.content)))
  {
    var looked := Advance(s, id, Checked);
    assert looked.requests[id := looked.requests[id].(stage := Finished)] == s.requests[id := s.requests[id].(stage := Finished)];
  }

  /** What the answer of an installation tells its caller about the objects before and after it. */
  lemma InstalledHonest(s: State, id: nat, readFails: bool, renameFails: bool, syncFails: bool)
    requires At(s, id, Holding) && s.requests[id].op.Write?
    ensures
      var t, request := Installed(s, id, readFails, renameFails, syncFails), s.requests[id];
      && |t.log| == |s.log| + 1
      && var response := t.log[|s.log|].response;
         && (response.Stored? <==>
               !readFails && !renameFails && !syncFails && Refusal(s.files, request.vault, request.op.condition).None?)
         && (response.Stored? && request.op.condition.Replace? ==>
               && request.vault in s.files && s.files[request.vault].Regular?
               && ETag(s.files[request.vault].content) == request.op.condition.expected)
         && (response.Stored? ==> t.files == s.files[request.vault := Regular(request.op.content)])
         && (response == Refused(PreconditionFailed) ==> t.files == s.files)
  {
    InstalledRecords(s, id, readFails, renameFails, syncFails);
  }

  /** A new request for a vault gets the mutex of every outstanding one. */
  lemma BeginShares(s: State, step: Step, other: nat)
    requires Sound(s) && Enabled(s, step) && step.Begin? && other in s.requests && s.requests[other].vault == step.vault
    ensures Do(s, step).requests[step.id].lock == s.requests[other].lock
  {
    assert Linked(s, other);
    assert Alive(s, s.locks[step.vault]);
  }

  // ---------------------------------------------------------------- the store as it runs

  /** The table after pruning, with the mutex for `vault`: the live one, or a new one. */
  method ShareOrInsert(locks: map<nat, nat>, requests: map<nat, Request>, nextLock: nat, vault: nat, ghost s: State,
                       ghost step: Step)
    returns (table: map<nat, nat>, lock: nat, next: nat)
    requires s.locks == locks && s.requests == requests && s.nextLock == nextLock
    requires Sound(s) && Enabled(s, step) && step.Begin? && step.vault == vault
    ensures Do(s, step) == s.(locks := table, nextLock := next, requests := requests[step.id := Request(vault, step.op, lock, Waiting)])
    ensures forall other :: other in requests && requests[other].vault == vault ==> requests[other].lock == lock
  {
    var live := set r | r in requests :: requests[r].lock;
    table := map v | v in locks && locks[v] in live :: locks[v];
    assert table == Pruned(s);
    if vault in table {
      lock, next := table[vault], nextLock;
    } else {
      lock, next := nextLock, nextLock + 1;
      table := table[vault := lock];
    }
    forall other | other in requests && requests[other].vault == vault ensures requests[other].lock == lock {
      BeginShares(s, step, other);
    }
  }

  /** The object whose digest a replacement may present: a regular file within the size limit. */
  function Presentable(files: Objects, v: nat): (r: Option<Content>)
  {
    if v in files && files[v].Regular? && files[v].content.size <= MAX_REMOTE_CIPHERTEXT_BYTES then Some(files[v].content) else None
  }

  /** The condition holds: a creation finds nothing, a replacement presents the digest of what is there. */
  predicate Holds(files: Objects, v: nat, condition: Condition)
  {
    match condition
    case Create => v !in files
    case Replace(expected) => Presentable(files, v).Some? && ETag(Presentable(files, v).value) == expected
  }

  /** The object, or its absence, could be read and contradicts the condition. */
  predicate Contradicts(files: Objects, v: nat, condition: Condition)
  {
    (v in files ==> Presentable(files, v).Some?) && !Holds(files, v, condition)
  }

  /** What the caller of an installation is told, and when the upload really goes in. */
  predicate AnswersHonestly(files: Objects, request: Request, readFails: bool, renameFails: bool, syncFails: bool,
                            applied: bool, response: Response)
    requires request.op.Write?
  {
    && (applied <==> !readFails && !renameFails && Holds(files, request.vault, request.op.condition))
    && (response.Stored? <==> applied && !syncFails)
    && (response.Stored? ==> response.revision == ETag(request.op.content))
    && (response == Refused(PreconditionFailed) <==>
          !readFails && Contradicts(files, request.vault, request.op.condition))
    && (response == Refused(Io) <==>
          readFails || (Holds(files, request.vault, request.op.condition) && (renameFails || syncFails)))
    && (response == Refused(UnsafeFile) <==> !readFails && request.vault in files && files[request.vault].NotRegular?)
    && !response.Object?
  }

  /** The honest answer is the one the two steps record. */
  lemma HonestAnswerRecords(s: State, id: nat, readFails: bool, renameFails: bool, syncFails: bool, applied: bool,
                            response: Response)
    requires At(s, id, Holding) && s.requests[id].op.Write?
    requires AnswersHonestly(s.files, s.requests[id], readFails, renameFails, syncFails, applied, response)
    ensures Installed(s, id, readFails, renameFails, syncFails) == Record(s, id, applied, response)
  {
    InstalledRecords(s, id, readFails, renameFails, syncFails);
    var request := s.requests[id];
    var refusal := Refusal(s.files, request.vault, request.op.condition);
    assert Holds(s.files, request.vault, request.op.condition) <==> refusal.None?;
    assert Contradicts(s.files, request.vault, request.op.condition) <==> refusal == Some(PreconditionFailed);
    match response
    case Stored(revision) =>
    case Refused(error) =>
      assert error.PreconditionFailed? || error.UnsafeFile? || error.TooLarge? || error.Io?;
  }

  /** `install_upload` on values. */
  method CompareAndRename(files: Objects, request: Request, readFails: bool, renameFails: bool, syncFails: bool)
    returns (applied: bool, response: Response)
    requires request.op.Write?
    ensures AnswersHonestly(files, request, readFails, renameFails, syncFails, applied, response)
  {
    if readFails {
      return false, Refused(Io);
    }
    var current := ReadObject(files, request.vault);
    if current.Refused? {
      return false, current;
    }
    match request.op.condition {
      case Create =>
        if current.content.Some? { return false, Refused(PreconditionFailed); }
      case Replace(expected) =>
        if current.content.None? || expected != ETag(current.content.value) { return false, Refused(PreconditionFailed); }
    }
    if renameFails {
      return false, Refused(Io);
    }
    applied, response := true, if syncFails then Refused(Io) else Stored(ETag(request.op.content));
  }

  /** The process's store. Each method is one uninterrupted stretch of a request between two awaits. */
  class Storage {
    var locks: map<nat, nat>
    var requests: map<nat, Request>
    var guards: map<nat, nat>
    var files: Objects
    var nextLock: nat
    ghost var log: seq<Event>
    ghost var acquired: seq<(nat, nat)>
    ghost const initial: Objects

    constructor (files: Objects)
      ensures Valid() && this.files == initial == files && requests == map[]
    {
      locks, requests, guards, nextLock := map[], map[], map[], 0;
      this.files, this.initial, log, acquired := files, files, [], [];
      new;
      forall v ensures InLockOrder(Now(), v) {
      }
    }

    ghost function Now(): (s: State)
      reads this
    {
      State(locks, requests, guards, files, nextLock, log, acquired)
    }

    ghost predicate Valid()
      reads this
    {
      Inv(initial, Now())
    }

    /** `object_lock`: prune the dead weak references, then share the live mutex or insert a new one. */
    method ObjectLock(id: nat, vault: nat, op: Operation) returns (lock: nat)
      requires Valid() && Enabled(Now(), Begin(id, vault, op))
      modifies this`locks, this`requests, this`nextLock
      ensures Valid() && Now() == Do(old(Now()), Begin(id, vault, op)) && requests[id].lock == lock
      ensures forall other :: other in old(requests) && old(requests)[other].vault == vault ==>
                old(requests)[other].lock == lock
    {
      ghost var before, step := Now(), Begin(id, vault, op);
      DoKeeps(initial, before, step);
      var table, next;
      table, lock, next := ShareOrInsert(locks, requests, nextLock, vault, before, step);
      locks, nextLock := table, next;
      requests := requests[id := Request(vault, op, lock, Waiting)];
    }

    method TryLock(id: nat) returns (granted: bool)
      requires Valid() && At(Now(), id, Waiting)
      modifies this`requests, this`guards, this`acquired
      ensures Valid() && granted == (old(requests)[id].lock !in old(guards))
      ensures Now() == if granted then Do(old(Now()), Acquire(id)) else old(Now())
    {
      granted := requests[id].lock !in guards;
      if granted {
        DoKeeps(initial, Now(), Acquire(id));
        guards := guards[requests[id].lock := id];
        acquired := acquired + [(id, requests[id].vault)];
        requests := requests[id := requests[id].(stage := Holding)];
      }
    }

    ghost method Note(id: nat, applied: bool, response: Response)
      requires id in requests
      modifies this`log
      ensures log == old(log) + [Event(id, requests[id].vault, requests[id].op, applied, response)]
    {
      log := log + [Event(id, requests[id].vault, requests[id].op, applied, response)];
    }

    /** `read_object` under the guard. */
    method ReadGuarded(id: nat, fails: bool) returns (response: Response)
      requires Valid() && At(Now(), id, Holding) && requests[id].op.Read?
      modifies this`requests, this`log
      ensures Valid() && Now() == Do(old(Now()), Look(id, fails))
      ensures log == old(log) + [Event(id, old(requests)[id].vault, Read, false, response)]
    {
      DoKeeps(initial, Now(), Look(id, fails));
      response := if fails then Refused(Io) else ReadObject(files, requests[id].vault);
      Note(id, false, response);
      requests := requests[id := requests[id].(stage := Finished)];
    }

    /** `install_upload` under the guard: compare, then rename the prepared upload over the object. */
    method InstallUpload(id: nat, readFails: bool, renameFails: bool, syncFails: bool) returns (response: Response)
      requires Valid() && At(Now(), id, Holding) && requests[id].op.Write?
      modifies this`requests, this`log, this`files
      ensures Valid() && Now() == Installed(old(Now()), id, readFails, renameFails, syncFails)
      ensures log != [] && log[|log| - 1].request == id && log[|log| - 1].response == response
    {
      ghost var before := Now();
      InstalledKeeps(initial, before, id, readFails, renameFails, syncFails);
      var request := requests[id];
      var applied;
      applied, response := CompareAndRename(files, request, readFails, renameFails, syncFails);
      HonestAnswerRecords(before, id, readFails, renameFails, syncFails, applied, response);
      Note(id, applied, response);
      if applied {
        files := files[request.vault := Regular(request.op.content)];
      }
      requests := requests[id := request.(stage := Finished)];
      assert Now() == Record(before, id, applied, response);
    }

    /** The guard is dropped first, the reference to the mutex after it. */
    method DropGuard(id: nat)
      requires Valid() && At(Now(), id, Finished)
      modifies this`requests, this`guards
      ensures Valid() && Now() == Do(old(Now()), Unlock(id))
    {
      DoKeeps(initial, Now(), Unlock(id));
      guards := guards - {requests[id].lock};
      requests := requests[id := requests[id].(stage := Leaving)];
    }

    method DropLock(id: nat)
      requires Valid() && (At(Now(), id, Leaving) || At(Now(), id, Waiting))
      modifies this`requests
      ensures Valid() && requests == old(requests) - {id}
    {
      DoKeeps(initial, Now(), if requests[id].stage == Leaving then Leave(id) else Abandon(id));
      requests := requests - {id};
    }
  }
}

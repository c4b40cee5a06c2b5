/** Reconciliation workers over the compute store (internal/app/reconciliation/compute.go).
    A worker loads an intent, asks the provider, and records what it saw. Every other
    transaction and every other worker may run in between, and a worker may stop anywhere. */
module SandboxWorkers {
  import opened Common
  import opened SandboxCompute
  import E = SandboxEffects
  import J = SandboxJournal

  // ---------------------------------------------------------------- decisions

  datatype ProviderError = NotFound | Integrity | Refused | Invalid | Conflict | Permission | Unavailable

  /** What the provider's Get answers. */
  datatype Reading =
    | Failure(error: ProviderError)
    | Found(sandbox: Id, reference: Id, state: ComputeState, verified: bool)

  datatype Acquisition = NotAcquired(error: ProviderError) | Handle(sandbox: Id, reference: Id)

  function Recovering(code: Code): Observation {
    Observation(Unknown, code, false, true, false)
  }

  function Plain(state: ComputeState, code: Code): Observation {
    Observation(state, code, false, false, false)
  }

  function FailureSeen(e: ProviderError): Observation {
    match e
    case Integrity | Refused | Invalid => Recovering(ProviderIntegrityFailure)
    case Conflict => Plain(Unknown, FenceChanged)
    case Permission => Plain(Unknown, ProviderPermission)
    case NotFound | Unavailable => Plain(Unknown, ProviderUnavailable)
  }

  /** The original acquisition is repeated only for compute that was never bound. */
  predicate MustAcquire(i: Intent, r: Reading) {
    r == Failure(NotFound) && i.reference == NONE && i.operation == i.request.operation
  }

  function RunningSeen(i: Intent, r: Reading): Observation {
    match r
    case Failure(e) =>
      if e != NotFound then FailureSeen(e)
      else if i.reference != NONE then Recovering(BoundComputeMissing)
      else Recovering(AcquireIdentityMismatch)
    case Found(sandbox, reference, state, verified) =>
      if sandbox != i.request.scope.sandbox || (i.reference != NONE && reference != i.reference)
      then Recovering(ProviderIdentityMismatch)
      else
        match state
        case ComputeReady =>
          if verified then Observation(ComputeReady, ComputeIsReady, true, false, true)
          else Recovering(EffectiveStateUnverified)
        case Requested | Acquired | Resuming => Plain(state, ComputePending)
        case Unknown => Plain(Unknown, ProviderUnknown)
        case _ => Recovering(ComputeUnexpectedState)
  }

  function AcquireSeen(i: Intent, a: Acquisition): Observation {
    match a
    case NotAcquired(e) => FailureSeen(e)
    case Handle(sandbox, reference) =>
      if sandbox != i.request.scope.sandbox || reference == NONE then Recovering(ProviderIdentityMismatch)
      else Plain(Acquired, AcquireAccepted)
  }

  function ReleaseSeen(r: Reading): Observation {
    match r
    case Failure(e) =>
      if e == NotFound then Observation(Released, ComputeAbsent, true, false, false) else FailureSeen(e)
    case Found(_, _, _, _) => Plain(Releasing, ReleasePending)
  }

  // ---------------------------------------------------------------- workers

  /** Where a worker stands: about to read, to acquire, to release, to confirm, or to record. */
  datatype Phase = Reads | Acquires | Releases | Confirms | Records(observation: Observation)

  datatype Worker = Worker(intent: Intent, phase: Phase)

  datatype System = System(store: Store, workers: map<Id, Worker>)

  datatype Event =
    | Start(worker: Id, sandbox: Id, permitted: bool, now: Time)
    | Read(worker: Id, reading: Reading)
    | Acquire(worker: Id, acquisition: Acquisition)
    | CallRelease(worker: Id, failure: Option<ProviderError>)
    | Confirm(worker: Id, reading: Reading)
    | Record(worker: Id, newId: Id, now: Time)
    | Stop(worker: Id)
    | Transaction(action: Action)

  /** The first decision of Reconcile; None when it gives up before asking the provider. */
  function Opening(i: Intent, permitted: bool): Option<Phase> {
    match i.desired
    case KeepRunning =>
      if !i.current then Some(Records(Recovering(FencedCompute)))
      else if !permitted then None
      else Some(Reads)
    case MakeReleased => if i.authorized then Some(Releases) else None
  }

  function Begin(s: System, w: Id, id: Id, permitted: bool, now: Time): System {
    var loaded := Load(s.store, id, now);
    if w in s.workers || !loaded.Intended? || loaded.intent.request.scope.sandbox != id then s
    else
      var phase := Opening(loaded.intent, permitted);
      if phase.None? then s else s.(workers := s.workers[w := Worker(loaded.intent, phase.value)])
  }

  predicate At(s: System, w: Id, phase: Phase) {
    w in s.workers && s.workers[w].phase == phase
  }

  predicate Recording(s: System, w: Id) {
    w in s.workers && s.workers[w].phase.Records?
  }

  function Move(s: System, w: Id, phase: Phase): System
    requires w in s.workers
  {
    s.(workers := s.workers[w := s.workers[w].(phase := phase)])
  }

  function Commit(s: System, w: Id, newId: Id, now: Time): Outcome
    requires Recording(s, w)
  {
    RecordCompute(s.store, s.workers[w].intent, s.workers[w].phase.observation, newId, now)
  }

  function StoreAction(s: System, e: Event): Action {
    if e.Transaction? then e.action
    else if e.Record? && Recording(s, e.worker) then
      DoRecord(s.workers[e.worker].intent, s.workers[e.worker].phase.observation, e.newId, e.now)
    else Elsewhere(Outside(s.store.sessions, s.store.executions))
  }

  /** Observations reach the store through workers only. */
  predicate Possible(s: System, e: Event) {
    && Enabled(s.store, StoreAction(s, e))
    && !(e.Transaction? && e.action.DoRecord?)
  }

  function WorkersAfter(s: System, e: Event): map<Id, Worker> {
    match e
    case Start(w, id, permitted, now) => Begin(s, w, id, permitted, now).workers
    case Read(w, r) =>
      if !At(s, w, Reads) then s.workers
      else if MustAcquire(s.workers[w].intent, r) then Move(s, w, Acquires).workers
      else Move(s, w, Records(RunningSeen(s.workers[w].intent, r))).workers
    case Acquire(w, a) =>
      if !At(s, w, Acquires) then s.workers else Move(s, w, Records(AcquireSeen(s.workers[w].intent, a))).workers
    case CallRelease(w, failure) =>
      if !At(s, w, Releases) then s.workers
      else Move(s, w, if failure.Some? then Records(FailureSeen(failure.value)) else Confirms).workers
    case Confirm(w, r) =>
      if !At(s, w, Confirms) then s.workers else Move(s, w, Records(ReleaseSeen(r))).workers
    case Record(w, _, _) => if Recording(s, w) then s.workers - {w} else s.workers
    case Stop(w) => s.workers - {w}
    case Transaction(_) => s.workers
  }

  function Next(s: System, e: Event): System {
    System(Step(s.store, StoreAction(s, e)).store, WorkersAfter(s, e))
  }

  // ---------------------------------------------------------------- runs

  ghost predicate IsRun(states: seq<System>, events: seq<Event>) {
    && |states| == |events| + 1
    && states[0] == System(EMPTY, map[])
    && forall i | 0 <= i < |events| :: Possible(states[i], events[i]) && states[i + 1] == Next(states[i], events[i])
  }

  function Stores(states: seq<System>): (stores: seq<Store>)
    ensures |stores| == |states| && forall i | 0 <= i < |states| :: stores[i] == states[i].store
  {
    seq(|states|, i requires 0 <= i < |states| => states[i].store)
  }

  /** Seen from the store alone, a run of workers is a run of the compute protocol. */
  lemma StoresRun(states: seq<System>, events: seq<Event>) returns (actions: seq<Action>)
    requires IsRun(states, events)
    ensures J.IsRun(Stores(states), actions)
    ensures |actions| == |events| && forall i | 0 <= i < |events| :: actions[i] == StoreAction(states[i], events[i])
  {
    actions := seq(|events|, i requires 0 <= i < |events| => StoreAction(states[i], events[i]));
    forall i | 0 <= i < |actions|
      ensures Enabled(Stores(states)[i], actions[i])
      ensures Stores(states)[i + 1] == Step(Stores(states)[i], actions[i]).store
    {
      assert Possible(states[i], events[i]) && states[i + 1] == Next(states[i], events[i]);
    }
  }

  lemma RunJournalled(states: seq<System>, events: seq<Event>, i: nat)
    requires IsRun(states, events) && i < |states|
    ensures J.Journalled(states[i].store)
  {
    var actions := StoresRun(states, events);
    J.RunJournalled(Stores(states), actions, i);
  }

  lemma RunAdvances(states: seq<System>, events: seq<Event>, i: nat, j: nat)
    requires IsRun(states, events) && i <= j < |states|
    ensures J.Advanced(states[i].store, states[j].store)
  {
    var actions := StoresRun(states, events);
    J.RunAdvances(Stores(states), actions, i, j);
  }

  // ---------------------------------------------------------------- where a worker comes from

  /** Worker w was started at i and has held the same intent from then to j. */
  ghost predicate Holds(states: seq<System>, events: seq<Event>, w: Id, i: nat, j: nat)
    requires |states| == |events| + 1 && i < j < |states|
  {
    && w !in states[i].workers && w in states[j].workers
    && events[i].Start? && events[i].worker == w
    && Load(states[i].store, events[i].sandbox, events[i].now) == Intended(states[j].workers[w].intent)
    && states[j].workers[w].intent.sandbox == events[i].sandbox
    && forall m | i < m <= j :: w in states[m].workers && states[m].workers[w].intent == states[j].workers[w].intent
  }

  /** A step either starts worker w or leaves its intent alone. */
  lemma WorkerStep(s: System, e: Event, w: Id)
    requires w in WorkersAfter(s, e)
    ensures || (w in s.workers && WorkersAfter(s, e)[w].intent == s.workers[w].intent)
            || (w !in s.workers && e.Start? && e.worker == w
                && Load(s.store, e.sandbox, e.now) == Intended(WorkersAfter(s, e)[w].intent))
  {
  }

  lemma {:induction false} Origin(states: seq<System>, events: seq<Event>, j: nat, w: Id) returns (i: nat)
    requires IsRun(states, events) && j < |states| && w in states[j].workers
    ensures i < j && Holds(states, events, w, i, j)
  {
    assert j > 0;
    assert states[j] == Next(states[j - 1], events[j - 1]);
    WorkerStep(states[j - 1], events[j - 1], w);
    if w in states[j - 1].workers {
      i := Origin(states, events, j - 1, w);
    } else {
      i := j - 1;
    }
  }

  lemma ConfirmsStep(s: System, e: Event, w: Id)
    requires w in WorkersAfter(s, e) && WorkersAfter(s, e)[w].phase.Confirms?
    ensures At(s, w, Confirms) || (At(s, w, Releases) && e == CallRelease(w, None))
  {
  }

  lemma RecordsReleasedStep(s: System, e: Event, w: Id)
    requires w in WorkersAfter(s, e) && WorkersAfter(s, e)[w].phase.Records?
    requires WorkersAfter(s, e)[w].phase.observation.state.Released?
    ensures || (w in s.workers && s.workers[w] == WorkersAfter(s, e)[w])
            || (At(s, w, Confirms) && e == Confirm(w, Failure(NotFound)))
  {
  }

  /** A worker that confirms has had its release accepted since it loaded its intent. */
  lemma {:induction false} ReleaseAccepted(states: seq<System>, events: seq<Event>, i: nat, j: nat, w: Id)
    returns (p: nat)
    requires IsRun(states, events) && i < j < |states| && Holds(states, events, w, i, j)
    requires states[j].workers[w].phase.Confirms?
    ensures i < p < j && events[p] == CallRelease(w, None) && At(states[p], w, Releases)
  {
    assert states[j].workers == WorkersAfter(states[j - 1], events[j - 1]);
    ConfirmsStep(states[j - 1], events[j - 1], w);
    if At(states[j - 1], w, Confirms) {
      p := ReleaseAccepted(states, events, i, j - 1, w);
    } else {
      p := j - 1;
    }
  }

  /** A worker that is about to record RELEASED has then read that the compute is absent. */
  lemma {:induction false} AbsenceRead(states: seq<System>, events: seq<Event>, i: nat, j: nat, w: Id) returns (q: nat)
    requires IsRun(states, events) && i < j < |states| && Holds(states, events, w, i, j)
    requires states[j].workers[w].phase.Records? && states[j].workers[w].phase.observation.state.Released?
    ensures i < q < j && events[q] == Confirm(w, Failure(NotFound)) && At(states[q], w, Confirms)
  {
    assert states[j].workers == WorkersAfter(states[j - 1], events[j - 1]);
    RecordsReleasedStep(states[j - 1], events[j - 1], w);
    if Recording(states[j - 1], w) {
      q := AbsenceRead(states, events, i, j - 1, w);
    } else {
      q := j - 1;
    }
  }

  // ---------------------------------------------------------------- theorems

  lemma LoadedVersion(s: Store, id: Id, now: Time)
    requires Load(s, id, now).Intended?
    ensures id in s.bindings && s.bindings[id].version == Load(s, id, now).intent.version
  {
  }

  lemma CommitVersion(s: System, w: Id, newId: Id, now: Time)
    requires Recording(s, w) && Commit(s, w, newId, now).reply.Accepted?
    ensures var i := s.workers[w].intent;
            i.sandbox in s.store.bindings && s.store.bindings[i.sandbox].version == i.version
  {
  }

  lemma {:induction false} SandwichedRow(states: seq<System>, events: seq<Event>, i: nat, m: nat, j: nat, id: Id)
    requires IsRun(states, events) && i <= m <= j < |states|
    requires id in states[i].store.bindings && id in states[j].store.bindings
    requires states[j].store.bindings[id].version == states[i].store.bindings[id].version
    ensures id in states[m].store.bindings && states[m].store.bindings[id] == states[i].store.bindings[id]
  {
    RunAdvances(states, events, i, m);
    RunAdvances(states, events, m, j);
    assert J.BindingAdvanced(states[i].store.bindings[id], states[m].store.bindings[id]);
    assert J.BindingAdvanced(states[m].store.bindings[id], states[j].store.bindings[id]);
  }

  /** An observation commits only if no committed step touched the binding since its
      intent was loaded: the row is the same in every state in between. */
  lemma RecordedUnchanged(states: seq<System>, events: seq<Event>, j: nat) returns (i: nat)
    requires IsRun(states, events) && j < |events| && events[j].Record? && Recording(states[j], events[j].worker)
    requires Commit(states[j], events[j].worker, events[j].newId, events[j].now).reply.Accepted?
    ensures i < j && Holds(states, events, events[j].worker, i, j)
    ensures var id := events[i].sandbox;
            forall m | i <= m <= j ::
              id in states[i].store.bindings && id in states[m].store.bindings
              && states[m].store.bindings[id] == states[i].store.bindings[id]
  {
    var w := events[j].worker;
    i := Origin(states, events, j, w);
    var id := events[i].sandbox;
    LoadedVersion(states[i].store, id, events[i].now);
    CommitVersion(states[j], w, events[j].newId, events[j].now);
    forall m | i <= m <= j
      ensures id in states[m].store.bindings && states[m].store.bindings[id] == states[i].store.bindings[id]
    {
      SandwichedRow(states, events, i, m, j, id);
    }
  }

  /** Released compute stays as it was, or was not released by this step. */
  ghost predicate NotReleased(s: Store, t: Store, id: Id) {
    id in t.bindings && t.bindings[id].state.Released? ==> id in s.bindings && s.bindings[id].state.Released?
  }

  lemma ReservationReleasesNothing(s: Store, r: Request, matches: bool, reference: Id, now: Time, id: Id)
    ensures NotReleased(s, Reserve(s, r, matches, reference, now).store, id)
  {
  }

  lemma OperationReleasesNothing(s: Store, x: Id, kind: Kind, op: Id, now: Time, id: Id)
    ensures NotReleased(s, BeginOperation(s, x, kind, op, now).store, id)
  {
  }

  lemma ExpiryReleasesNothing(s: Store, x: Id, expired: bool, newId: Id, now: Time, id: Id)
    ensures NotReleased(s, RecoverExpired(s, x, expired, newId, now).store, id)
  {
    var loaded := Load(s, x, now);
    if id in s.bindings && loaded.Intended? {
      ApplyStates(s, loaded.intent, EXPIRED, newId, id);
    }
  }

  lemma SuspensionReleasesNothing(s: Store, x: Id, newId: Id, now: Time, id: Id)
    ensures NotReleased(s, SuspendRelease(s, x, newId, now).store, id)
  {
  }

  lemma ReplacementReleasesNothing(
    s: Store, lost: Id, n: Resources, quiet: bool, approved: bool, claimable: bool, now: Time, id: Id)
    ensures NotReleased(s, ReplaceDeleted(s, lost, n, quiet, approved, claimable, now).store, id)
  {
  }

  /** No transaction other than a recorded observation makes a binding RELEASED. */
  lemma OnlyRecordReleases(s: Store, a: Action, id: Id)
    requires !a.DoRecord?
    ensures NotReleased(s, Step(s, a).store, id)
  {
    match a
    case DoReserve(r, matches, reference, now) => ReservationReleasesNothing(s, r, matches, reference, now, id);
    case DoBind(x, reference) => assert NotReleased(s, BindReference(s, x, reference).store, id);
    case DoBegin(x, kind, op, now) => OperationReleasesNothing(s, x, kind, op, now, id);
    case DoRecoverExpired(x, expired, newId, now) => ExpiryReleasesNothing(s, x, expired, newId, now, id);
    case DoSuspendRelease(x, newId, now) => SuspensionReleasesNothing(s, x, newId, now, id);
    case DoReplace(lost, n, quiet, approved, claimable, now) =>
      ReplacementReleasesNothing(s, lost, n, quiet, approved, claimable, now, id);
    case DoDispatch(x, op, now) =>
    case DoStoreHarness(x, harness, now) =>
    case Elsewhere(e) =>
  }

  /** The cleanup of this binding's compute, under this operation, is confirmed. */
  ghost predicate CleanupDone(s: Store, id: Id, operation: Id) {
    && id in s.bindings && s.bindings[id].reference in s.cleanups
    && var c := s.cleanups[s.bindings[id].reference];
    && c.state == Confirmed && c.owner == id && c.operation == operation && c.proof == s.bindings[id].request
  }

  /** A binding becomes RELEASED only by a worker that, since loading an intent that is
      still the recorded one, had the release of that operation accepted and afterwards
      read that the compute is absent; the binding did not change meanwhile, and the step
      leaves the cleanup of that operation confirmed. */
  lemma ReleasedAfterAbsence(states: seq<System>, events: seq<Event>, j: nat, id: Id)
    returns (i: nat, p: nat, q: nat)
    requires IsRun(states, events) && j < |events|
    requires id in states[j + 1].store.bindings && states[j + 1].store.bindings[id].state.Released?
    requires id in states[j].store.bindings ==> !states[j].store.bindings[id].state.Released?
    ensures i < p < q < j && events[j].Record?
    ensures events[i].Start? && events[i].sandbox == id && Holds(states, events, events[j].worker, i, j)
    ensures events[p] == CallRelease(events[j].worker, None)
    ensures events[q] == Confirm(events[j].worker, Failure(NotFound))
    ensures var loaded := Load(states[j].store, id, events[j].now);
            && loaded.Intended? && loaded.intent.desired.MakeReleased? && loaded.intent.authorized
            && loaded.intent.operation == states[j].workers[events[j].worker].intent.operation
            && CleanupDone(states[j + 1].store, id, loaded.intent.operation)
    ensures forall m | i <= m <= j ::
              id in states[i].store.bindings && id in states[m].store.bindings
              && states[m].store.bindings[id] == states[i].store.bindings[id]
  {
    var e := events[j];
    assert Possible(states[j], e) && states[j + 1] == Next(states[j], e);
    if !(e.Record? && Recording(states[j], e.worker)) {
      OnlyRecordReleases(states[j].store, StoreAction(states[j], e), id);
      assert false;
    }
    RecordReleases(states[j], e.worker, e.newId, e.now, id);
    i := RecordedUnchanged(states, events, j);
    q := AbsenceRead(states, events, i, j, e.worker);
    p := ReleaseAccepted(states, events, i, q, e.worker);
  }

  /** A recovery touches the state column of no binding. */
  lemma RecoverKeepsStates(s: Store, i: Intent, code: Code, newId: Id, id: Id)
    requires i.sandbox in s.bindings && id in s.bindings
    ensures Recover(s, i, code, newId).store.bindings[id].state == s.bindings[id].state
  {
    var t := Recover(s, i, code, newId).store;
    assert t.bindings[id] == s.bindings[id] || (id == i.sandbox && t.bindings[id].state == s.bindings[id].state);
  }

  /** An observation moves the state of its own binding, to what was observed, and of no other. */
  lemma ApplyStates(s: Store, i: Intent, o: Observation, newId: Id, id: Id)
    requires i.sandbox in s.bindings && id in s.bindings
    ensures var result := Apply(s, i, o, newId);
            result.store.bindings[id].state
            == if result.reply.Accepted? && id == i.sandbox then o.state else s.bindings[id].state
  {
    if o.recovery {
      RecoverKeepsStates(J.Seen(s, i.sandbox, o), i, o.code, newId, id);
    }
  }

  lemma RecordReleases(s: System, w: Id, newId: Id, now: Time, id: Id)
    requires Recording(s, w)
    requires id in Commit(s, w, newId, now).store.bindings
    requires Commit(s, w, newId, now).store.bindings[id].state.Released?
    requires id in s.store.bindings ==> !s.store.bindings[id].state.Released?
    ensures Commit(s, w, newId, now).reply.Accepted? && s.workers[w].intent.sandbox == id
    ensures s.workers[w].phase.observation.state.Released?
    ensures var loaded := Load(s.store, id, now);
            && loaded.Intended? && loaded.intent.desired.MakeReleased? && loaded.intent.authorized
            && loaded.intent.operation == s.workers[w].intent.operation
            && CleanupDone(Commit(s, w, newId, now).store, id, loaded.intent.operation)
  {
    var x := s.workers[w];
    var loaded := Load(s.store, x.intent.sandbox, now);
    assert loaded.Intended?;
    ApplyStates(s.store, loaded.intent, x.phase.observation, newId, id);
    E.ReleasedIsConfirmed(s.store, x.intent, x.phase.observation, newId, now);
    E.ObservedIsRecorded(s.store, x.intent, x.phase.observation, newId, now);
    assert Commit(s, w, newId, now).store.bindings[id].reference == s.store.bindings[id].reference;
  }

  // ---------------------------------------------------------------- undisturbed workers commit

  /** What a worker has decided is always an observation that its own intent allows. */
  ghost predicate Sensible(x: Worker) {
    match x.phase
    case Reads | Acquires => x.intent.desired.KeepRunning? && x.intent.current
    case Releases | Confirms => x.intent.desired.MakeReleased? && x.intent.authorized
    case Records(o) => ObservationValid(o) && ObservationAllowed(x.intent, x.intent, o)
  }

  lemma StepKeepsSensible(s: System, e: Event)
    requires forall w | w in s.workers :: Sensible(s.workers[w])
    ensures forall w | w in WorkersAfter(s, e) :: Sensible(WorkersAfter(s, e)[w])
  {
  }

  lemma {:induction false} RunSensible(states: seq<System>, events: seq<Event>, i: nat)
    requires IsRun(states, events) && i < |states|
    ensures forall w | w in states[i].workers :: Sensible(states[i].workers[w])
  {
    if i > 0 {
      RunSensible(states, events, i - 1);
      StepKeepsSensible(states[i - 1], events[i - 1]);
    }
  }

  /** A recovery that must release bound compute cannot share its reference with a cleanup
      that is already on record. */
  predicate RecoveryBlocked(s: Store, i: Intent, o: Observation) {
    o.recovery && i.desired.KeepRunning? && i.sandbox !in s.recoveries
    && i.reference != NONE && i.reference in s.cleanups
  }

  /** If the intent still loads as it did, what the worker decided commits, except for a
      blocked recovery: the fence turns away nobody who is up to date. */
  lemma UndisturbedCommits(states: seq<System>, events: seq<Event>, j: nat)
    requires IsRun(states, events) && j < |events| && events[j].Record? && Recording(states[j], events[j].worker)
    requires var i := states[j].workers[events[j].worker].intent;
             Load(states[j].store, i.sandbox, events[j].now) == Intended(i)
    ensures Commit(states[j], events[j].worker, events[j].newId, events[j].now).reply.Accepted?
            <==> var x := states[j].workers[events[j].worker];
                 !RecoveryBlocked(states[j].store, x.intent, x.phase.observation)
  {
    RunSensible(states, events, j);
    RunJournalled(states, events, j);
    assert Possible(states[j], events[j]);
    var s, x := states[j].store, states[j].workers[events[j].worker];
    assert Sensible(x);
    if x.phase.observation.recovery {
      RecoveryOutcome(s, x.intent, x.phase.observation, events[j].newId, events[j].now);
    }
  }

  lemma InsertableUnlessCleaned(s: Store, t: Store, i: Intent, newId: Id, now: Time)
    requires J.Numbered(s) && J.ReleaseLast(s) && Fresh(s, newId)
    requires Load(s, i.sandbox, now) == Intended(i) && i.desired.KeepRunning?
    requires t.cleanups == s.cleanups && t.operations == s.operations && t.bindings.Keys == s.bindings.Keys
    requires t.bindings[i.sandbox].marks == s.bindings[i.sandbox].marks
    ensures ReleaseInsertable(t, i, newId) <==> i.reference !in s.cleanups
  {
    assert !LastIsRelease(s, i.sandbox);
    assert (i.sandbox, i.revision + 1) !in s.operations;
  }

  lemma RecoveryOutcome(s: Store, i: Intent, o: Observation, newId: Id, now: Time)
    requires J.Journalled(s) && Load(s, i.sandbox, now) == Intended(i) && Fresh(s, newId) && o.recovery
    ensures Recover(J.Seen(s, i.sandbox, o), i, o.code, newId).reply.Accepted? <==> !RecoveryBlocked(s, i, o)
  {
    if J.RecoveryAppends(s, i) {
      var seen := J.Seen(s, i.sandbox, o);
      var noted := seen.(recoveries := seen.recoveries[i.sandbox := Recovery(o.code, true)]);
      var degraded := Degrade(noted, i.request);
      assert degraded.cleanups == s.cleanups;
      InsertableUnlessCleaned(s, degraded, i, newId, now);
    }
  }
}

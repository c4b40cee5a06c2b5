/** Sandbox bindings and their lifecycle: reservation, journalled operations, fenced
    observations, recovery, suspension and pre-execution replacement
    (sandbox_bindings.go, compute_reconciliation.go, compute_recovery.go,
    agentd_recovery.go, session_suspend.go and sandbox_replacement.go under
    internal/adapters/postgres). One transaction is one step over the rows of a tenant;
    a rejected transaction leaves them as they were. */
module SandboxCompute {
  import opened Common

  datatype SessionState = Provisioning | Ready | Active | Idle | Suspended | Degraded | Closing | Closed

  datatype Session = Session(
    state: SessionState, recovery: Option<SessionState>, version: nat, generation: nat, current: Option<Id>)

  datatype ExecutionState = Queued | Materializing | Executing | Cancelling | TimingOut | Ended

  datatype Execution = Execution(session: Id, generation: nat, state: ExecutionState, deadline: Time)

  datatype AttemptState = Pending | Acquiring | Starting | Running | Interrupting | Replaced | Terminal

  datatype Attempt = Attempt(
    execution: Id, generation: nat, ordinal: nat, current: bool, state: AttemptState, harness: Option<Id>)

  datatype Scope = Scope(session: Id, execution: Id, attempt: Id, sandbox: Id, generation: nat, ordinal: nat)

  /** An acquisition request. Its digest covers every field, so requests are compared whole. */
  datatype Request = Request(
    scope: Scope, operation: Id, deadline: Time, attachment: Id, bootstrap: Id, rest: nat)

  datatype ComputeState =
    | Requested | Acquired | ComputeReady | Suspending | ComputeSuspended | Resuming
    | Releasing | Released | Failed | Unknown

  /** Reason codes of a binding; NoCode is a null column. */
  datatype Code =
    | NoCode | FencedCompute | BoundComputeMissing | ComputeAbsent | CredentialsExpired
    | AcquireIdentityMismatch | ProviderIdentityMismatch | AcquireAccepted | EffectiveStateUnverified
    | ComputeIsReady | ComputePending | ProviderUnknown | ComputeUnexpectedState | ReleasePending
    | ProviderIntegrityFailure | FenceChanged | ProviderPermission | ProviderUnavailable

  datatype Kind = Suspend | Resume | Release

  /** A binding row with its request row: `marks` are the first operation of each kind,
      `revision` the number of journalled operations. reference NONE is a null column. */
  datatype Binding = Binding(
    request: Request, reference: Id, state: ComputeState, reason: Code, version: nat, revision: nat,
    marks: map<Kind, Id>)

  /** A sandbox_operations row, keyed by binding and revision. Its digest is a function of
      the binding, the kind and the identifier. */
  datatype Operation = Operation(id: Id, kind: Kind)

  datatype CleanupState = Outstanding | Confirmed | Quarantined

  /** A cleanup intent for a sandbox, keyed by the external reference it may delete.
      `exact` says its digest is that of releasing the owner under its operation. */
  datatype Cleanup = Cleanup(operation: Id, owner: Id, proof: Request, exact: bool, state: CleanupState)

  /** A sandbox.recover work item; the code is cleared when the work completes. */
  datatype Recovery = Recovery(code: Code, open: bool)

  datatype Store = Store(
    sessions: map<Id, Session>,
    executions: map<Id, Execution>,
    attempts: map<Id, Attempt>,
    bindings: map<Id, Binding>,
    operations: map<(Id, nat), Operation>,
    cleanups: map<Id, Cleanup>,
    recoveries: map<Id, Recovery>,
    replacements: map<Id, Id>,
    commands: map<Id, Id>)

  // ---------------------------------------------------------------- fence and intent

  /** The three aggregate rows of a request exist and belong together. */
  predicate Joined(s: Store, r: Scope) {
    && r.session in s.sessions
    && r.execution in s.executions
    && r.attempt in s.attempts
    && s.executions[r.execution].session == r.session
    && s.attempts[r.attempt].execution == r.execution
  }

  /** lockSandboxFence: only the current Attempt of the current Execution of an active Session. */
  predicate Fence(s: Store, r: Request, now: Time) {
    && Joined(s, r.scope)
    && var session, execution, attempt :=
         s.sessions[r.scope.session], s.executions[r.scope.execution], s.attempts[r.scope.attempt];
    && session.state.Active?
    && session.current == Some(r.scope.execution)
    && session.generation == r.scope.generation
    && (execution.state.Materializing? || execution.state.Executing?)
    && now < execution.deadline
    && r.deadline <= execution.deadline
    && attempt.current
    && attempt.ordinal == r.scope.ordinal
    && attempt.generation == r.scope.generation
    && attempt.state in {Pending, Acquiring, Starting, Running}
  }

  datatype Desired = KeepRunning | MakeReleased

  datatype Intent = Intent(
    sandbox: Id, request: Request, reference: Id, revision: nat, current: bool, desired: Desired, operation: Id,
    version: nat, authorized: bool)

  datatype Loaded = Missing | Unsupported | Corrupt | Intended(intent: Intent)

  /** A cleanup row that owns exactly this binding's compute and is not quarantined. */
  predicate OwnsCleanup(s: Store, id: Id) {
    && id in s.bindings
    && var b := s.bindings[id];
    && b.reference != NONE
    && b.reference in s.cleanups
    && s.cleanups[b.reference].owner == id
    && s.cleanups[b.reference].proof == b.request
    && !s.cleanups[b.reference].state.Quarantined?
  }

  predicate ReleaseAuthorized(s: Store, id: Id, operation: Id) {
    OwnsCleanup(s, id) && s.cleanups[s.bindings[id].reference].operation == operation
    && s.cleanups[s.bindings[id].reference].exact
  }

  /** loadCompute: what the journal wants done about a binding. */
  function Load(s: Store, id: Id, now: Time): Loaded {
    if id !in s.bindings || !Joined(s, s.bindings[id].request.scope) then Missing
    else
      var b := s.bindings[id];
      var base := Intent(id, b.request, b.reference, b.revision, Fence(s, b.request, now), KeepRunning,
                         b.request.operation, b.version, false);
      if b.revision == 0 then
        if !OwnsCleanup(s, id) then Intended(base)
        else if !s.cleanups[b.reference].exact then Corrupt
        else Intended(base.(desired := MakeReleased,
          operation := s.cleanups[b.reference].operation, authorized := true))
      else if (id, b.revision) !in s.operations then Missing
      else
        var op := s.operations[(id, b.revision)];
        if !op.kind.Release? then Unsupported
        else Intended(base.(desired := MakeReleased, operation := op.id, authorized := ReleaseAuthorized(s, id, op.id)))
  }

  // ---------------------------------------------------------------- reservation and operations

  predicate OperationUsed(s: Store, op: Id) {
    exists key | key in s.operations :: s.operations[key].id == op
  }

  predicate AcquireUsed(s: Store, op: Id) {
    exists id | id in s.bindings :: s.bindings[id].request.operation == op
  }

  predicate CleanupUsed(s: Store, op: Id) {
    exists ref | ref in s.cleanups :: s.cleanups[ref].operation == op
  }

  predicate AttemptBound(s: Store, attempt: Id) {
    exists id | id in s.bindings :: s.bindings[id].request.scope.attempt == attempt
  }

  predicate ReferenceUsed(s: Store, reference: Id) {
    exists id | id in s.bindings :: s.bindings[id].reference == reference
  }

  datatype Reply = Rejected | Accepted | Replayed(revision: nat)

  datatype Outcome = Outcome(store: Store, reply: Reply)

  /** Attempts, dispatched commands and replacement decisions are as they were. */
  ghost predicate SameLineage(s: Store, t: Store) {
    t.attempts == s.attempts && t.commands == s.commands && t.replacements == s.replacements
  }

  function NewBinding(r: Request, reference: Id): Binding {
    Binding(r, reference, Requested, NoCode, 0, 0, map[])
  }

  predicate LastIsRelease(s: Store, id: Id) {
    && id in s.bindings
    && s.bindings[id].revision > 0
    && (id, s.bindings[id].revision) in s.operations
    && s.operations[(id, s.bindings[id].revision)].kind.Release?
  }

  /** The row that the binding's revision points at; the query fails without one. */
  predicate JournalReadable(s: Store, id: Id) {
    id in s.bindings && (s.bindings[id].revision > 0 ==> (id, s.bindings[id].revision) in s.operations)
  }

  /** Reserve. `matches` is the comparison with the Execution's stored resolution; a
      reference is handed over by a committed resume, or empty. */
  function Reserve(s: Store, r: Request, matches: bool, reference: Id, now: Time): (result: Outcome)
    ensures SameLineage(s, result.store)
  {
    var id := r.scope.sandbox;
    if OperationUsed(s, r.operation) || !Fence(s, r, now) || !matches then Outcome(s, Rejected)
    else if id in s.bindings then
      if s.bindings[id].request != r || !JournalReadable(s, id) || LastIsRelease(s, id) then Outcome(s, Rejected)
      else Outcome(s, Replayed(s.bindings[id].revision))
    else if AttemptBound(s, r.scope.attempt) || AcquireUsed(s, r.operation)
            || (reference != NONE && ReferenceUsed(s, reference)) then Outcome(s, Rejected)
    else Outcome(s.(bindings := s.bindings[id := NewBinding(r, reference)]), Accepted)
  }

  function BindReference(s: Store, id: Id, reference: Id): (result: Outcome)
    ensures SameLineage(s, result.store) && result.store.bindings.Keys == s.bindings.Keys
  {
    if reference == NONE || id !in s.bindings then Outcome(s, Rejected)
    else if s.bindings[id].reference != NONE then
      Outcome(s, if s.bindings[id].reference == reference then Accepted else Rejected)
    else if ReferenceUsed(s, reference) then Outcome(s, Rejected)
    else
      var b := s.bindings[id];
      Outcome(s.(bindings := s.bindings[id := b.(reference := reference, version := b.version + 1)]), Accepted)
  }

  /** Journal one operation at the next revision; the first of its kind is also marked. */
  function Journal(s: Store, id: Id, op: Id, kind: Kind): (t: Store)
    requires id in s.bindings
    ensures SameLineage(s, t) && t.bindings.Keys == s.bindings.Keys
  {
    var b := s.bindings[id];
    s.(operations := s.operations[(id, b.revision + 1) := Operation(op, kind)],
       bindings := s.bindings[id := b.(
         revision := b.revision + 1, version := b.version + 1,
         marks := if kind in b.marks then b.marks else b.marks[kind := op])])
  }

  /** An unused identifier on a known binding, while the fence holds or for an authorized release. */
  predicate BeginAllowed(s: Store, id: Id, kind: Kind, op: Id, now: Time) {
    && !AcquireUsed(s, op) && id in s.bindings && Joined(s, s.bindings[id].request.scope)
    && (Fence(s, s.bindings[id].request, now) || (kind.Release? && ReleaseAuthorized(s, id, op)))
  }

  function BeginOperation(s: Store, id: Id, kind: Kind, op: Id, now: Time): (result: Outcome)
    ensures SameLineage(s, result.store) && result.store.bindings.Keys == s.bindings.Keys
  {
    if !BeginAllowed(s, id, kind, op, now) then Outcome(s, Rejected)
    else
      var b := s.bindings[id];
      if OperationUsed(s, op) then
        if (id, b.revision) in s.operations && s.operations[(id, b.revision)] == Operation(op, kind)
        then Outcome(s, Replayed(b.revision))
        else Outcome(s, Rejected)
      else if !JournalReadable(s, id) || LastIsRelease(s, id) || (id, b.revision + 1) in s.operations
      then Outcome(s, Rejected)
      else Outcome(Journal(s, id, op, kind), Accepted)
  }

  // ---------------------------------------------------------------- observations and recovery

  datatype Observation = Observation(state: ComputeState, code: Code, converged: bool, recovery: bool, verified: bool)

  predicate ObservationValid(o: Observation) {
    && o.state in {Unknown, Acquired, Requested, Resuming, ComputeReady, Releasing, Released}
    && o.converged == (o.state.ComputeReady? || o.state.Released?)
    && (o.recovery ==> o.state.Unknown?)
    && (o.state.ComputeReady? ==> o.verified)
  }

  /** Nothing that an observer relied on has moved since it loaded its intent. */
  predicate SameIntent(current: Intent, expected: Intent) {
    && (current.desired.KeepRunning? ==> current.current == expected.current)
    && current.version == expected.version
    && current.revision == expected.revision
    && current.operation == expected.operation
    && current.desired == expected.desired
    && current.request.operation == expected.request.operation
    && current.reference == expected.reference
  }

  predicate ObservationAllowed(current: Intent, expected: Intent, o: Observation) {
    match current.desired
    case KeepRunning =>
      && (current.current || (o.recovery && o.code == FencedCompute && !expected.current))
      && !o.state.Released? && !o.state.Releasing?
    case MakeReleased =>
      current.authorized && o.state in {Released, Releasing, Unknown}
  }

  function Observed(b: Binding, o: Observation): Binding {
    b.(state := o.state, reason := o.code, version := b.version + 1)
  }

  function SettleCleanup(s: Store, reference: Id, op: Id, state: CleanupState): (t: Store)
    ensures SameLineage(s, t) && t.bindings == s.bindings && t.operations == s.operations
  {
    if reference in s.cleanups && s.cleanups[reference].operation == op && s.cleanups[reference].state.Outstanding?
    then s.(cleanups := s.cleanups[reference := s.cleanups[reference].(state := state)])
    else s
  }

  /** The release rows that recovery and suspension write in their own transaction; the
      tables' unique keys reject a second cleanup of the same compute. */
  predicate ReleaseInsertable(s: Store, i: Intent, newId: Id) {
    && i.sandbox in s.bindings
    && i.reference !in s.cleanups
    && !CleanupUsed(s, newId)
    && !OperationUsed(s, newId)
    && (i.sandbox, i.revision + 1) !in s.operations
    && Release !in s.bindings[i.sandbox].marks
  }

  function InsertRelease(s: Store, i: Intent, newId: Id): (t: Store)
    requires i.sandbox in s.bindings
    ensures SameLineage(s, t) && t.bindings.Keys == s.bindings.Keys
  {
    Journal(
      s.(cleanups := s.cleanups[i.reference := Cleanup(newId, i.sandbox, i.request, true, Outstanding)]),
      i.sandbox, newId, Release)
  }

  /** Only the still current Attempt degrades its Session. */
  predicate MayDegrade(s: Store, r: Request) {
    && r.scope.session in s.sessions
    && r.scope.attempt in s.attempts
    && s.attempts[r.scope.attempt].execution in s.executions
    && s.sessions[r.scope.session].state.Active?
    && s.sessions[r.scope.session].current == Some(r.scope.execution)
    && s.sessions[r.scope.session].generation == r.scope.generation
    && s.attempts[r.scope.attempt].current
    && s.executions[s.attempts[r.scope.attempt].execution].state in {Materializing, Executing}
  }

  function Degrade(s: Store, r: Request): (t: Store)
    ensures SameLineage(s, t) && t.bindings == s.bindings && t.operations == s.operations
  {
    if !MayDegrade(s, r) then s
    else
      var session := s.sessions[r.scope.session];
      s.(sessions := s.sessions[r.scope.session :=
        session.(state := Degraded, recovery := Some(Active), version := session.version + 1)])
  }

  /** recordComputeRecovery, inside the transaction that recorded the observation. */
  function Recover(s: Store, i: Intent, code: Code, newId: Id): (result: Outcome)
    requires i.sandbox in s.bindings
    ensures SameLineage(s, result.store) && result.store.bindings.Keys == s.bindings.Keys
  {
    var first := i.sandbox !in s.recoveries;
    var noted := if first then s.(recoveries := s.recoveries[i.sandbox := Recovery(code, true)]) else s;
    if i.desired.MakeReleased? then Outcome(SettleCleanup(noted, i.reference, i.operation, Quarantined), Accepted)
    else if !first then Outcome(noted, Accepted)
    else
      var degraded := Degrade(noted, i.request);
      if i.reference == NONE then Outcome(degraded, Accepted)
      else if !ReleaseInsertable(degraded, i, newId) then Outcome(s, Rejected)
      else Outcome(InsertRelease(degraded, i, newId), Accepted)
  }

  /** The writes of an observation that passed its guards, with the recovery it may ask for. */
  function Apply(s: Store, i: Intent, o: Observation, newId: Id): (result: Outcome)
    requires i.sandbox in s.bindings
    ensures SameLineage(s, result.store) && result.store.bindings.Keys == s.bindings.Keys
  {
    var seen := s.(bindings := s.bindings[i.sandbox := Observed(s.bindings[i.sandbox], o)]);
    if o.recovery then
      var recovered := Recover(seen, i, o.code, newId);
      if recovered.reply.Accepted? then recovered else Outcome(s, Rejected)
    else if o.state.Released? then Outcome(SettleCleanup(seen, i.reference, i.operation, Confirmed), Accepted)
    else Outcome(seen, Accepted)
  }

  function RecordCompute(s: Store, expected: Intent, o: Observation, newId: Id, now: Time): (result: Outcome)
    ensures SameLineage(s, result.store) && result.store.bindings.Keys == s.bindings.Keys
  {
    var loaded := Load(s, expected.sandbox, now);
    if !ObservationValid(o) || !loaded.Intended? then Outcome(s, Rejected)
    else if !SameIntent(loaded.intent, expected) || !ObservationAllowed(loaded.intent, expected, o)
    then Outcome(s, Rejected)
    else Apply(s, loaded.intent, o, newId)
  }

  const EXPIRED := Observation(Unknown, CredentialsExpired, false, true, false)

  /** RecoverExpiredAgentd; `expired` is the registry's verdict on the latest identity. */
  function RecoverExpired(s: Store, id: Id, expired: bool, newId: Id, now: Time): (result: Outcome)
    ensures SameLineage(s, result.store) && result.store.bindings.Keys == s.bindings.Keys
  {
    var loaded := Load(s, id, now);
    if !loaded.Intended? then Outcome(s, Rejected)
    else if loaded.intent.desired.MakeReleased? || !expired then Outcome(s, Accepted)
    else Apply(s, loaded.intent, EXPIRED, newId)
  }

  /** suspendRelease for one retained binding of a quiescent Session. */
  function SuspendRelease(s: Store, id: Id, newId: Id, now: Time): (result: Outcome)
    ensures SameLineage(s, result.store) && result.store.bindings.Keys == s.bindings.Keys
  {
    var loaded := Load(s, id, now);
    if !loaded.Intended? then Outcome(s, Rejected)
    else
      var i := loaded.intent;
      if || s.sessions[i.request.scope.session].state !in {Ready, Idle}
         || i.current || i.reference == NONE || (i.desired.MakeReleased? && !i.authorized)
      then Outcome(s, Rejected)
      else if i.desired.MakeReleased? then Outcome(s, Accepted)
      else if !ReleaseInsertable(s, i, newId) then Outcome(s, Rejected)
      else Outcome(InsertRelease(s, i, newId), Accepted)
  }

  // ---------------------------------------------------------------- replacement

  datatype Resources = Resources(attempt: Id, sandbox: Id, operation: Id, attachment: Id, bootstrap: Id)

  predicate CommandDispatched(s: Store, execution: Id) {
    exists op | op in s.commands ::
      s.commands[op] in s.bindings && s.bindings[s.commands[op]].request.scope.execution == execution
  }

  predicate HarnessBound(s: Store, execution: Id) {
    exists a | a in s.attempts :: s.attempts[a].execution == execution && s.attempts[a].harness.Some?
  }

  predicate CleanupConfirmed(s: Store, id: Id) {
    && id in s.bindings
    && var b := s.bindings[id];
    && b.reference in s.cleanups
    && var c := s.cleanups[b.reference];
    && c.owner == id && c.exact && c.proof == b.request && c.state.Confirmed?
    && Release in b.marks && c.operation == b.marks[Release]
  }

  /** The admission predicate of ReplaceDeleted. `quiet` says that no live connection and
      no undeleted, unexpired bootstrap delivery is left. */
  predicate ReplacementSafe(s: Store, lost: Id, quiet: bool, now: Time) {
    && lost in s.bindings
    && var b := s.bindings[lost];
    && var r := b.request;
    && Joined(s, r.scope)
    && var session, execution, attempt :=
         s.sessions[r.scope.session], s.executions[r.scope.execution], s.attempts[r.scope.attempt];
    && session.state.Degraded? && session.recovery == Some(Active)
    && session.current == Some(r.scope.execution)
    && session.generation == r.scope.generation == execution.generation
    && execution.state.Materializing?
    && now < execution.deadline && now < r.deadline <= execution.deadline
    && attempt.current && attempt.generation == r.scope.generation && attempt.ordinal == r.scope.ordinal
    && attempt.state in {Pending, Acquiring, Starting} && attempt.harness.None?
    && b.state.Released? && b.reason == ComputeAbsent && b.reference != NONE
    && CleanupConfirmed(s, lost)
    && lost in s.recoveries && s.recoveries[lost].code == BoundComputeMissing
    && !HarnessBound(s, r.scope.execution)
    && !CommandDispatched(s, r.scope.execution)
    && quiet
  }

  function Candidate(was: Request, n: Resources): Request {
    was.(scope := was.scope.(attempt := n.attempt, sandbox := n.sandbox, ordinal := was.scope.ordinal + 1),
         operation := n.operation, attachment := n.attachment, bootstrap := n.bootstrap)
  }

  /** New identities throughout. */
  predicate ResourcesNew(was: Request, n: Resources) {
    && n.attempt != was.scope.attempt && n.sandbox != was.scope.sandbox && n.operation != was.operation
    && n.attachment != was.attachment && n.bootstrap != was.bootstrap
    && was.scope.ordinal < MAX_INT64
  }

  /** The tables' keys reject any identity that is taken. */
  predicate RowsFree(s: Store, was: Request, n: Resources) {
    && n.attempt !in s.attempts && n.sandbox !in s.bindings
    && !AttemptBound(s, n.attempt)
    && !OperationUsed(s, n.operation) && !AcquireUsed(s, n.operation)
    && forall a | a in s.attempts ::
         s.attempts[a].execution == was.scope.execution ==> s.attempts[a].ordinal != was.scope.ordinal + 1
  }

  predicate ResourcesFresh(s: Store, was: Request, n: Resources) {
    ResourcesNew(was, n) && RowsFree(s, was, n)
  }

  /** An existing decision is only ever returned, to the caller that named the same resources. */
  predicate ReplacementReplays(s: Store, lost: Id, n: Resources, now: Time) {
    && lost in s.replacements && s.replacements[lost] in s.bindings
    && var saved := s.bindings[s.replacements[lost]];
    && saved.request.scope.attempt == n.attempt && saved.request.scope.sandbox == n.sandbox
    && saved.request.operation == n.operation && saved.request.attachment == n.attachment
    && saved.request.bootstrap == n.bootstrap
    && Fence(s, saved.request, now)
    && Release !in saved.marks && saved.state !in {Released, Releasing, Failed}
  }

  function ReplaceRows(s: Store, lost: Id, n: Resources): Store
    requires lost in s.bindings && Joined(s, s.bindings[lost].request.scope) && lost in s.recoveries
  {
    var was := s.bindings[lost].request;
    var session, attempt := s.sessions[was.scope.session], s.attempts[was.scope.attempt];
    s.(sessions := s.sessions[was.scope.session :=
         session.(state := Active, recovery := None, version := session.version + 1)],
       attempts := s.attempts
         [was.scope.attempt := attempt.(state := Replaced, current := false)]
         [n.attempt := Attempt(was.scope.execution, was.scope.generation, was.scope.ordinal + 1, true, Pending, None)],
       bindings := s.bindings[n.sandbox := NewBinding(Candidate(was, n), NONE)],
       replacements := s.replacements[lost := n.sandbox],
       recoveries := s.recoveries[lost := Recovery(NoCode, false)])
  }

  /** ReplaceDeleted; `approved` is the policy and `claimable` whether the recovery work can be taken. */
  function ReplaceDeleted(
    s: Store, lost: Id, n: Resources, quiet: bool, approved: bool, claimable: bool, now: Time): Outcome
  {
    if lost !in s.bindings || !Joined(s, s.bindings[lost].request.scope) then Outcome(s, Rejected)
    else if lost in s.replacements then
      if ReplacementReplays(s, lost, n, now) && approved then Outcome(s, Replayed(0)) else Outcome(s, Rejected)
    else if && ReplacementSafe(s, lost, quiet, now) && ResourcesFresh(s, s.bindings[lost].request, n)
            && approved && claimable
    then Outcome(ReplaceRows(s, lost, n), Accepted)
    else Outcome(s, Rejected)
  }

  // ---------------------------------------------------------------- other steps

  /** The credential transaction's test that a sandbox may still talk. */
  predicate Talking(s: Store, id: Id, now: Time) {
    && id in s.bindings
    && Fence(s, s.bindings[id].request, now)
    && Release !in s.bindings[id].marks
    && s.bindings[id].state !in {Releasing, Released, Failed, ComputeSuspended, Suspending, Unknown}
  }

  /** AuthorizeFrame admitting a command for a sandbox. */
  function Dispatch(s: Store, id: Id, op: Id, now: Time): Outcome {
    if !Talking(s, id, now) || op in s.commands then Outcome(s, Rejected)
    else Outcome(s.(commands := s.commands[op := id]), Accepted)
  }

  /** A thread observation stores the harness of the current Attempt. */
  function StoreHarness(s: Store, id: Id, harness: Id, now: Time): Outcome {
    if !Talking(s, id, now) then Outcome(s, Rejected)
    else
      var a := s.bindings[id].request.scope.attempt;
      if s.attempts[a].harness.Some? then
        Outcome(s, if s.attempts[a].harness == Some(harness) then Accepted else Rejected)
      else Outcome(s.(attempts := s.attempts[a := s.attempts[a].(harness := Some(harness))]), Accepted)
  }

  /** Changes that other parts of the system make to the same rows. */
  datatype Event =
    | Outside(sessions: map<Id, Session>, executions: map<Id, Execution>)
    | Admit(attempt: Id, execution: Id, generation: nat)
    | MoveAttempt(attempt: Id, state: AttemptState, current: bool)
    | AddCleanup(reference: Id, cleanup: Cleanup)
    | MoveCleanup(reference: Id, settled: CleanupState)

  /** Sessions and Executions may change arbitrarily. Attempts move only while current
      and cleanup rows only while outstanding, as their triggers demand; an Execution is
      admitted with one Attempt. */
  function Happen(s: Store, e: Event): (t: Store)
    ensures t.bindings == s.bindings && t.operations == s.operations
    ensures t.commands == s.commands && t.replacements == s.replacements
    ensures e.Admit? || e.MoveAttempt? || t.attempts == s.attempts
  {
    match e
    case Outside(sessions, executions) => s.(sessions := sessions, executions := executions)
    case Admit(attempt, execution, generation) =>
      if attempt in s.attempts || (exists x | x in s.attempts :: s.attempts[x].execution == execution) then s
      else s.(attempts := s.attempts[attempt := Attempt(execution, generation, 1, true, Pending, None)])
    case MoveAttempt(attempt, state, current) =>
      if attempt !in s.attempts || !s.attempts[attempt].current || (current && state in {Replaced, Terminal}) then s
      else s.(attempts := s.attempts[attempt := s.attempts[attempt].(state := state, current := current)])
    case AddCleanup(reference, cleanup) =>
      if reference == NONE || reference in s.cleanups || CleanupUsed(s, cleanup.operation) then s
      else s.(cleanups := s.cleanups[reference := cleanup])
    case MoveCleanup(reference, settled) =>
      if reference !in s.cleanups || !s.cleanups[reference].state.Outstanding? then s
      else s.(cleanups := s.cleanups[reference := s.cleanups[reference].(state := settled)])
  }

  datatype Action =
    | DoReserve(request: Request, matches: bool, reference: Id, now: Time)
    | DoBind(id: Id, reference: Id)
    | DoBegin(id: Id, kind: Kind, op: Id, now: Time)
    | DoRecord(expected: Intent, observation: Observation, newId: Id, now: Time)
    | DoRecoverExpired(id: Id, expired: bool, newId: Id, now: Time)
    | DoSuspendRelease(id: Id, newId: Id, now: Time)
    | DoReplace(id: Id, resources: Resources, quiet: bool, approved: bool, claimable: bool, now: Time)
    | DoDispatch(id: Id, op: Id, now: Time)
    | DoStoreHarness(id: Id, harness: Id, now: Time)
    | Elsewhere(event: Event)

  /** NewID never repeats an identifier that any journal already holds. */
  predicate Fresh(s: Store, newId: Id) {
    !OperationUsed(s, newId) && !AcquireUsed(s, newId) && !CleanupUsed(s, newId)
  }

  predicate Enabled(s: Store, a: Action) {
    match a
    case DoRecord(_, _, newId, _) => Fresh(s, newId)
    case DoRecoverExpired(_, _, newId, _) => Fresh(s, newId)
    case DoSuspendRelease(_, newId, _) => Fresh(s, newId)
    case _ => true
  }

  /** Only dispatch, replacement, a stored harness and outside events reach the lineage. */
  function Step(s: Store, a: Action): (result: Outcome)
    ensures a.DoReplace? || a.DoDispatch? || a.DoStoreHarness? || a.Elsewhere? || SameLineage(s, result.store)
    ensures a.DoReserve? || a.DoReplace? || result.store.bindings.Keys == s.bindings.Keys
  {
    match a
    case DoReserve(r, matches, reference, now) => Reserve(s, r, matches, reference, now)
    case DoBind(id, reference) => BindReference(s, id, reference)
    case DoBegin(id, kind, op, now) => BeginOperation(s, id, kind, op, now)
    case DoRecord(expected, o, newId, now) => RecordCompute(s, expected, o, newId, now)
    case DoRecoverExpired(id, expired, newId, now) => RecoverExpired(s, id, expired, newId, now)
    case DoSuspendRelease(id, newId, now) => SuspendRelease(s, id, newId, now)
    case DoReplace(lost, n, quiet, approved, claimable, now) =>
      ReplaceDeleted(s, lost, n, quiet, approved, claimable, now)
    case DoDispatch(id, op, now) => Dispatch(s, id, op, now)
    case DoStoreHarness(id, harness, now) => StoreHarness(s, id, harness, now)
    case Elsewhere(event) => Outcome(Happen(s, event), Accepted)
  }

  const EMPTY := Store(map[], map[], map[], map[], map[], map[], map[], map[], map[])
}

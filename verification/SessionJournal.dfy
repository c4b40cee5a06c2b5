/** Session suspend and resume (session_suspend.go, session_resume.go and
    session_resume_candidate.go under internal/adapters/postgres, with the request bounds
    of internal/app/session). Each transaction holds the Session row's lock and is one
    step; a refused transaction changes nothing. */
module SessionJournal {
  import opened Common

  datatype SessionState = Provisioning | Ready | Active | Idle | Suspended | Degraded | Closing | Closed

  datatype Session = Session(
    state: SessionState, version: int, generation: int, head: Id, current: Id, recovery: Option<SessionState>)

  datatype Request = Request(caller: Id, session: Id, operation: Id, checkpoint: Id, expected: int)

  datatype Boundary = Boundary(request: Request, prior: SessionState, version: int, generation: int)

  datatype WorkspaceState = WReady | WAttached | WDegraded | WOther

  datatype Workspace = Workspace(state: WorkspaceState, attachment: Id, generationId: Id, generation: int)

  /** RESUMING is progress of the operation; the Session itself stays SUSPENDED. */
  datatype Progress = Resuming | Restored(state: SessionState) | Abandoned

  datatype Identities = Identities(sandbox: Id, bootstrap: Id, attachment: Id)

  datatype Intent = Intent(
    request: Request, ids: Identities, generationId: Id, workspaceGeneration: int, generation: int, version: int,
    manifest: nat, deadline: Time, target: SessionState)

  datatype Result = Result(request: Request, ids: Identities, progress: Progress, version: int, generation: int)

  /** A session_resume_operations row: the state column and the stored result. */
  datatype Row = Row(intent: Intent, state: Progress, result: Result, observation: Option<Id>, cleaned: bool)

  /** suspends and resumes are keyed by operation, the rest by Session. */
  datatype Store = Store(
    sessions: map<Id, Session>, workspaces: map<Id, Workspace>, suspends: map<Id, Boundary>, resumes: map<Id, Row>)

  const EMPTY := Store(map[], map[], map[], map[])

  datatype Error = Invalid | Unavailable | Conflict | Integrity | Missing

  datatype Reply =
    | Refused(error: Error)
    | SuspendedAs(boundary: Boundary)
    | Answer(intent: Intent, result: Result)
    | Ran
    | Cleanable(intent: Intent, done: bool)
    | Done

  datatype Outcome = Outcome(store: Store, reply: Reply)

  // ---------------------------------------------------------------- outside checks

  /** Callbacks and reads of other tables, as one transaction finds them. */
  datatype Checks = Checks(
    access: bool,      // the caller may see and request this
    policy: bool,      // current eligibility
    quiet: bool,       // no mutable Execution, unreleased sandbox, live connection or bootstrap
    boundary: bool,    // detached, exactly checkpointed storage and releasable compute
    valid: bool,       // the checkpoint validates
    manifest: nat,     // and has this manifest
    ready: Option<Error>,
    reused: bool,      // the observed reference belongs to another sandbox binding
    now: Time)

  predicate SuspendValid(r: Request) {
    0 <= r.expected < MAX_INT64
  }

  predicate ResumeValid(r: Request) {
    SuspendValid(r) && r.expected <= MAX_INT64 - 2
  }

  // ---------------------------------------------------------------- suspend

  predicate Suspendable(s: Store, r: Request, k: Checks) {
    && r.session in s.sessions
    && var v := s.sessions[r.session];
    && (v.state.Ready? || v.state.Idle?)
    && v.version == r.expected && v.current == NONE && v.head == r.checkpoint
    && k.quiet && k.valid && k.boundary
  }

  function SuspendRows(s: Store, r: Request): Store
    requires r.session in s.sessions
  {
    var v := s.sessions[r.session];
    s.(sessions := s.sessions[r.session := v.(state := Suspended, version := v.version + 1)],
       suspends := s.suspends[r.operation := Boundary(r, v.state, v.version + 1, v.generation)])
  }

  function SuspendStep(s: Store, r: Request, k: Checks): Outcome {
    if !SuspendValid(r) then Outcome(s, Refused(Invalid))
    else if !k.access then Outcome(s, Refused(Unavailable))
    else if r.session !in s.sessions then Outcome(s, Refused(Missing))
    else if r.operation in s.suspends then
      if s.suspends[r.operation].request == r then Outcome(s, SuspendedAs(s.suspends[r.operation]))
      else Outcome(s, Refused(Conflict))
    else if !Suspendable(s, r, k) then Outcome(s, Refused(Conflict))
    else
      var t := SuspendRows(s, r);
      Outcome(t, SuspendedAs(t.suspends[r.operation]))
  }

  // ---------------------------------------------------------------- resume

  function ResultOf(i: Intent, progress: Progress, version: int): Result {
    Result(i.request, i.ids, progress, version, i.generation)
  }

  /** fence: the Session is still the suspended one, and the reserved writer is in place. */
  predicate Fenced(s: Store, i: Intent, k: Checks) {
    && i.request.session in s.sessions
    && var v := s.sessions[i.request.session];
    && v.state.Suspended? && v.version == i.version && v.generation == i.generation
    && v.head == i.request.checkpoint && v.current == NONE
    && k.quiet
    && i.request.session in s.workspaces
    && var w := s.workspaces[i.request.session];
    && w.state.WAttached? && w.attachment == i.ids.attachment
    && w.generationId == i.generationId && w.generation == i.workspaceGeneration
    && k.valid && k.manifest == i.manifest
  }

  predicate Matches(b: Boundary, r: Request, v: Session) {
    && b.request.session == r.session && b.request.checkpoint == r.checkpoint
    && b.version == v.version && b.generation == v.generation
  }

  predicate OpenCandidate(s: Store, session: Id) {
    exists op | op in s.resumes ::
      s.resumes[op].intent.request.session == session
      && (s.resumes[op].state.Resuming? || (s.resumes[op].state.Abandoned? && !s.resumes[op].cleaned))
  }

  predicate IdentityUsed(s: Store, ids: Identities) {
    exists op | op in s.resumes ::
      var o := s.resumes[op].intent.ids;
      o.sandbox == ids.sandbox || o.bootstrap == ids.bootstrap || o.attachment == ids.attachment
  }

  /** What Prepare demands of a request it has not seen; `suspend` names the boundary it found. */
  predicate Preparable(s: Store, r: Request, suspend: Id, pin: (Id, int), k: Checks) {
    && r.session in s.sessions
    && var v := s.sessions[r.session];
    && v.state.Suspended? && v.version == r.expected && v.current == NONE && v.head == r.checkpoint
    && suspend in s.suspends && Matches(s.suspends[suspend], r, v)
    && r.session in s.workspaces
    && var w := s.workspaces[r.session];
    && (w.generationId, w.generation) == pin
    && w.state.WReady? && w.attachment == NONE
    && k.quiet && k.valid
  }

  /** The table's keys: one row per operation, one open candidate per Session, new identities. */
  predicate Insertable(s: Store, r: Request, ids: Identities) {
    r.operation !in s.resumes && !OpenCandidate(s, r.session) && !IdentityUsed(s, ids)
  }

  function NewIntent(s: Store, r: Request, suspend: Id, ids: Identities, pin: (Id, int), k: Checks): Intent
    requires r.session in s.sessions && suspend in s.suspends
  {
    Intent(r, ids, pin.0, pin.1, s.sessions[r.session].generation, s.sessions[r.session].version + 1, k.manifest,
           k.now + RESUME_TTL, s.suspends[suspend].prior)
  }

  /** Fifteen minutes. */
  const RESUME_TTL: Time := 900_000

  function PrepareRows(s: Store, i: Intent): Store
    requires i.request.session in s.sessions && i.request.session in s.workspaces
  {
    var x := i.request.session;
    s.(resumes := s.resumes[i.request.operation := Row(i, Resuming, ResultOf(i, Resuming, i.version), None, false)],
       workspaces := s.workspaces[x := s.workspaces[x].(attachment := i.ids.attachment, state := WAttached)],
       sessions := s.sessions[x := s.sessions[x].(version := s.sessions[x].version + 1)])
  }

  function PrepareStep(s: Store, r: Request, suspend: Id, ids: Identities, pin: (Id, int), k: Checks): Outcome {
    if !ResumeValid(r) then Outcome(s, Refused(Invalid))
    else if !k.access then Outcome(s, Refused(Unavailable))
    else if r.session !in s.sessions then Outcome(s, Refused(Missing))
    else if r.operation in s.resumes && s.resumes[r.operation].intent.request.session == r.session then
      var row := s.resumes[r.operation];
      if row.intent.request != r then Outcome(s, Refused(Conflict))
      else if !row.result.progress.Resuming? then Outcome(s, Answer(row.intent, row.result))
      else if !Fenced(s, row.intent, k) then Outcome(s, Refused(Conflict))
      else if !k.policy then Outcome(s, Refused(Unavailable))
      else Outcome(s, Answer(row.intent, row.result))
    else if !Preparable(s, r, suspend, pin, k) then Outcome(s, Refused(Conflict))
    else if !k.policy then Outcome(s, Refused(Unavailable))
    else if !Insertable(s, r, ids) then Outcome(s, Refused(Conflict))
    else
      var i := NewIntent(s, r, suspend, ids, pin, k);
      Outcome(PrepareRows(s, i), Answer(i, ResultOf(i, Resuming, i.version)))
  }

  /** resumeLoad: the row of exactly this request. */
  predicate Journalled(s: Store, r: Request) {
    r.session in s.sessions && r.operation in s.resumes && s.resumes[r.operation].intent.request == r
  }

  /** Why resumeLoad found no such row. */
  function LoadError(s: Store, r: Request): Error {
    if r.session in s.sessions && r.operation in s.resumes && s.resumes[r.operation].intent.request.session == r.session
    then Conflict else Missing
  }

  predicate ReferenceTaken(s: Store, reference: Id) {
    exists op | op in s.resumes :: s.resumes[op].observation == Some(reference)
  }

  function CompleteRows(s: Store, i: Intent, reference: Id): Store
    requires i.request.session in s.sessions && i.request.operation in s.resumes
  {
    var x, v := i.request.session, s.sessions[i.request.session];
    var row := s.resumes[i.request.operation];
    s.(resumes := s.resumes[i.request.operation := row.(
         state := Restored(i.target), result := ResultOf(i, Restored(i.target), v.version + 1),
         observation := Some(reference))],
       sessions := s.sessions[x := v.(state := i.target, version := v.version + 1)])
  }

  function CompleteStep(s: Store, r: Request, reference: Id, k: Checks): Outcome {
    if !ResumeValid(r) then Outcome(s, Refused(Invalid))
    else if !k.access then Outcome(s, Refused(Unavailable))
    else if !Journalled(s, r) then Outcome(s, Refused(LoadError(s, r)))
    else
      var row := s.resumes[r.operation];
      if !row.result.progress.Resuming? then Outcome(s, Answer(row.intent, row.result))
      else if reference == NONE then Outcome(s, Refused(Integrity))
      else if !Fenced(s, row.intent, k) || row.intent.deadline <= k.now then Outcome(s, Refused(Conflict))
      else if !k.policy then Outcome(s, Refused(Unavailable))
      else if k.reused || ReferenceTaken(s, reference) then Outcome(s, Refused(Integrity))
      else if k.ready.Some? then
        Outcome(s, Refused(if k.ready.value.Unavailable? then Unavailable else Integrity))
      else
        var t := CompleteRows(s, row.intent, reference);
        Outcome(t, Answer(row.intent, t.resumes[r.operation].result))
  }

  function FailRows(s: Store, i: Intent): Store
    requires i.request.session in s.sessions && i.request.operation in s.resumes
  {
    var x, v := i.request.session, s.sessions[i.request.session];
    var ours := v.state.Suspended? && v.version == i.version && v.generation == i.generation;
    var version := if ours then v.version + 1 else v.version;
    var row := s.resumes[i.request.operation];
    s.(resumes := s.resumes[i.request.operation := row.(state := Abandoned, result := ResultOf(i, Abandoned, version))],
       sessions := if ours
                   then s.sessions[x := v.(state := Degraded, recovery := Some(Suspended), version := v.version + 1)]
                   else s.sessions)
  }

  function FailStep(s: Store, r: Request): Outcome {
    if !ResumeValid(r) then Outcome(s, Refused(Invalid))
    else if !Journalled(s, r) then Outcome(s, Refused(LoadError(s, r)))
    else
      var row := s.resumes[r.operation];
      if !row.result.progress.Resuming? then Outcome(s, Answer(row.intent, row.result))
      else
        var t := FailRows(s, row.intent);
        Outcome(t, Answer(row.intent, t.resumes[r.operation].result))
  }

  function CleanupIntentStep(s: Store, op: Id): Outcome {
    if op !in s.resumes then Outcome(s, Refused(Missing))
    else if !s.resumes[op].state.Abandoned? then Outcome(s, Refused(Conflict))
    else Outcome(s, Cleanable(s.resumes[op].intent, s.resumes[op].cleaned))
  }

  /** The second transaction of Cleaned. The intent that the first one read never changes. */
  function CleanedStep(s: Store, op: Id): Outcome {
    if op !in s.resumes then Outcome(s, Refused(Missing))
    else if s.resumes[op].cleaned then Outcome(s, Done)
    else if s.resumes[op].intent.request.session !in s.sessions then Outcome(s, Refused(Missing))
    else if !s.resumes[op].state.Abandoned? then Outcome(s, Refused(Conflict))
    else
      var i := s.resumes[op].intent;
      var x := i.request.session;
      var held := x in s.workspaces && s.workspaces[x].state.WAttached?
                  && s.workspaces[x].attachment == i.ids.attachment;
      Outcome(
        s.(resumes := s.resumes[op := s.resumes[op].(cleaned := true)],
           workspaces := if held then s.workspaces[x := s.workspaces[x].(attachment := NONE, state := WDegraded)]
                         else s.workspaces),
        Done)
  }

  /** WithResumeCandidate: Ran says that the provider call was made, under the Session lock. */
  function CandidateStep(s: Store, i: Intent, cleanup: bool, k: Checks): Outcome {
    var r := i.request;
    if !ResumeValid(r) then Outcome(s, Refused(Invalid))
    else if !cleanup && !k.access then Outcome(s, Refused(Unavailable))
    else if !Journalled(s, r) then Outcome(s, Refused(LoadError(s, r)))
    else if s.resumes[r.operation].intent != i then Outcome(s, Refused(Integrity))
    else
      var progress := s.resumes[r.operation].result.progress;
      if cleanup then Outcome(s, if progress.Abandoned? then Ran else Refused(Conflict))
      else if !progress.Resuming? || i.deadline <= k.now || !Fenced(s, i, k) then Outcome(s, Refused(Conflict))
      else if !k.policy then Outcome(s, Refused(Unavailable))
      else Outcome(s, Ran)
  }

  // ---------------------------------------------------------------- the protocol

  datatype Action =
    | DoSuspend(request: Request, checks: Checks)
    | DoPrepare(request: Request, suspend: Id, ids: Identities, pin: (Id, int), checks: Checks)
    | DoComplete(request: Request, reference: Id, checks: Checks)
    | DoFail(request: Request)
    | DoCleaned(operation: Id)
    | DoCandidate(intent: Intent, cleanup: bool, checks: Checks)
    | MoveSession(session: Id, row: Session)
    | MoveWorkspace(session: Id, workspace: Workspace)

  /** Every other writer of a Session row raises its version; storage may move freely. */
  function Step(s: Store, a: Action): Outcome {
    match a
    case DoSuspend(r, k) => SuspendStep(s, r, k)
    case DoPrepare(r, suspend, ids, pin, k) => PrepareStep(s, r, suspend, ids, pin, k)
    case DoComplete(r, reference, k) => CompleteStep(s, r, reference, k)
    case DoFail(r) => FailStep(s, r)
    case DoCleaned(op) => CleanedStep(s, op)
    case DoCandidate(i, cleanup, k) => CandidateStep(s, i, cleanup, k)
    case MoveSession(x, row) =>
      if x in s.sessions && row.version <= s.sessions[x].version then Outcome(s, Refused(Conflict))
      else Outcome(s.(sessions := s.sessions[x := row]), Done)
    case MoveWorkspace(x, w) => Outcome(s.(workspaces := s.workspaces[x := w]), Done)
  }
}

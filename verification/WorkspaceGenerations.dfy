/** Publication of Workspace generations (workspace_checkpoint.go and workspace_empty.go
    under internal/adapters/postgres), with the two storage moves of a Session resume.
    Each transaction is one step; a refused one changes nothing. */
module WorkspaceGenerations {
  import opened Common

  datatype WorkspaceState = Provisioning | Ready | Attached | Snapshotting | Degraded

  datatype Head = Head(id: Id, generation: int)

  datatype Workspace = Workspace(session: Id, state: WorkspaceState, attachment: Id, head: Option<Head>, version: nat)

  datatype Generation = Generation(id: Id, parent: Option<Head>, proof: Digest)

  /** A standalone checkpoint names no Execution; its digest covers every field. */
  datatype Request = Request(
    session: Id, workspace: Id, operation: Id, parent: Id, parentGeneration: int, sessionGeneration: int,
    execution: Id, attempt: Id, attachment: Id)

  datatype OperationState = Prepared | Committed | Aborted

  datatype Operation = Operation(request: Request, prior: WorkspaceState, state: OperationState, proof: Option<Digest>)

  /** Generations are keyed by Workspace and number, operations by identifier. */
  datatype Store = Store(
    workspaces: map<Id, Workspace>, generations: map<(Id, int), Generation>, operations: map<Id, Operation>)

  const EMPTY := Store(map[], map[], map[])

  datatype Error = Invalid | Missing | Conflict | Unavailable | Integrity

  datatype Result = Result(id: Id, generation: int, state: OperationState)

  datatype Reply = Refused(error: Error) | Is(result: Result)

  datatype Outcome = Outcome(store: Store, reply: Reply)

  /** Callbacks, and the Session, Execution and Attempt rows as the transaction finds them. */
  datatype Checks = Checks(
    owned: bool,      // the publisher's own storage, configured as the request says
    access: bool,
    epoch: int,       // the Session's execution generation
    resting: bool,    // READY or IDLE, without a current Execution
    running: bool,    // ACTIVE in the request's Execution, whose current Attempt is RUNNING
    verified: bool)

  datatype Move = Prepare | Publish | Abort

  predicate Valid(r: Request) {
    && 0 <= r.parentGeneration < MAX_INT64
    && 0 <= r.sessionGeneration
    && (if r.execution == NONE then r.attempt == NONE && r.attachment == NONE
        else r.sessionGeneration != 0 && r.attempt != NONE && r.attachment != NONE)
  }

  /** The request still names the head, the epoch and the writer that the rows name. */
  predicate Current(w: Workspace, r: Request, k: Checks) {
    && w.head.Some? && w.head.value.id == r.parent && w.head.value.generation == r.parentGeneration
    && k.epoch == r.sessionGeneration
    && (if r.execution == NONE then k.resting && w.attachment == NONE else k.running && w.attachment == r.attachment)
  }

  predicate Owned(s: Store, r: Request) {
    r.workspace in s.workspaces && s.workspaces[r.workspace].session == r.session
  }

  predicate GenerationIdUsed(s: Store, id: Id) {
    exists key | key in s.generations :: s.generations[key].id == id
  }

  function SetState(s: Store, x: Id, state: WorkspaceState): Store
    requires x in s.workspaces
  {
    s.(workspaces := s.workspaces[x := s.workspaces[x].(state := state, version := s.workspaces[x].version + 1)])
  }

  function PrepareRows(s: Store, r: Request): Store
    requires r.workspace in s.workspaces
  {
    SetState(
      s.(operations := s.operations[r.operation := Operation(r, s.workspaces[r.workspace].state, Prepared, None)]),
      r.workspace, Snapshotting)
  }

  function AbortRows(s: Store, r: Request): Store
    requires r.workspace in s.workspaces && r.operation in s.operations
  {
    var t := s.(operations := s.operations[r.operation := s.operations[r.operation].(state := Aborted)]);
    if s.workspaces[r.workspace].state.Snapshotting? then SetState(t, r.workspace, Degraded) else t
  }

  function PublishRows(s: Store, r: Request, proof: Digest): Store
    requires Valid(r) && r.workspace in s.workspaces && r.operation in s.operations
  {
    var w, op := s.workspaces[r.workspace], s.operations[r.operation];
    s.(generations := s.generations[(r.workspace, r.parentGeneration + 1) :=
         Generation(r.operation, Some(Head(r.parent, r.parentGeneration)), proof)],
       workspaces := s.workspaces[r.workspace :=
         w.(state := op.prior, version := w.version + 1, head := Some(Head(r.operation, r.parentGeneration + 1)))],
       operations := s.operations[r.operation := op.(state := Committed, proof := Some(proof))])
  }

  function ResultOf(r: Request, state: OperationState): Result {
    Result(r.operation, r.parentGeneration + 1, state)
  }

  function ChangeStep(s: Store, m: Move, r: Request, proof: Digest, k: Checks): Outcome {
    if !Valid(r) then Outcome(s, Refused(Invalid))
    else if !Owned(s, r) then Outcome(s, Refused(Missing))
    else if !k.owned then Outcome(s, Refused(Conflict))
    else if !k.access then Outcome(s, Refused(Unavailable))
    else if r.operation in s.operations then
      var op := s.operations[r.operation];
      if op.request != r then Outcome(s, Refused(Conflict))
      else
        match op.state
        case Committed =>
          if m.Abort? || (m.Publish? && op.proof != Some(proof)) then Outcome(s, Refused(Conflict))
          else Outcome(s, Is(ResultOf(r, Committed)))
        case Aborted => Outcome(s, if m.Abort? then Is(ResultOf(r, Aborted)) else Refused(Conflict))
        case Prepared =>
          if m.Abort? then Outcome(AbortRows(s, r), Is(ResultOf(r, Aborted)))
          else if !Current(s.workspaces[r.workspace], r, k) || !s.workspaces[r.workspace].state.Snapshotting?
          then Outcome(s, Refused(Conflict))
          else if m.Prepare? then Outcome(s, Is(ResultOf(r, Prepared)))
          else if !k.verified then Outcome(s, Refused(Integrity))
          else if GenerationIdUsed(s, r.operation) || (r.workspace, r.parentGeneration + 1) in s.generations
          then Outcome(s, Refused(Conflict))
          else Outcome(PublishRows(s, r, proof), Is(ResultOf(r, Committed)))
    else
      var w := s.workspaces[r.workspace];
      if m.Abort? then Outcome(s, Refused(Missing))
      else if !Current(w, r, k) || !m.Prepare? || !(w.state.Ready? || w.state.Attached?)
              || w.state.Attached? != (r.execution != NONE)
      then Outcome(s, Refused(Conflict))
      else if !k.verified then Outcome(s, Refused(Integrity))
      else Outcome(PrepareRows(s, r), Is(ResultOf(r, Prepared)))
  }

  /** publishEmpty: generation 0 of a Workspace that is being provisioned. */
  function EmptyStep(s: Store, x: Id, operation: Id, proof: Digest): Store {
    if x !in s.workspaces || GenerationIdUsed(s, operation) || (x, 0) in s.generations then s
    else
      var w := s.workspaces[x];
      s.(generations := s.generations[(x, 0) := Generation(operation, None, proof)],
         workspaces := if !w.state.Provisioning? then s.workspaces
                       else s.workspaces[x := w.(state := Ready, version := w.version + 1,
                            head := Some(Head(operation, 0)))])
  }

  function ProvisionStep(s: Store, x: Id, session: Id): Store {
    if x in s.workspaces then s
    else s.(workspaces := s.workspaces[x := Workspace(session, Provisioning, NONE, None, 0)])
  }

  /** A prepared resume reserves the single writer. */
  function AttachStep(s: Store, x: Id, attachment: Id): Store {
    if x !in s.workspaces || !s.workspaces[x].state.Ready? || s.workspaces[x].attachment != NONE then s
    else
      var w := s.workspaces[x];
      s.(workspaces := s.workspaces[x := w.(state := Attached, attachment := attachment, version := w.version + 1)])
  }

  /** A cleaned resume gives up its own reservation only. */
  function DetachStep(s: Store, x: Id, attachment: Id): Store {
    if x !in s.workspaces || !s.workspaces[x].state.Attached? || s.workspaces[x].attachment != attachment then s
    else
      var w := s.workspaces[x];
      s.(workspaces := s.workspaces[x := w.(state := Degraded, attachment := NONE, version := w.version + 1)])
  }

  datatype Action =
    | Change(move: Move, request: Request, proof: Digest, checks: Checks)
    | Provision(workspace: Id, session: Id)
    | PublishEmpty(workspace: Id, operation: Id, proof: Digest)
    | AttachForResume(workspace: Id, attachment: Id)
    | DetachAbandoned(workspace: Id, attachment: Id)

  function Step(s: Store, a: Action): Store {
    match a
    case Change(m, r, proof, k) => ChangeStep(s, m, r, proof, k).store
    case Provision(x, session) => ProvisionStep(s, x, session)
    case PublishEmpty(x, op, proof) => EmptyStep(s, x, op, proof)
    case AttachForResume(x, attachment) => AttachStep(s, x, attachment)
    case DetachAbandoned(x, attachment) => DetachStep(s, x, attachment)
  }
}

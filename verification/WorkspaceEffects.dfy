/** What a snapshot does to its Workspace over whole runs: a published one gives the writer
    back exactly what it took, an aborted one leaves it degraded. */
module WorkspaceEffects {
  import opened Common
  import opened WorkspaceGenerations
  import R = WorkspaceRuns

  // ---------------------------------------------------------------- single steps

  /** Only Prepare inserts an operation: it keeps the writable state that it found, and takes
      nothing from the row but that state. */
  lemma Begins(s: Store, a: Action, op: Id)
    requires op !in s.operations && op in Step(s, a).operations
    ensures a.Change? && a.move.Prepare? && a.request.operation == op && a.request.workspace in s.workspaces
    ensures var t, w := Step(s, a), s.workspaces[a.request.workspace];
            && t.operations[op] == Operation(a.request, w.state, Prepared, None)
            && t.workspaces == s.workspaces[a.request.workspace := w.(state := Snapshotting, version := w.version + 1)]
            && t.generations == s.generations
            && w.head == Some(Head(a.request.parent, a.request.parentGeneration))
            && w.state == (if a.request.execution == NONE then Ready else Attached)
            && w.attachment == a.request.attachment
  {
  }

  /** Nothing but its own end touches the Workspace of an open operation. */
  lemma OpenIsUntouched(s: Store, a: Action, op: Id)
    requires R.Sound(s) && op in s.operations && s.operations[op].state.Prepared?
    requires op in Step(s, a).operations && Step(s, a).operations[op].state.Prepared?
    ensures var x := s.operations[op].request.workspace;
            && x in s.workspaces && x in Step(s, a).workspaces
            && Step(s, a).workspaces[x] == s.workspaces[x]
            && Step(s, a).operations[op] == s.operations[op]
  {
    if a.Change? {
      ChangeLeavesOpen(s, a.move, a.request, a.proof, a.checks, op);
    } else {
      assert R.Open(s.operations[op], s.workspaces);
      StorageLeavesSnapshot(s, a, s.operations[op].request.workspace);
    }
  }

  lemma StorageLeavesSnapshot(s: Store, a: Action, x: Id)
    requires R.Chained(s) && x in s.workspaces && s.workspaces[x].state.Snapshotting? && !a.Change?
    ensures x in Step(s, a).workspaces && Step(s, a).workspaces[x] == s.workspaces[x]
    ensures Step(s, a).operations == s.operations
  {
    assert R.Chain(s.generations, x, s.workspaces[x]);
  }

  lemma ChangeLeavesOpen(s: Store, m: Move, r: Request, proof: Digest, k: Checks, op: Id)
    requires R.Sound(s) && op in s.operations && s.operations[op].state.Prepared?
    requires var t := ChangeStep(s, m, r, proof, k).store;
             op in t.operations && t.operations[op].state.Prepared?
    ensures var x, t := s.operations[op].request.workspace, ChangeStep(s, m, r, proof, k).store;
            && x in s.workspaces && x in t.workspaces && t.workspaces[x] == s.workspaces[x]
            && t.operations[op] == s.operations[op]
  {
    assert R.Open(s.operations[op], s.workspaces);
    if r.workspace == s.operations[op].request.workspace && r.operation != op {
      OthersAreRefused(s, m, r, proof, k, op);
    }
  }

  /** While one operation is open, no other changes its Workspace. */
  lemma OthersAreRefused(s: Store, m: Move, r: Request, proof: Digest, k: Checks, op: Id)
    requires R.Sound(s) && op in s.operations && s.operations[op].state.Prepared?
    requires r.workspace == s.operations[op].request.workspace && r.operation != op
    ensures ChangeStep(s, m, r, proof, k).store == s
  {
    assert R.Open(s.operations[op], s.workspaces);
    R.OnlyOpen(s, op);
    assert r.operation in s.operations && s.operations[r.operation].request == r ==>
        !R.PreparedOn(s.operations[r.operation], r.workspace);
  }

  /** The end of an open operation is its own publication or its own abort. */
  lemma Ends(s: Store, a: Action, op: Id)
    requires op in s.operations && s.operations[op].state.Prepared?
    requires op in Step(s, a).operations && !Step(s, a).operations[op].state.Prepared?
    ensures a.Change? && a.request == s.operations[op].request && a.request.operation == op
    ensures a.move == if Step(s, a).operations[op].state.Committed? then Publish else Abort
    ensures Valid(a.request) && a.request.workspace in s.workspaces
    ensures Step(s, a) == if a.move.Publish? then PublishRows(s, a.request, a.proof) else AbortRows(s, a.request)
  {
  }

  lemma PublishEffect(s: Store, r: Request, proof: Digest)
    requires Valid(r) && r.workspace in s.workspaces && r.operation in s.operations
    ensures var t, w, op := PublishRows(s, r, proof), s.workspaces[r.workspace], s.operations[r.operation];
            && t.workspaces == s.workspaces[r.workspace := w.(state := op.prior,
                 head := Some(Head(r.operation, r.parentGeneration + 1)), version := w.version + 1)]
            && t.generations == s.generations[(r.workspace, r.parentGeneration + 1) :=
                 Generation(r.operation, Some(Head(r.parent, r.parentGeneration)), proof)]
  {
  }

  lemma AbortEffect(s: Store, r: Request)
    requires r.workspace in s.workspaces && r.operation in s.operations
    requires s.workspaces[r.workspace].state.Snapshotting?
    ensures var t, w := AbortRows(s, r), s.workspaces[r.workspace];
            && t.workspaces == s.workspaces[r.workspace := w.(state := Degraded, version := w.version + 1)]
            && t.generations == s.generations
  {
  }

  // ---------------------------------------------------------------- whole runs

  /** Operation `op` is prepared at step i and is still open before step j. */
  ghost predicate OpenBetween(states: seq<Store>, actions: seq<Action>, i: nat, j: nat, op: Id) {
    && R.IsRun(states, actions) && i < j < |actions|
    && op !in states[i].operations && op in states[i + 1].operations
    && op in states[j].operations && states[j].operations[op].state.Prepared?
  }

  lemma OpenBefore(states: seq<Store>, actions: seq<Action>, i: nat, j: nat, op: Id)
    requires OpenBetween(states, actions, i, j, op) && i + 1 < j
    ensures OpenBetween(states, actions, i, j - 1, op)
  {
    R.RunAdvances(states, actions, i + 1, j - 1);
    R.RunAdvances(states, actions, j - 1, j);
    assert R.OperationAdvanced(states[j - 1].operations[op], states[j].operations[op]);
  }

  /** All that time the row is the one that was found, but for its state and one version. */
  lemma {:induction false} HeldWhileOpen(states: seq<Store>, actions: seq<Action>, i: nat, j: nat, op: Id)
    requires OpenBetween(states, actions, i, j, op)
    ensures actions[i].Change? && actions[i].move.Prepare? && actions[i].request.operation == op
    ensures var r := actions[i].request;
            && r.workspace in states[i].workspaces && r.workspace in states[j].workspaces
            && var w := states[i].workspaces[r.workspace];
            && states[j].operations[op] == Operation(r, w.state, Prepared, None)
            && states[j].workspaces[r.workspace] == w.(state := Snapshotting, version := w.version + 1)
            && w.head == Some(Head(r.parent, r.parentGeneration))
    decreases j
  {
    Begins(states[i], actions[i], op);
    if i + 1 < j {
      OpenBefore(states, actions, i, j, op);
      HeldWhileOpen(states, actions, i, j - 1, op);
      R.RunSound(states, actions, j - 1);
      OpenIsUntouched(states[j - 1], actions[j - 1], op);
    }
  }

  /** Prepared at step i and published at step j, whatever happens in between: the Workspace
      row is again the one before step i, state and attachment included, apart from its head,
      which names the new generation, and its version. */
  lemma PublishRestoresWriter(states: seq<Store>, actions: seq<Action>, i: nat, j: nat, op: Id)
    requires OpenBetween(states, actions, i, j, op)
    requires op in states[j + 1].operations && states[j + 1].operations[op].state.Committed?
    ensures actions[i].Change? && actions[i].move.Prepare?
    ensures actions[j].Change? && actions[j].move.Publish? && actions[j].request == actions[i].request
    ensures var r, t := actions[i].request, states[j + 1];
            && r.operation == op && r.workspace in states[i].workspaces && r.workspace in t.workspaces
            && var w, n := states[i].workspaces[r.workspace], r.parentGeneration + 1;
            && t.workspaces[r.workspace] == w.(head := Some(Head(op, n)), version := w.version + 2)
            && (r.workspace, n) !in states[j].generations && (r.workspace, n) in t.generations
            && t.generations[(r.workspace, n)] == Generation(op, w.head, actions[j].proof)
  {
    HeldWhileOpen(states, actions, i, j, op);
    R.RunSound(states, actions, j);
    Ends(states[j], actions[j], op);
    PublishEffect(states[j], actions[j].request, actions[j].proof);
    var x := actions[i].request.workspace;
    assert R.Chain(states[j].generations, x, states[j].workspaces[x]);
  }

  /** Prepared at step i and aborted at step j: the row is DEGRADED, its head and attachment
      those before step i, and no generation was added. */
  lemma AbortDegrades(states: seq<Store>, actions: seq<Action>, i: nat, j: nat, op: Id)
    requires OpenBetween(states, actions, i, j, op)
    requires op in states[j + 1].operations && states[j + 1].operations[op].state.Aborted?
    ensures actions[i].Change? && actions[i].move.Prepare?
    ensures actions[j].Change? && actions[j].move.Abort? && actions[j].request == actions[i].request
    ensures var r, t := actions[i].request, states[j + 1];
            && r.workspace in states[i].workspaces && r.workspace in t.workspaces
            && var w := states[i].workspaces[r.workspace];
            && t.workspaces[r.workspace] == w.(state := Degraded, version := w.version + 2)
            && t.generations == states[j].generations
  {
    HeldWhileOpen(states, actions, i, j, op);
    R.RunSound(states, actions, j);
    Ends(states[j], actions[j], op);
    AbortEffect(states[j], actions[j].request);
  }

  /** A result names the row it stands for: committed, its generation; prepared, none yet. */
  predicate Stands(s: Store, r: Request, z: Result) {
    && r.operation in s.operations && s.operations[r.operation].state == z.state
    && (z.state.Committed? ==>
          (r.workspace, z.generation) in s.generations && s.generations[(r.workspace, z.generation)].id == z.id)
    && (z.state.Prepared? ==> (r.workspace, z.generation) !in s.generations)
  }

  lemma ResultNamesGeneration(s: Store, m: Move, r: Request, proof: Digest, k: Checks)
    requires R.Sound(s) && ChangeStep(s, m, r, proof, k).reply.Is?
    ensures Stands(ChangeStep(s, m, r, proof, k).store, r, ChangeStep(s, m, r, proof, k).reply.result)
  {
    var o := ChangeStep(s, m, r, proof, k);
    R.ChangeKeeps(s, m, r, proof, k);
    AnswersStoredState(s, m, r, proof, k);
    StoredGeneration(o.store, r, o.reply.result);
  }

  lemma AnswersStoredState(s: Store, m: Move, r: Request, proof: Digest, k: Checks)
    requires ChangeStep(s, m, r, proof, k).reply.Is?
    ensures var t, z := ChangeStep(s, m, r, proof, k).store, ChangeStep(s, m, r, proof, k).reply.result;
            && r.operation in t.operations && t.operations[r.operation].request == r
            && t.operations[r.operation].state == z.state
            && z.id == r.operation && z.generation == r.parentGeneration + 1
  {
  }

  lemma StoredGeneration(s: Store, r: Request, z: Result)
    requires R.Sound(s) && r.operation in s.operations && s.operations[r.operation].request == r
    requires z == Result(r.operation, r.parentGeneration + 1, s.operations[r.operation].state)
    ensures Stands(s, r, z)
  {
    assert R.OperationSound(s, r.operation);
    assert R.Chain(s.generations, r.workspace, s.workspaces[r.workspace]);
    if z.state.Prepared? {
      assert R.Open(s.operations[r.operation], s.workspaces);
    }
  }

  /** The empty generation makes a Workspace READY, detached as it was provisioned, and only once. */
  lemma EmptyMakesReady(s: Store, x: Id, operation: Id, proof: Digest)
    requires R.Sound(s) && EmptyStep(s, x, operation, proof) != s
    ensures var t := EmptyStep(s, x, operation, proof);
            && x in s.workspaces && s.workspaces[x].state.Provisioning?
            && t.workspaces == s.workspaces[x := s.workspaces[x].(state := Ready,
                 head := Some(Head(operation, 0)), version := s.workspaces[x].version + 1)]
            && t.generations == s.generations[(x, 0) := Generation(operation, None, proof)]
            && t.operations == s.operations
            && forall op, other :: EmptyStep(t, x, op, other) == t
  {
    assert R.Chain(s.generations, x, s.workspaces[x]);
  }
}

/** Workspace generations over whole runs: one unbroken chain, one snapshot at a time, and
    results that never change. */
module WorkspaceRuns {
  import opened Common
  import opened WorkspaceGenerations

  // ---------------------------------------------------------------- invariant

  ghost predicate Linked(m: map<(Id, int), Generation>, x: Id, n: int) {
    && (x, n) in m
    && (if n == 0 then m[(x, n)].parent == None
        else (x, n - 1) in m && m[(x, n)].parent == Some(Head(m[(x, n - 1)].id, n - 1)))
  }

  /** The generations of a Workspace are exactly 0..head, each the child of its predecessor. */
  ghost predicate Chain(m: map<(Id, int), Generation>, x: Id, w: Workspace) {
    && (forall n :: (x, n) in m <==> w.head.Some? && 0 <= n <= w.head.value.generation)
    && (w.head.Some? ==>
          && 0 <= w.head.value.generation <= MAX_INT64
          && m[(x, w.head.value.generation)].id == w.head.value.id
          && forall n | 0 <= n <= w.head.value.generation :: Linked(m, x, n))
    && (w.state.Provisioning? <==> w.head.None?)
  }

  ghost predicate Chained(s: Store) {
    && (forall key | key in s.generations :: key.0 in s.workspaces)
    && (forall x | x in s.workspaces :: Chain(s.generations, x, s.workspaces[x]))
  }

  predicate PreparedOn(o: Operation, x: Id) {
    o.state.Prepared? && o.request.workspace == x
  }

  ghost predicate Busy(m: map<Id, Operation>, x: Id) {
    exists op | op in m :: PreparedOn(m[op], x)
  }

  /** A PREPARED operation's Workspace is SNAPSHOTTING, and its parent is the head. */
  ghost predicate Open(o: Operation, m: map<Id, Workspace>) {
    var x := o.request.workspace;
    && x in m && m[x].state.Snapshotting?
    && m[x].head == Some(Head(o.request.parent, o.request.parentGeneration))
  }

  /** A Workspace is SNAPSHOTTING exactly while one operation on it is PREPARED, never two. */
  ghost predicate Exclusive(s: Store) {
    && (forall op | op in s.operations && s.operations[op].state.Prepared? :: Open(s.operations[op], s.workspaces))
    && (forall op, op', x | op in s.operations && op' in s.operations
                            && PreparedOn(s.operations[op], x) && PreparedOn(s.operations[op'], x) :: op == op')
    && (forall x | x in s.workspaces && s.workspaces[x].state.Snapshotting? :: Busy(s.operations, x))
  }

  /** Operations keep their request's key, return to a writable state, and a committed one
      has its generation. */
  ghost predicate OperationSound(s: Store, op: Id)
    requires op in s.operations
  {
    var o := s.operations[op];
    && o.request.operation == op && Valid(o.request)
    && (o.prior.Ready? || o.prior.Attached?)
    && o.request.workspace in s.workspaces && s.workspaces[o.request.workspace].session == o.request.session
    && (o.proof.Some? <==> o.state.Committed?)
    && (o.state.Committed? ==>
          var key := (o.request.workspace, o.request.parentGeneration + 1);
          && key in s.generations
          && s.generations[key]
            == Generation(op, Some(Head(o.request.parent, o.request.parentGeneration)), o.proof.value))
  }

  ghost predicate Sound(s: Store) {
    && Chained(s)
    && Exclusive(s)
    && (forall op | op in s.operations :: OperationSound(s, op))
  }

  // ---------------------------------------------------------------- progress

  ghost predicate HeadAdvanced(a: Option<Head>, b: Option<Head>) {
    a.Some? ==> b.Some? && a.value.generation <= b.value.generation
  }

  ghost predicate OperationAdvanced(a: Operation, b: Operation) {
    b.request == a.request && b.prior == a.prior && (a.state.Prepared? || b == a)
  }

  /** History is only ever extended, and COMMITTED and ABORTED are final. */
  ghost predicate Advanced(s: Store, t: Store) {
    && s.workspaces.Keys <= t.workspaces.Keys
    && (forall x | x in s.workspaces ::
          HeadAdvanced(s.workspaces[x].head, t.workspaces[x].head)
          && t.workspaces[x].session == s.workspaces[x].session)
    && s.generations.Keys <= t.generations.Keys
    && (forall key | key in s.generations :: t.generations[key] == s.generations[key])
    && s.operations.Keys <= t.operations.Keys
    && (forall op | op in s.operations :: OperationAdvanced(s.operations[op], t.operations[op]))
  }

  lemma AdvancedTransitive(s: Store, t: Store, u: Store)
    requires Advanced(s, t) && Advanced(t, u)
    ensures Advanced(s, u)
  {
    forall x | x in s.workspaces ensures HeadAdvanced(s.workspaces[x].head, u.workspaces[x].head) {
      assert HeadAdvanced(s.workspaces[x].head, t.workspaces[x].head);
      assert HeadAdvanced(t.workspaces[x].head, u.workspaces[x].head);
    }
    forall op | op in s.operations ensures OperationAdvanced(s.operations[op], u.operations[op]) {
      assert OperationAdvanced(s.operations[op], t.operations[op]);
      assert OperationAdvanced(t.operations[op], u.operations[op]);
    }
  }

  // ---------------------------------------------------------------- one Workspace changes

  /** A step touches the rows of one Workspace and one of its operations. */
  ghost predicate Changed(s: Store, t: Store, x: Id, op: Id) {
    && x in s.workspaces
    && t.workspaces.Keys == s.workspaces.Keys
    && (forall y | y in s.workspaces && y != x :: t.workspaces[y] == s.workspaces[y])
    && t.workspaces[x].session == s.workspaces[x].session
    && HeadAdvanced(s.workspaces[x].head, t.workspaces[x].head)
    && s.generations.Keys <= t.generations.Keys
    && (forall key | key in s.generations :: t.generations[key] == s.generations[key])
    && (forall key | key in t.generations && key.0 != x :: key in s.generations)
    && s.operations.Keys <= t.operations.Keys
    && (forall o | o in t.operations && o != op :: o in s.operations && t.operations[o] == s.operations[o])
    && (op in s.operations ==> OperationAdvanced(s.operations[op], t.operations[op]))
  }

  lemma ChangedAdvances(s: Store, t: Store, x: Id, op: Id)
    requires Changed(s, t, x, op)
    ensures Advanced(s, t)
  {
  }

  lemma ChainElsewhere(m: map<(Id, int), Generation>, n: map<(Id, int), Generation>, y: Id, w: Workspace)
    requires Chain(m, y, w)
    requires forall k | (y, k) in m :: (y, k) in n && n[(y, k)] == m[(y, k)]
    requires forall k | (y, k) in n :: (y, k) in m
    ensures Chain(n, y, w)
  {
    if w.head.Some? {
      forall k | 0 <= k <= w.head.value.generation ensures Linked(n, y, k) {
        assert Linked(m, y, k);
      }
    }
  }

  lemma ChangedKeepsChains(s: Store, t: Store, x: Id, op: Id)
    requires Chained(s) && Changed(s, t, x, op) && Chain(t.generations, x, t.workspaces[x])
    ensures Chained(t)
  {
    forall y | y in t.workspaces ensures Chain(t.generations, y, t.workspaces[y]) {
      if y != x {
        assert Chain(s.generations, y, s.workspaces[y]);
        ChainElsewhere(s.generations, t.generations, y, s.workspaces[y]);
      }
    }
  }

  lemma ChangedKeepsOperations(s: Store, t: Store, x: Id, op: Id)
    requires Changed(s, t, x, op) && (forall o | o in s.operations :: OperationSound(s, o))
    requires op in t.operations ==> OperationSound(t, op)
    ensures forall o | o in t.operations :: OperationSound(t, o)
  {
    forall o | o in t.operations ensures OperationSound(t, o) {
      if o != op {
        assert OperationSound(s, o);
      }
    }
  }

  lemma StillBusy(m: map<Id, Operation>, n: map<Id, Operation>, x: Id)
    requires Busy(m, x)
    requires forall op | op in m && PreparedOn(m[op], x) :: op in n && n[op] == m[op]
    ensures Busy(n, x)
  {
    var op :| op in m && PreparedOn(m[op], x);
    assert PreparedOn(n[op], x);
  }

  /** The one operation that changed is the only candidate on its Workspace. */
  lemma ChangedKeepsExclusive(s: Store, t: Store, x: Id, op: Id)
    requires Exclusive(s) && Changed(s, t, x, op) && op in t.operations && t.operations[op].request.workspace == x
    requires forall o | o in s.operations && PreparedOn(s.operations[o], x) :: o == op
    requires t.operations[op].state.Prepared? <==> t.workspaces[x].state.Snapshotting?
    requires t.operations[op].state.Prepared? ==> Open(t.operations[op], t.workspaces)
    ensures Exclusive(t)
  {
    forall o | o in t.operations && t.operations[o].state.Prepared? ensures Open(t.operations[o], t.workspaces) {
      if o != op {
        assert Open(s.operations[o], s.workspaces);
        assert PreparedOn(s.operations[o], s.operations[o].request.workspace);
      }
    }
    forall o, o', y | o in t.operations && o' in t.operations
                      && PreparedOn(t.operations[o], y) && PreparedOn(t.operations[o'], y)
      ensures o == o'
    {
      assert o != op ==> PreparedOn(s.operations[o], y);
      assert o' != op ==> PreparedOn(s.operations[o'], y);
    }
    forall y | y in t.workspaces && t.workspaces[y].state.Snapshotting? ensures Busy(t.operations, y) {
      if y == x {
        assert PreparedOn(t.operations[op], x);
      } else {
        assert Busy(s.operations, y);
        StillBusy(s.operations, t.operations, y);
      }
    }
  }

  /** Storage moves outside a snapshot leave every operation as it was. */
  lemma QuietKeepsExclusive(s: Store, t: Store, x: Id)
    requires Exclusive(s) && t.operations == s.operations
    requires s.workspaces.Keys <= t.workspaces.Keys
    requires forall y | y in s.workspaces && y != x :: t.workspaces[y] == s.workspaces[y]
    requires forall y | y in t.workspaces && y != x :: y in s.workspaces
    requires x in s.workspaces ==> !s.workspaces[x].state.Snapshotting?
    requires x in t.workspaces ==> !t.workspaces[x].state.Snapshotting?
    ensures Exclusive(t)
  {
    forall o | o in t.operations && t.operations[o].state.Prepared? ensures Open(t.operations[o], t.workspaces) {
      assert Open(s.operations[o], s.workspaces);
    }
  }

  lemma MoveKeeps(s: Store, x: Id, w: Workspace)
    requires Sound(s) && x in s.workspaces
    requires w.head == s.workspaces[x].head && w.session == s.workspaces[x].session
    requires !w.state.Provisioning? && !s.workspaces[x].state.Provisioning?
    requires !w.state.Snapshotting? && !s.workspaces[x].state.Snapshotting?
    ensures Sound(s.(workspaces := s.workspaces[x := w]))
    ensures Advanced(s, s.(workspaces := s.workspaces[x := w]))
  {
    var t := s.(workspaces := s.workspaces[x := w]);
    assert Changed(s, t, x, NONE);
    ChangedAdvances(s, t, x, NONE);
    assert Chain(s.generations, x, s.workspaces[x]);
    ChangedKeepsChains(s, t, x, NONE);
    assert NONE in t.operations ==> OperationSound(s, NONE);
    ChangedKeepsOperations(s, t, x, NONE);
    QuietKeepsExclusive(s, t, x);
  }

  lemma ProvisionKeepsChains(s: Store, x: Id, w: Workspace)
    requires Chained(s) && x !in s.workspaces && w.head.None? && w.state.Provisioning?
    ensures Chained(s.(workspaces := s.workspaces[x := w]))
  {
    var t := s.(workspaces := s.workspaces[x := w]);
    assert forall n :: (x, n) !in s.generations;
    forall y | y in t.workspaces ensures Chain(t.generations, y, t.workspaces[y]) {
      if y != x {
        assert Chain(s.generations, y, s.workspaces[y]);
      }
    }
  }

  lemma ProvisionKeepsOperations(s: Store, x: Id, w: Workspace)
    requires x !in s.workspaces && forall op | op in s.operations :: OperationSound(s, op)
    ensures var t := s.(workspaces := s.workspaces[x := w]); forall op | op in t.operations :: OperationSound(t, op)
  {
    var t := s.(workspaces := s.workspaces[x := w]);
    forall op | op in t.operations ensures OperationSound(t, op) {
      assert OperationSound(s, op);
    }
  }

  lemma ProvisionKeeps(s: Store, x: Id, session: Id)
    requires Sound(s)
    ensures Sound(ProvisionStep(s, x, session)) && Advanced(s, ProvisionStep(s, x, session))
  {
    var t := ProvisionStep(s, x, session);
    if t != s {
      var w := Workspace(session, Provisioning, NONE, None, 0);
      ProvisionKeepsChains(s, x, w);
      ProvisionKeepsOperations(s, x, w);
      QuietKeepsExclusive(s, t, x);
    }
  }

  lemma EmptyStarts(m: map<(Id, int), Generation>, x: Id, w: Workspace, g: Generation, after: Workspace)
    requires Chain(m, x, w) && w.head.None? && g.parent == None
    requires after.head == Some(Head(g.id, 0)) && !after.state.Provisioning?
    ensures Chain(m[(x, 0) := g], x, after)
  {
    assert Linked(m[(x, 0) := g], x, 0);
  }

  lemma EmptyRowsChanged(s: Store, t: Store, x: Id, w: Workspace, g: Generation)
    requires x in s.workspaces && s.workspaces[x].head.None? && (x, 0) !in s.generations
    requires w.session == s.workspaces[x].session
    requires t == s.(generations := s.generations[(x, 0) := g], workspaces := s.workspaces[x := w])
    ensures Changed(s, t, x, NONE)
  {
  }

  lemma EmptyRowsKeep(s: Store, t: Store, x: Id, w: Workspace, g: Generation)
    requires Sound(s) && x in s.workspaces && s.workspaces[x].head.None? && (x, 0) !in s.generations
    requires g.parent == None && w.head == Some(Head(g.id, 0)) && w.state.Ready? && w.session == s.workspaces[x].session
    requires t == s.(generations := s.generations[(x, 0) := g], workspaces := s.workspaces[x := w])
    ensures Sound(t) && Advanced(s, t)
  {
    EmptyRowsChanged(s, t, x, w, g);
    ChangedAdvances(s, t, x, NONE);
    EmptyKeepsChains(s, t, x, w, g);
    assert NONE in t.operations ==> OperationSound(s, NONE);
    ChangedKeepsOperations(s, t, x, NONE);
    QuietKeepsExclusive(s, t, x);
  }

  lemma EmptyKeepsChains(s: Store, t: Store, x: Id, w: Workspace, g: Generation)
    requires Chained(s) && x in s.workspaces && s.workspaces[x].head.None?
    requires g.parent == None && w.head == Some(Head(g.id, 0)) && w.state.Ready?
    requires t == s.(generations := s.generations[(x, 0) := g], workspaces := s.workspaces[x := w])
    requires Changed(s, t, x, NONE)
    ensures Chained(t) && s.workspaces[x].state.Provisioning?
  {
    assert Chain(s.generations, x, s.workspaces[x]);
    EmptyStarts(s.generations, x, s.workspaces[x], g, w);
    ChangedKeepsChains(s, t, x, NONE);
  }

  lemma EmptyKeeps(s: Store, x: Id, operation: Id, proof: Digest)
    requires Sound(s)
    ensures Sound(EmptyStep(s, x, operation, proof)) && Advanced(s, EmptyStep(s, x, operation, proof))
  {
    var t := EmptyStep(s, x, operation, proof);
    if t != s {
      assert Chain(s.generations, x, s.workspaces[x]);
      EmptyRowsKeep(s, t, x, t.workspaces[x], t.generations[(x, 0)]);
    }
  }

  // ---------------------------------------------------------------- prepare, abort, publish

  lemma PrepareKeeps(s: Store, r: Request)
    requires Sound(s) && Valid(r) && Owned(s, r) && r.operation !in s.operations
    requires s.workspaces[r.workspace].state.Ready? || s.workspaces[r.workspace].state.Attached?
    requires s.workspaces[r.workspace].head == Some(Head(r.parent, r.parentGeneration))
    ensures Sound(PrepareRows(s, r)) && Advanced(s, PrepareRows(s, r))
  {
    var t, x := PrepareRows(s, r), r.workspace;
    assert Changed(s, t, x, r.operation);
    ChangedAdvances(s, t, x, r.operation);
    assert Chain(s.generations, x, s.workspaces[x]);
    ChangedKeepsChains(s, t, x, r.operation);
    ChangedKeepsOperations(s, t, x, r.operation);
    forall o | o in s.operations ensures !PreparedOn(s.operations[o], x) {
      assert s.operations[o].state.Prepared? ==> Open(s.operations[o], s.workspaces);
    }
    ChangedKeepsExclusive(s, t, x, r.operation);
  }

  /** An open operation on a Workspace is the only one. */
  lemma OnlyOpen(s: Store, op: Id)
    requires Exclusive(s) && op in s.operations && s.operations[op].state.Prepared?
    ensures forall o | o in s.operations && PreparedOn(s.operations[o], s.operations[op].request.workspace) :: o == op
  {
    assert PreparedOn(s.operations[op], s.operations[op].request.workspace);
  }

  lemma AbortKeeps(s: Store, r: Request)
    requires Sound(s) && r.operation in s.operations
    requires s.operations[r.operation].request == r && s.operations[r.operation].state.Prepared?
    ensures r.workspace in s.workspaces
    ensures Sound(AbortRows(s, r)) && Advanced(s, AbortRows(s, r))
  {
    assert Open(s.operations[r.operation], s.workspaces);
    var t, x := AbortRows(s, r), r.workspace;
    assert OperationSound(s, r.operation);
    assert Changed(s, t, x, r.operation);
    ChangedAdvances(s, t, x, r.operation);
    assert Chain(s.generations, x, s.workspaces[x]);
    ChangedKeepsChains(s, t, x, r.operation);
    ChangedKeepsOperations(s, t, x, r.operation);
    OnlyOpen(s, r.operation);
    ChangedKeepsExclusive(s, t, x, r.operation);
  }

  /** A published generation extends its Workspace's chain by one. */
  lemma PublishExtends(m: map<(Id, int), Generation>, x: Id, w: Workspace, g: Generation, after: Workspace)
    requires Chain(m, x, w) && w.head.Some? && w.head.value.generation < MAX_INT64
    requires g.parent == w.head && !after.state.Provisioning?
    requires after.head == Some(Head(g.id, w.head.value.generation + 1))
    ensures Chain(m[(x, w.head.value.generation + 1) := g], x, after)
  {
    var top := w.head.value.generation + 1;
    var n := m[(x, top) := g];
    forall k | 0 <= k <= top ensures Linked(n, x, k) {
      if k < top {
        assert Linked(m, x, k);
      } else {
        assert (x, top - 1) in m && n[(x, top - 1)] == m[(x, top - 1)];
      }
    }
  }

  lemma PublishChanged(s: Store, r: Request, proof: Digest)
    requires Valid(r) && r.workspace in s.workspaces && r.operation in s.operations
    requires s.operations[r.operation].request == r && s.operations[r.operation].state.Prepared?
    requires s.workspaces[r.workspace].head == Some(Head(r.parent, r.parentGeneration))
    requires (r.workspace, r.parentGeneration + 1) !in s.generations
    ensures Changed(s, PublishRows(s, r, proof), r.workspace, r.operation)
  {
  }

  lemma PublishKeepsChains(s: Store, r: Request, proof: Digest)
    requires Chained(s) && Valid(r) && r.workspace in s.workspaces && r.operation in s.operations
    requires s.workspaces[r.workspace].head == Some(Head(r.parent, r.parentGeneration))
    requires !s.operations[r.operation].prior.Provisioning?
    requires Changed(s, PublishRows(s, r, proof), r.workspace, r.operation)
    ensures Chained(PublishRows(s, r, proof))
  {
    var t, x := PublishRows(s, r, proof), r.workspace;
    assert Chain(s.generations, x, s.workspaces[x]);
    PublishExtends(s.generations, x, s.workspaces[x], t.generations[(x, r.parentGeneration + 1)], t.workspaces[x]);
    ChangedKeepsChains(s, t, x, r.operation);
  }

  lemma PublishKeeps(s: Store, r: Request, proof: Digest)
    requires Sound(s) && Valid(r) && r.operation in s.operations
    requires s.operations[r.operation].request == r && s.operations[r.operation].state.Prepared?
    ensures r.workspace in s.workspaces
    ensures Sound(PublishRows(s, r, proof)) && Advanced(s, PublishRows(s, r, proof))
  {
    assert Open(s.operations[r.operation], s.workspaces);
    assert OperationSound(s, r.operation);
    var t, x := PublishRows(s, r, proof), r.workspace;
    assert (x, r.parentGeneration + 1) !in s.generations by {
      assert Chain(s.generations, x, s.workspaces[x]);
    }
    PublishChanged(s, r, proof);
    ChangedAdvances(s, t, x, r.operation);
    PublishKeepsChains(s, r, proof);
    ChangedKeepsOperations(s, t, x, r.operation);
    OnlyOpen(s, r.operation);
    ChangedKeepsExclusive(s, t, x, r.operation);
  }

  lemma ChangeKeeps(s: Store, m: Move, r: Request, proof: Digest, k: Checks)
    requires Sound(s)
    ensures Sound(ChangeStep(s, m, r, proof, k).store) && Advanced(s, ChangeStep(s, m, r, proof, k).store)
  {
    var t := ChangeStep(s, m, r, proof, k).store;
    if t == s {
    } else if r.operation !in s.operations {
      PrepareKeeps(s, r);
      assert t == PrepareRows(s, r);
    } else if m.Abort? {
      AbortKeeps(s, r);
      assert t == AbortRows(s, r);
    } else {
      PublishKeeps(s, r, proof);
      assert t == PublishRows(s, r, proof);
    }
  }

  lemma AttachKeeps(s: Store, x: Id, attachment: Id)
    requires Sound(s)
    ensures Sound(AttachStep(s, x, attachment)) && Advanced(s, AttachStep(s, x, attachment))
  {
    var t := AttachStep(s, x, attachment);
    if t != s {
      MoveKeeps(s, x, t.workspaces[x]);
    }
  }

  lemma DetachKeeps(s: Store, x: Id, attachment: Id)
    requires Sound(s)
    ensures Sound(DetachStep(s, x, attachment)) && Advanced(s, DetachStep(s, x, attachment))
  {
    var t := DetachStep(s, x, attachment);
    if t != s {
      MoveKeeps(s, x, t.workspaces[x]);
    }
  }

  lemma StepKeeps(s: Store, a: Action)
    requires Sound(s)
    ensures Sound(Step(s, a)) && Advanced(s, Step(s, a))
  {
    match a
    case Change(m, r, proof, k) => ChangeKeeps(s, m, r, proof, k);
    case PublishEmpty(x, op, proof) => EmptyKeeps(s, x, op, proof);
    case Provision(x, session) => ProvisionKeeps(s, x, session);
    case AttachForResume(x, attachment) => AttachKeeps(s, x, attachment);
    case DetachAbandoned(x, attachment) => DetachKeeps(s, x, attachment);
  }

  // ---------------------------------------------------------------- runs

  ghost predicate IsRun(states: seq<Store>, actions: seq<Action>) {
    && |states| == |actions| + 1
    && states[0] == EMPTY
    && forall i | 0 <= i < |actions| :: states[i + 1] == Step(states[i], actions[i])
  }

  /** In every reachable state the generations form chains, and a Workspace is SNAPSHOTTING
      exactly while its one PREPARED operation is open. */
  lemma {:induction false} RunSound(states: seq<Store>, actions: seq<Action>, i: nat)
    requires IsRun(states, actions) && i < |states|
    ensures Sound(states[i])
  {
    if i > 0 {
      RunSound(states, actions, i - 1);
      StepKeeps(states[i - 1], actions[i - 1]);
    }
  }

  lemma {:induction false} AdvancesChain(states: seq<Store>, i: nat, j: nat)
    requires i <= j < |states|
    requires forall k | i <= k < j :: Advanced(states[k], states[k + 1])
    ensures Advanced(states[i], states[j])
  {
    if i < j {
      AdvancesChain(states, i, j - 1);
      assert Advanced(states[j - 1], states[j - 1 + 1]);
      AdvancedTransitive(states[i], states[j - 1], states[j]);
    }
  }

  lemma RunAdvances(states: seq<Store>, actions: seq<Action>, i: nat, j: nat)
    requires IsRun(states, actions) && i <= j < |states|
    ensures Advanced(states[i], states[j])
  {
    forall k | i <= k < j ensures Advanced(states[k], states[k + 1]) {
      RunSound(states, actions, k);
      StepKeeps(states[k], actions[k]);
    }
    AdvancesChain(states, i, j);
  }

  /** In every reachable state a Workspace is SNAPSHOTTING if and only if some operation on
      it is PREPARED, and then it is one operation, on the present head. */
  lemma SnapshottingIffPrepared(states: seq<Store>, actions: seq<Action>, i: nat, x: Id)
    requires IsRun(states, actions) && i < |states| && x in states[i].workspaces
    ensures states[i].workspaces[x].state.Snapshotting? <==> Busy(states[i].operations, x)
    ensures forall op, op' | op in states[i].operations && op' in states[i].operations ::
              PreparedOn(states[i].operations[op], x) && PreparedOn(states[i].operations[op'], x) ==> op == op'
  {
    RunSound(states, actions, i);
    if Busy(states[i].operations, x) {
      var op :| op in states[i].operations && PreparedOn(states[i].operations[op], x);
      assert Open(states[i].operations[op], states[i].workspaces);
    }
  }

  /** A committed result replays identically after any number of later generations, and its
      generation row is still the one it published. */
  lemma CommittedReplays(states: seq<Store>, actions: seq<Action>, i: nat, j: nat, op: Id)
    requires IsRun(states, actions) && i <= j < |states|
    requires op in states[i].operations && states[i].operations[op].state.Committed?
    ensures op in states[j].operations && states[j].operations[op] == states[i].operations[op]
    ensures states[i].operations[op].proof.Some?
    ensures var r := states[i].operations[op].request;
            var key := (r.workspace, r.parentGeneration + 1);
            && Valid(r) && key in states[j].generations
            && states[j].generations[key]
               == Generation(op, Some(Head(r.parent, r.parentGeneration)), states[i].operations[op].proof.value)
    ensures j < |actions| && actions[j].Change? && actions[j].request == states[i].operations[op].request
            && actions[j].checks.owned && actions[j].checks.access ==>
              var replay := ChangeStep(states[j], actions[j].move, actions[j].request,
                actions[j].proof, actions[j].checks);
              && replay.store == states[j]
              && (replay.reply == Is(ResultOf(actions[j].request, Committed))
                  <==> actions[j].move.Prepare?
                       || (actions[j].move.Publish? && Some(actions[j].proof) == states[i].operations[op].proof))
  {
    RunSound(states, actions, i);
    RunSound(states, actions, j);
    RunAdvances(states, actions, i, j);
    assert OperationSound(states[i], op) && OperationSound(states[j], op);
    assert OperationAdvanced(states[i].operations[op], states[j].operations[op]);
  }

  /** An aborted operation stays aborted: only abort is answered, nothing is published. */
  lemma AbortedIsFinal(states: seq<Store>, actions: seq<Action>, i: nat, j: nat, op: Id)
    requires IsRun(states, actions) && i <= j < |states|
    requires op in states[i].operations && states[i].operations[op].state.Aborted?
    ensures op in states[j].operations && states[j].operations[op] == states[i].operations[op]
    ensures j < |actions| && actions[j].Change? && actions[j].request == states[i].operations[op].request ==>
              var replay := ChangeStep(states[j], actions[j].move, actions[j].request,
                actions[j].proof, actions[j].checks);
              && replay.store == states[j]
              && (actions[j].checks.owned && actions[j].checks.access ==>
                    replay.reply ==
                      if actions[j].move.Abort? then Is(ResultOf(actions[j].request, Aborted)) else Refused(Conflict))
  {
    RunSound(states, actions, i);
    RunSound(states, actions, j);
    RunAdvances(states, actions, i, j);
    assert OperationSound(states[i], op) && OperationSound(states[j], op);
    assert OperationAdvanced(states[i].operations[op], states[j].operations[op]);
  }

  /** The head at any moment is reached from the head at any earlier one: the earlier
      chain is a prefix of the later. */
  lemma EarlierChainIsPrefix(states: seq<Store>, actions: seq<Action>, i: nat, j: nat, x: Id, n: int)
    requires IsRun(states, actions) && i <= j < |states|
    requires x in states[i].workspaces && states[i].workspaces[x].head.Some?
    requires 0 <= n <= states[i].workspaces[x].head.value.generation
    ensures x in states[j].workspaces && states[j].workspaces[x].head.Some?
    ensures n <= states[j].workspaces[x].head.value.generation
    ensures (x, n) in states[i].generations && (x, n) in states[j].generations
    ensures states[j].generations[(x, n)] == states[i].generations[(x, n)]
  {
    RunSound(states, actions, i);
    RunAdvances(states, actions, i, j);
    assert Chain(states[i].generations, x, states[i].workspaces[x]);
    assert HeadAdvanced(states[i].workspaces[x].head, states[j].workspaces[x].head);
  }
}

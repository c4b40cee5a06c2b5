/** The compute store as the transactions that read and write its rows in order. A
    rejected transaction restores the rows it began with. */
module SandboxStore {
  import opened Common
  import opened SandboxCompute

  class Bindings {
    var sessions: map<Id, Session>
    var executions: map<Id, Execution>
    var attempts: map<Id, Attempt>
    var bindings: map<Id, Binding>
    var operations: map<(Id, nat), Operation>
    var cleanups: map<Id, Cleanup>
    var recoveries: map<Id, Recovery>
    var replacements: map<Id, Id>
    var commands: map<Id, Id>

    constructor ()
      ensures View() == EMPTY
    {
      sessions, executions, attempts, bindings := map[], map[], map[], map[];
      operations, cleanups, recoveries, replacements, commands := map[], map[], map[], map[], map[];
    }

    function View(): Store
      reads this
    {
      Store(sessions, executions, attempts, bindings, operations, cleanups, recoveries, replacements, commands)
    }

    /** Rollback. */
    method Restore(rows: Store)
      modifies this
      ensures View() == rows
    {
      sessions, executions, attempts, bindings := rows.sessions, rows.executions, rows.attempts, rows.bindings;
      operations, cleanups, recoveries := rows.operations, rows.cleanups, rows.recoveries;
      replacements, commands := rows.replacements, rows.commands;
    }

    method Reserve(r: Request, matches: bool, reference: Id, now: Time) returns (reply: Reply)
      modifies this
      ensures Outcome(View(), reply) == SandboxCompute.Reserve(old(View()), r, matches, reference, now)
    {
      reply := Rejected;
      if OperationUsed(View(), r.operation) {
        return;
      }
      if !Fence(View(), r, now) {
        return;
      }
      if !matches {
        return;
      }
      var id := r.scope.sandbox;
      if id in bindings {
        var previous := bindings[id];
        if previous.request != r {
          return;
        }
        if previous.revision > 0 {
          if (id, previous.revision) !in operations {
            return;
          }
          if operations[(id, previous.revision)].kind == Release {
            return;
          }
        }
        return Replayed(previous.revision);
      }
      if AttemptBound(View(), r.scope.attempt) || AcquireUsed(View(), r.operation) {
        return;
      }
      var row := NewBinding(r, NONE);
      if reference != NONE {
        if ReferenceUsed(View(), reference) {
          return;
        }
        row := row.(reference := reference);
      }
      bindings := bindings[id := row];
      reply := Accepted;
    }

    method BindReference(id: Id, reference: Id) returns (reply: Reply)
      modifies this
      ensures Outcome(View(), reply) == SandboxCompute.BindReference(old(View()), id, reference)
    {
      reply := Rejected;
      if reference == NONE || id !in bindings {
        return;
      }
      var b := bindings[id];
      if b.reference != NONE {
        if b.reference == reference {
          reply := Accepted;
        }
        return;
      }
      if ReferenceUsed(View(), reference) {
        return;
      }
      bindings := bindings[id := b.(reference := reference, version := b.version + 1)];
      reply := Accepted;
    }

    method MayBegin(id: Id, kind: Kind, op: Id, now: Time) returns (ok: bool)
      ensures ok <==> BeginAllowed(View(), id, kind, op, now)
    {
      if AcquireUsed(View(), op) {
        return false;
      }
      if id !in bindings || !Joined(View(), bindings[id].request.scope) {
        return false;
      }
      if !Fence(View(), bindings[id].request, now) {
        if kind != Release {
          return false;
        }
        return ReleaseAuthorized(View(), id, op);
      }
      return true;
    }

    /** The operation row and the binding's revision, mark and version. */
    method WriteOperation(id: Id, kind: Kind, op: Id)
      requires id in bindings
      modifies this`operations, this`bindings
      ensures View() == Journal(old(View()), id, op, kind)
    {
      var b := bindings[id];
      var revision := b.revision + 1;
      operations := operations[(id, revision) := Operation(op, kind)];
      b := b.(revision := revision);
      if kind !in b.marks {
        b := b.(marks := b.marks[kind := op]);
      }
      bindings := bindings[id := b.(version := b.version + 1)];
    }

    method BeginOperation(id: Id, kind: Kind, op: Id, now: Time) returns (reply: Reply)
      modifies this
      ensures Outcome(View(), reply) == SandboxCompute.BeginOperation(old(View()), id, kind, op, now)
    {
      reply := Rejected;
      var allowed := MayBegin(id, kind, op, now);
      if !allowed {
        return;
      }
      var revision := bindings[id].revision;
      if OperationUsed(View(), op) {
        if (id, revision) !in operations || operations[(id, revision)] != Operation(op, kind) {
          return;
        }
        return Replayed(revision);
      }
      if revision > 0 {
        if (id, revision) !in operations {
          return;
        }
        if operations[(id, revision)].kind == Release {
          return;
        }
      }
      if (id, revision + 1) in operations {
        return;
      }
      WriteOperation(id, kind, op);
      reply := Accepted;
    }

    method LoadCompute(id: Id, now: Time) returns (loaded: Loaded)
      ensures loaded == Load(View(), id, now)
    {
      if id !in bindings || !Joined(View(), bindings[id].request.scope) {
        return Missing;
      }
      var b := bindings[id];
      var intent := Intent(id, b.request, b.reference, b.revision, Fence(View(), b.request, now), KeepRunning,
                           b.request.operation, b.version, false);
      if b.revision == 0 && b.reference != NONE {
        if OwnsCleanup(View(), id) {
          var cleanup := cleanups[b.reference];
          if !cleanup.exact {
            return Corrupt;
          }
          intent := intent.(desired := MakeReleased, operation := cleanup.operation, authorized := true);
        }
      }
      if b.revision > 0 {
        if (id, b.revision) !in operations {
          return Missing;
        }
        var last := operations[(id, b.revision)];
        if last.kind != Release {
          return Unsupported;
        }
        intent := intent.(desired := MakeReleased, operation := last.id);
        intent := intent.(authorized := ReleaseAuthorized(View(), id, last.id));
      }
      return Intended(intent);
    }

    /** The cleanup, operation and binding rows of a release that the store itself decides on. */
    method WriteRelease(i: Intent, newId: Id) returns (ok: bool)
      requires i.sandbox in bindings && bindings[i.sandbox].revision == i.revision
      modifies this
      ensures ok <==> ReleaseInsertable(old(View()), i, newId)
      ensures ok ==> View() == InsertRelease(old(View()), i, newId)
      ensures !ok ==> View() == old(View())
    {
      if i.reference in cleanups || CleanupUsed(View(), newId) {
        return false;
      }
      var revision := i.revision + 1;
      if OperationUsed(View(), newId) || (i.sandbox, revision) in operations {
        return false;
      }
      var b := bindings[i.sandbox];
      if Release in b.marks {
        return false;
      }
      cleanups := cleanups[i.reference := Cleanup(newId, i.sandbox, i.request, true, Outstanding)];
      operations := operations[(i.sandbox, revision) := Operation(newId, Release)];
      bindings := bindings[i.sandbox :=
        b.(revision := revision, version := b.version + 1, marks := b.marks[Release := newId])];
      return true;
    }

    method RecordRecovery(i: Intent, code: Code, newId: Id) returns (ok: bool)
      requires i.sandbox in bindings && bindings[i.sandbox].revision == i.revision
      modifies this
      ensures ok <==> Recover(old(View()), i, code, newId).reply.Accepted?
      ensures ok ==> View() == Recover(old(View()), i, code, newId).store
    {
      var inserted := i.sandbox !in recoveries;
      if inserted {
        recoveries := recoveries[i.sandbox := Recovery(code, true)];
      }
      if i.desired.MakeReleased? {
        Settle(i.reference, i.operation, Quarantined);
        return true;
      }
      if !inserted {
        return true;
      }
      DegradeSession(i.request);
      if i.reference == NONE {
        return true;
      }
      ok := WriteRelease(i, newId);
    }

    method DegradeSession(r: Request)
      modifies this`sessions
      ensures View() == Degrade(old(View()), r)
    {
      if MayDegrade(View(), r) {
        var session := sessions[r.scope.session];
        sessions := sessions[r.scope.session :=
          session.(state := SessionState.Degraded, recovery := Some(SessionState.Active),
            version := session.version + 1)];
      }
    }

    method Settle(reference: Id, op: Id, state: CleanupState)
      modifies this`cleanups
      ensures View() == SettleCleanup(old(View()), reference, op, state)
    {
      if reference in cleanups {
        var cleanup := cleanups[reference];
        if cleanup.operation == op && cleanup.state == Outstanding {
          cleanups := cleanups[reference := cleanup.(state := state)];
        }
      }
    }

    method MayRecord(current: Intent, expected: Intent, o: Observation) returns (ok: bool)
      ensures ok <==> SameIntent(current, expected) && ObservationAllowed(current, expected, o)
    {
      if !SameIntent(current, expected) {
        return false;
      }
      if current.desired.KeepRunning? {
        if !current.current && !(o.recovery && o.code == FencedCompute && !expected.current) {
          return false;
        }
        return o.state != Released && o.state != Releasing;
      }
      if !current.authorized {
        return false;
      }
      return o.state == Released || o.state == Releasing || o.state == Unknown;
    }

    /** The writes of an admitted observation, rolled back when its recovery fails. */
    method WriteObservation(i: Intent, o: Observation, newId: Id) returns (reply: Reply)
      requires i.sandbox in bindings && bindings[i.sandbox].revision == i.revision
      modifies this
      ensures Outcome(View(), reply) == Apply(old(View()), i, o, newId)
    {
      var rows := View();
      var b := bindings[i.sandbox];
      bindings := bindings[i.sandbox := b.(state := o.state, reason := o.code, version := b.version + 1)];
      if o.recovery {
        var ok := RecordRecovery(i, o.code, newId);
        if !ok {
          Restore(rows);
          return Rejected;
        }
      } else if o.state == Released {
        Settle(i.reference, i.operation, Confirmed);
      }
      return Accepted;
    }

    method RecordCompute(expected: Intent, o: Observation, newId: Id, now: Time) returns (reply: Reply)
      modifies this
      ensures Outcome(View(), reply) == SandboxCompute.RecordCompute(old(View()), expected, o, newId, now)
    {
      if !ObservationValid(o) {
        return Rejected;
      }
      var loaded := LoadCompute(expected.sandbox, now);
      if !loaded.Intended? {
        return Rejected;
      }
      var ok := MayRecord(loaded.intent, expected, o);
      if !ok {
        return Rejected;
      }
      reply := WriteObservation(loaded.intent, o, newId);
    }

    method RecoverExpiredAgentd(id: Id, expired: bool, newId: Id, now: Time) returns (reply: Reply)
      modifies this
      ensures Outcome(View(), reply) == RecoverExpired(old(View()), id, expired, newId, now)
    {
      var loaded := LoadCompute(id, now);
      if !loaded.Intended? {
        return Rejected;
      }
      if loaded.intent.desired.MakeReleased? || !expired {
        return Accepted;
      }
      reply := WriteObservation(loaded.intent, EXPIRED, newId);
    }

    method SuspendRelease(id: Id, newId: Id, now: Time) returns (reply: Reply)
      modifies this
      ensures Outcome(View(), reply) == SandboxCompute.SuspendRelease(old(View()), id, newId, now)
    {
      var loaded := LoadCompute(id, now);
      if !loaded.Intended? {
        return Rejected;
      }
      var i := loaded.intent;
      var state := sessions[i.request.scope.session].state;
      if (state != Ready && state != Idle) || i.current || i.reference == NONE {
        return Rejected;
      }
      if i.desired.MakeReleased? {
        if !i.authorized {
          return Rejected;
        }
        return Accepted;
      }
      var ok := WriteRelease(i, newId);
      if !ok {
        return Rejected;
      }
      return Accepted;
    }

    /** Retire the lost Attempt and insert its successor; the tables' keys may refuse it. */
    method ReplaceAttempt(scope: Scope, n: Resources) returns (ok: bool)
      requires scope.attempt in attempts && n.attempt != scope.attempt
      modifies this`attempts
      ensures ok <==> n.attempt !in old(attempts) && forall a | a in old(attempts) ::
                        old(attempts)[a].execution == scope.execution ==> old(attempts)[a].ordinal != scope.ordinal + 1
      ensures ok ==> attempts == old(attempts)
                [scope.attempt := old(attempts)[scope.attempt].(state := Replaced, current := false)]
                [n.attempt := Attempt(scope.execution, scope.generation, scope.ordinal + 1, true, Pending, None)]
    {
      var attempt := attempts[scope.attempt];
      attempts := attempts[scope.attempt := attempt.(state := Interrupting)];
      attempts := attempts[scope.attempt := attempts[scope.attempt].(state := Replaced, current := false)];
      if n.attempt in attempts {
        return false;
      }
      if exists a | a in attempts ::
           attempts[a].execution == scope.execution && attempts[a].ordinal == scope.ordinal + 1 {
        return false;
      }
      attempts := attempts[n.attempt := Attempt(
        scope.execution, scope.generation, scope.ordinal + 1, true, Pending, None)];
      return true;
    }

    /** The rows of an admitted replacement, written in the order of the transaction. */
    method WriteReplacement(lost: Id, n: Resources, claimable: bool) returns (ok: bool)
      requires lost in bindings && Joined(View(), bindings[lost].request.scope) && lost in recoveries
      requires n.attempt != bindings[lost].request.scope.attempt
      modifies this
      ensures ok <==> claimable && RowsFree(old(View()), old(bindings)[lost].request, n)
      ensures ok ==> View() == ReplaceRows(old(View()), lost, n)
    {
      var was := bindings[lost].request;
      var scope, session := was.scope, sessions[was.scope.session];
      sessions := sessions[scope.session :=
        session.(state := SessionState.Active, recovery := None, version := session.version + 1)];
      ok := ReplaceAttempt(scope, n);
      if !ok {
        return;
      }
      if OperationUsed(View(), n.operation) {
        return false;
      }
      if n.sandbox in bindings || AttemptBound(View(), n.attempt) || AcquireUsed(View(), n.operation) {
        return false;
      }
      bindings := bindings[n.sandbox := NewBinding(Candidate(was, n), NONE)];
      replacements := replacements[lost := n.sandbox];
      if !claimable {
        return false;
      }
      recoveries := recoveries[lost := Recovery(NoCode, false)];
    }

    method ReplaceDeleted(lost: Id, n: Resources, quiet: bool, approved: bool, claimable: bool, now: Time)
      returns (reply: Reply)
      modifies this
      ensures Outcome(View(), reply)
              == SandboxCompute.ReplaceDeleted(old(View()), lost, n, quiet, approved, claimable, now)
    {
      reply := Rejected;
      var rows := View();
      if lost !in bindings || !Joined(View(), bindings[lost].request.scope) {
        return;
      }
      var was := bindings[lost].request;
      if lost in replacements {
        if ReplacementReplays(View(), lost, n, now) && approved {
          reply := Replayed(0);
        }
        return;
      }
      if !ReplacementSafe(View(), lost, quiet, now) || !ResourcesNew(was, n) || !approved {
        return;
      }
      var ok := WriteReplacement(lost, n, claimable);
      if !ok {
        Restore(rows);
        return;
      }
      reply := Accepted;
    }
  }
}

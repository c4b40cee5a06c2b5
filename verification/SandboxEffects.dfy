/** What each transaction of the compute store achieves, said by what can be loaded, passed
    or repeated afterwards, for all rows that it may meet. */
module SandboxEffects {
  import opened Common
  import opened SandboxCompute
  import J = SandboxJournal
  import L = SandboxLineage

  // ---------------------------------------------------------------- fence and intent

  /** Whoever passes the fence is the current Attempt of the running, undue Execution that
      its active Session names, in the same generation. */
  lemma PassingMeansCurrent(s: Store, r: Request, now: Time)
    requires Fence(s, r, now)
    ensures var x, e, a := r.scope.session, r.scope.execution, r.scope.attempt;
            && x in s.sessions && e in s.executions && a in s.attempts
            && s.sessions[x].state == SessionState.Active && s.sessions[x].current == Some(e)
            && s.executions[e].session == x && s.executions[e].state in {Materializing, Executing}
            && now < s.executions[e].deadline && r.deadline <= s.executions[e].deadline
            && s.attempts[a].execution == e && s.attempts[a].current && s.attempts[a].ordinal == r.scope.ordinal
            && s.attempts[a].state in {Pending, Acquiring, Starting, AttemptState.Running}
            && s.sessions[x].generation == s.attempts[a].generation == r.scope.generation
  {
  }

  /** A release is authorized exactly by a cleanup of the very acquisition and reference,
      that is not quarantined and whose operation is the one to run. */
  lemma AuthorizedMeansOwned(s: Store, id: Id, now: Time)
    requires Load(s, id, now).Intended? && Load(s, id, now).intent.desired.MakeReleased?
    ensures var i := Load(s, id, now).intent;
            i.authorized <==>
              && i.reference != NONE && i.reference in s.cleanups
              && s.cleanups[i.reference].owner == id && s.cleanups[i.reference].proof == s.bindings[id].request
              && s.cleanups[i.reference].state in {Outstanding, Confirmed}
              && s.cleanups[i.reference].operation == i.operation && s.cleanups[i.reference].exact
  {
  }

  // ---------------------------------------------------------------- reservation and operations

  /** A reserved sandbox is wanted running, by exactly its request, and the reservation replays. */
  lemma ReservedIsWanted(s: Store, r: Request, matches: bool, reference: Id, now: Time)
    requires Reserve(s, r, matches, reference, now).reply.Accepted?
    requires reference == NONE || reference !in s.cleanups
    ensures var t, id := Reserve(s, r, matches, reference, now).store, r.scope.sandbox;
            && Load(t, id, now) == Intended(
                 Intent(id, r, reference, 0, true, KeepRunning, r.operation, 0, false))
            && t.bindings[id].state == Requested && t.bindings[id].reason == NoCode
            && Reserve(t, r, matches, reference, now) == Outcome(t, Replayed(0))
            && Reserve(t, r, false, reference, now) == Outcome(t, Rejected)
  {
  }

  /** A bound reference is there for good: it repeats, and no other one is taken. */
  lemma BoundStays(s: Store, id: Id, reference: Id, other: Id)
    requires BindReference(s, id, reference).reply.Accepted?
    ensures var t := BindReference(s, id, reference).store;
            && id in s.bindings && id in t.bindings && t.bindings[id].reference == reference
            && t.bindings[id].state == s.bindings[id].state && t.bindings[id].request == s.bindings[id].request
  {
  }

  lemma BoundRepeats(s: Store, id: Id, reference: Id, other: Id)
    requires id in s.bindings && s.bindings[id].reference == reference != NONE
    ensures BindReference(s, id, reference) == Outcome(s, Accepted)
    ensures other != reference ==> BindReference(s, id, other) == Outcome(s, Rejected)
  {
  }

  /** An operation that was begun is the binding's last one, at the next revision, and
      beginning it again is answered with that revision. */
  lemma BegunReplays(s: Store, id: Id, kind: Kind, op: Id, now: Time)
    requires BeginOperation(s, id, kind, op, now).reply.Accepted?
    ensures var t := BeginOperation(s, id, kind, op, now).store;
            && id in s.bindings && id in t.bindings
            && t.bindings[id].revision == s.bindings[id].revision + 1
            && (id, t.bindings[id].revision) in t.operations
            && t.operations[(id, t.bindings[id].revision)].id == op
            && t.operations[(id, t.bindings[id].revision)].kind == kind
            && t.bindings[id].state == s.bindings[id].state
            && BeginOperation(t, id, kind, op, now) == Outcome(t, Replayed(t.bindings[id].revision))
  {
    var t := BeginOperation(s, id, kind, op, now).store;
    assert OperationUsed(t, op) by {
      assert t.operations[(id, t.bindings[id].revision)].id == op;
    }
    assert !AcquireUsed(t, op) by {
      assert forall x | x in t.bindings :: t.bindings[x].request == s.bindings[x].request;
    }
    assert Fence(t, t.bindings[id].request, now) == Fence(s, s.bindings[id].request, now);
  }

  // ---------------------------------------------------------------- observations

  /** An accepted observation that is no recovery is on record as it was made, once. */
  lemma ObservedIsRecorded(s: Store, expected: Intent, o: Observation, newId: Id, now: Time)
    requires RecordCompute(s, expected, o, newId, now).reply.Accepted? && !o.recovery
    ensures var t, id := RecordCompute(s, expected, o, newId, now).store, expected.sandbox;
            && id in s.bindings && id in t.bindings
            && t.bindings == s.bindings[id := t.bindings[id]]
            && t.bindings[id].state == o.state && t.bindings[id].reason == o.code
            && t.bindings[id].version == s.bindings[id].version + 1
            && t.bindings[id].reference == s.bindings[id].reference && t.bindings[id].request == s.bindings[id].request
            && t.sessions == s.sessions && t.recoveries == s.recoveries && t.operations == s.operations
            && RecordCompute(t, expected, o, newId, now) == Outcome(t, Rejected)
  {
  }

  /** Compute that was seen gone has its cleanup confirmed, unless it was before. */
  lemma ReleasedIsConfirmed(s: Store, expected: Intent, o: Observation, newId: Id, now: Time)
    requires RecordCompute(s, expected, o, newId, now).reply.Accepted? && o.state.Released?
    ensures var t, b := RecordCompute(s, expected, o, newId, now).store, s.bindings[expected.sandbox];
            && b.reference in s.cleanups && b.reference in t.cleanups
            && t.cleanups[b.reference].state == Confirmed
            && t.cleanups[b.reference].owner == expected.sandbox && t.cleanups[b.reference].proof == b.request
            && t.cleanups[b.reference].operation == expected.operation
            && t.cleanups == s.cleanups[b.reference := t.cleanups[b.reference]]
  {
    AuthorizedMeansOwned(s, expected.sandbox, now);
  }

  lemma QuarantineForbidsRelease(s: Store, id: Id, now: Time)
    requires id in s.bindings && s.bindings[id].reference in s.cleanups
    requires s.cleanups[s.bindings[id].reference].state == Quarantined
    ensures Load(s, id, now).Intended? ==> !Load(s, id, now).intent.authorized
  {
  }

  /** A recovery of compute that was being released quarantines an outstanding cleanup, so
      that it is not released again; a confirmed one stays confirmed. */
  lemma DoubtfulReleaseIsQuarantined(s: Store, expected: Intent, o: Observation, newId: Id, now: Time)
    requires RecordCompute(s, expected, o, newId, now).reply.Accepted? && o.recovery
    requires expected.desired.MakeReleased?
    ensures var t, b := RecordCompute(s, expected, o, newId, now).store, s.bindings[expected.sandbox];
            && b.reference in s.cleanups && b.reference in t.cleanups
            && (s.cleanups[b.reference].state == Outstanding ==> t.cleanups[b.reference].state == Quarantined)
            && (s.cleanups[b.reference].state == Confirmed ==> t.cleanups == s.cleanups)
            && t.operations == s.operations && t.sessions == s.sessions
            && t.bindings[expected.sandbox].reference == b.reference
  {
    AuthorizedMeansOwned(s, expected.sandbox, now);
  }

  /** The Session still works for this request, so that losing its compute concerns it. */
  predicate Concerned(s: Store, r: Request) {
    && r.scope.session in s.sessions && r.scope.execution in s.executions && r.scope.attempt in s.attempts
    && s.sessions[r.scope.session].state == SessionState.Active
    && s.sessions[r.scope.session].current == Some(r.scope.execution)
    && s.sessions[r.scope.session].generation == r.scope.generation
    && s.attempts[r.scope.attempt].current && s.executions[r.scope.execution].state in {Materializing, Executing}
  }

  /** The Session rows after a loss: the concerned Session is DEGRADED, to be recovered to
      ACTIVE, one version on; every other row is as it was. */
  ghost predicate SessionsAfterLoss(s: Store, t: Store, r: Request) {
    if Concerned(s, r) then
      var x := r.scope.session;
      t.sessions == s.sessions[x := s.sessions[x].(
        state := SessionState.Degraded, recovery := Some(SessionState.Active), version := s.sessions[x].version + 1)]
    else t.sessions == s.sessions
  }

  lemma DegradeConcerned(s: Store, r: Request)
    requires Joined(s, r.scope)
    ensures SessionsAfterLoss(s, Degrade(s, r), r)
  {
  }

  /** A first recovery of wanted compute opens a recovery with its code, degrades the
      Session it concerns, and puts an authorized release of bound compute on record. */
  ghost predicate Recovered(s: Store, t: Store, id: Id, o: Observation, newId: Id, now: Time)
    requires id in s.bindings
  {
    && id in t.bindings && t.bindings[id].state == Unknown && t.bindings[id].reason == o.code
    && t.recoveries == s.recoveries[id := Recovery(o.code, true)]
    && SessionsAfterLoss(s, t, s.bindings[id].request)
    && if s.bindings[id].reference == NONE then t.operations == s.operations && t.cleanups == s.cleanups
       else
         && Load(t, id, now).Intended? && Load(t, id, now).intent.desired.MakeReleased?
         && Load(t, id, now).intent.authorized && Load(t, id, now).intent.operation == newId
         && s.bindings[id].reference in t.cleanups
         && t.cleanups == s.cleanups[s.bindings[id].reference := t.cleanups[s.bindings[id].reference]]
         && t.cleanups[s.bindings[id].reference].state == Outstanding
  }

  /** The rows on which a recovery's release is written. */
  function AfterLoss(s: Store, i: Intent, o: Observation): Store
    requires i.sandbox in s.bindings
  {
    var seen := J.Seen(s, i.sandbox, o);
    Degrade(seen.(recoveries := seen.recoveries[i.sandbox := Recovery(o.code, true)]), i.request)
  }

  lemma AfterLossRows(s: Store, i: Intent, o: Observation, now: Time)
    requires Load(s, i.sandbox, now) == Intended(i)
    ensures var t := AfterLoss(s, i, o);
            && SessionsAfterLoss(s, t, i.request)
            && t.recoveries == s.recoveries[i.sandbox := Recovery(o.code, true)]
            && t.bindings == s.bindings[i.sandbox := Observed(s.bindings[i.sandbox], o)]
            && t.operations == s.operations && t.cleanups == s.cleanups
            && Joined(t, i.request.scope)
  {
    var seen := J.Seen(s, i.sandbox, o);
    DegradeConcerned(seen.(recoveries := seen.recoveries[i.sandbox := Recovery(o.code, true)]), i.request);
  }

  lemma ApplyWrites(s: Store, i: Intent, o: Observation, newId: Id, now: Time)
    requires Load(s, i.sandbox, now) == Intended(i) && i.desired.KeepRunning? && i.sandbox !in s.recoveries
    requires o.recovery && Apply(s, i, o, newId).reply.Accepted?
    ensures var t := AfterLoss(s, i, o);
            && i.sandbox in t.bindings
            && Apply(s, i, o, newId).store == if i.reference == NONE then t else InsertRelease(t, i, newId)
  {
  }

  lemma ApplyRecovers(s: Store, i: Intent, o: Observation, newId: Id, now: Time)
    requires Load(s, i.sandbox, now) == Intended(i) && i.desired.KeepRunning? && i.sandbox !in s.recoveries
    requires o.recovery && o.state == Unknown && Apply(s, i, o, newId).reply.Accepted?
    ensures Recovered(s, Apply(s, i, o, newId).store, i.sandbox, o, newId, now)
  {
    ApplyWrites(s, i, o, newId, now);
    AfterLossRows(s, i, o, now);
    if i.reference != NONE {
      ReleaseLoads(AfterLoss(s, i, o), i, newId, now);
    }
  }

  /** The rows of a release are an authorized intent to release. */
  lemma ReleaseLoads(s: Store, i: Intent, newId: Id, now: Time)
    requires i.sandbox in s.bindings && Joined(s, s.bindings[i.sandbox].request.scope)
    requires s.bindings[i.sandbox].reference == i.reference != NONE && s.bindings[i.sandbox].request == i.request
    ensures var t := InsertRelease(s, i, newId);
            && Load(t, i.sandbox, now).Intended? && Load(t, i.sandbox, now).intent.desired.MakeReleased?
            && Load(t, i.sandbox, now).intent.authorized && Load(t, i.sandbox, now).intent.operation == newId
            && t.cleanups == s.cleanups[i.reference := t.cleanups[i.reference]]
            && t.cleanups[i.reference].state == Outstanding
            && t.sessions == s.sessions && t.recoveries == s.recoveries
            && t.bindings[i.sandbox].state == s.bindings[i.sandbox].state
            && t.bindings[i.sandbox].reason == s.bindings[i.sandbox].reason
  {
    var t := InsertRelease(s, i, newId);
    assert ReleaseAuthorized(t, i.sandbox, newId);
  }

  lemma LossIsRecovered(s: Store, expected: Intent, o: Observation, newId: Id, now: Time)
    requires RecordCompute(s, expected, o, newId, now).reply.Accepted? && o.recovery
    requires expected.desired.KeepRunning? && expected.sandbox !in s.recoveries
    ensures Recovered(s, RecordCompute(s, expected, o, newId, now).store, expected.sandbox, o, newId, now)
  {
    ApplyRecovers(s, Load(s, expected.sandbox, now).intent, o, newId, now);
  }

  /** Expired credentials are a loss like any other, with their own code. */
  lemma ExpiryIsRecovered(s: Store, id: Id, newId: Id, now: Time)
    requires RecoverExpired(s, id, true, newId, now).reply.Accepted? && id !in s.recoveries
    requires Load(s, id, now).Intended? && Load(s, id, now).intent.desired.KeepRunning?
    ensures var o := Observation(Unknown, CredentialsExpired, false, true, false);
            Recovered(s, RecoverExpired(s, id, true, newId, now).store, id, o, newId, now)
  {
    ApplyRecovers(s, Load(s, id, now).intent, EXPIRED, newId, now);
  }

  /** A repeated recovery of wanted compute records the observation and nothing else. */
  lemma RepeatedLossIsOnlyRecorded(s: Store, i: Intent, o: Observation, newId: Id, now: Time)
    requires Load(s, i.sandbox, now) == Intended(i) && i.desired.KeepRunning? && i.sandbox in s.recoveries && o.recovery
    ensures Apply(s, i, o, newId) == Outcome(J.Seen(s, i.sandbox, o), Accepted)
  {
  }

  // ---------------------------------------------------------------- replacement

  /** On what grounds a loss is replaced: the Session is DEGRADED by it and still names its
      Execution, which has not started; the compute was seen gone and its own cleanup
      confirmed; the loss is on record as one; and nothing of the Execution has a harness
      or a command. */
  lemma ReplacementGrounds(s: Store, lost: Id, n: Resources, quiet: bool, approved: bool, claimable: bool, now: Time)
    requires ReplaceDeleted(s, lost, n, quiet, approved, claimable, now).reply.Accepted?
    ensures quiet && approved && claimable && lost in s.bindings && lost !in s.replacements
    ensures var b := s.bindings[lost];
            var x, e, a := b.request.scope.session, b.request.scope.execution, b.request.scope.attempt;
            && x in s.sessions && e in s.executions && a in s.attempts
            && s.sessions[x].state == SessionState.Degraded && s.sessions[x].recovery == Some(SessionState.Active)
            && s.sessions[x].current == Some(e) && s.executions[e].state == Materializing
            && now < s.executions[e].deadline && now < b.request.deadline
            && s.attempts[a].current && s.attempts[a].state in {Pending, Acquiring, Starting}
            && b.state == Released && b.reason == ComputeAbsent && b.reference in s.cleanups
            && s.cleanups[b.reference].state == Confirmed && s.cleanups[b.reference].owner == lost
            && s.cleanups[b.reference].proof == b.request
            && lost in s.recoveries && s.recoveries[lost].code == BoundComputeMissing
    ensures var e := s.bindings[lost].request.scope.execution;
            && (forall y | y in s.attempts && s.attempts[y].execution == e :: s.attempts[y].harness.None?)
            && (forall op | op in s.commands && s.commands[op] in s.bindings ::
                  s.bindings[s.commands[op]].request.scope.execution != e)
  {
  }

  /** The successor's request is the lost one with new identities and the next ordinal. */
  ghost predicate Succeeds(was: Request, r: Request, n: Resources) {
    && r.scope.session == was.scope.session && r.scope.execution == was.scope.execution
    && r.scope.generation == was.scope.generation && r.scope.ordinal == was.scope.ordinal + 1
    && r.scope.attempt == n.attempt && r.scope.sandbox == n.sandbox && r.operation == n.operation
    && r.attachment == n.attachment && r.bootstrap == n.bootstrap
    && r.deadline == was.deadline && r.rest == was.rest
  }

  /** An accepted replacement brings the Session back: its successor passes the fence at
      once and is wanted running, the loss is closed, and the same call replays. */
  lemma ReplacementRevives(s: Store, lost: Id, n: Resources, quiet: bool, approved: bool, claimable: bool, now: Time)
    requires ReplaceDeleted(s, lost, n, quiet, approved, claimable, now).reply.Accepted?
    ensures var t := ReplaceDeleted(s, lost, n, quiet, approved, claimable, now).store;
            && lost in s.bindings && n.sandbox in t.bindings
            && Succeeds(s.bindings[lost].request, t.bindings[n.sandbox].request, n)
            && Fence(t, t.bindings[n.sandbox].request, now)
            && t.bindings[n.sandbox].state == Requested && t.bindings[n.sandbox].reference == NONE
            && lost in t.recoveries && !t.recoveries[lost].open
            && forall quiet', claimable' ::
                 ReplaceDeleted(t, lost, n, quiet', true, claimable', now) == Outcome(t, Replayed(0))
  {
    L.ReplaceEffect(s, lost, n, quiet, approved, claimable, now);
    var t := ReplaceRows(s, lost, n);
    var r := t.bindings[n.sandbox].request;
    assert Succeeds(s.bindings[lost].request, r, n);
    assert t.sessions[r.scope.session].state == SessionState.Active;
    assert Fence(t, r, now);
    assert t.bindings[lost] == s.bindings[lost];
  }

  /** Only the Session concerned changes, and only its state, recovery and version. */
  lemma ReplacementKeepsSessions(
    s: Store, lost: Id, n: Resources, quiet: bool, approved: bool, claimable: bool, now: Time)
    requires ReplaceDeleted(s, lost, n, quiet, approved, claimable, now).reply.Accepted?
    ensures var t, x := ReplaceDeleted(s, lost, n, quiet, approved, claimable, now).store,
                        s.bindings[lost].request.scope.session;
            && x in s.sessions
            && t.sessions == s.sessions[x := s.sessions[x].(
                 state := SessionState.Active, recovery := None, version := s.sessions[x].version + 1)]
            && t.executions == s.executions && t.commands == s.commands && t.operations == s.operations
            && t.cleanups == s.cleanups && t.bindings[lost] == s.bindings[lost]
  {
  }
}

/** What every step of the compute protocol keeps about the operation journal: revisions
    are exactly 1..n, a release is last and final, and an identifier names either one
    acquisition or one lifecycle operation, on all paths that write the journal. */
module SandboxJournal {
  import opened Common
  import opened SandboxCompute

  // ---------------------------------------------------------------- the three ways rows change

  datatype Shape = Touch | Extend(id: Id) | Append(id: Id, op: Id, kind: Kind)

  /** Identity and journal position are untouched; the version tells any other change. */
  ghost predicate SameIdentity(b: Binding, c: Binding) {
    && b.request == c.request && b.revision == c.revision && b.marks == c.marks
    && (b.reference != NONE ==> c.reference == b.reference)
    && b.version <= c.version
    && (b.version == c.version ==> b == c)
  }

  ghost predicate Touched(s: Store, t: Store) {
    && t.operations == s.operations
    && t.bindings.Keys == s.bindings.Keys
    && forall id | id in s.bindings :: SameIdentity(s.bindings[id], t.bindings[id])
  }

  ghost predicate Extended(s: Store, t: Store, id: Id) {
    && t.operations == s.operations
    && id !in s.bindings
    && id in t.bindings
    && t.bindings == s.bindings[id := t.bindings[id]]
    && var b := t.bindings[id];
    && b == NewBinding(b.request, b.reference)
    && b.request.scope.sandbox == id
    && !OperationUsed(s, b.request.operation)
    && !AcquireUsed(s, b.request.operation)
    && !AttemptBound(s, b.request.scope.attempt)
  }

  ghost predicate Appended(s: Store, t: Store, id: Id, op: Id, kind: Kind) {
    && id in s.bindings
    && id in t.bindings
    && t.bindings == s.bindings[id := t.bindings[id]]
    && var b, c := s.bindings[id], t.bindings[id];
    && t.operations == s.operations[(id, b.revision + 1) := Operation(op, kind)]
    && c.request == b.request && c.revision == b.revision + 1 && c.version > b.version
    && (b.reference != NONE ==> c.reference == b.reference)
    && c.marks == (if kind in b.marks then b.marks else b.marks[kind := op])
    && !LastIsRelease(s, id)
    && !OperationUsed(s, op)
    && !AcquireUsed(s, op)
  }

  ghost predicate Fits(s: Store, t: Store, shape: Shape) {
    match shape
    case Touch => Touched(s, t)
    case Extend(id) => Extended(s, t, id)
    case Append(id, op, kind) => Appended(s, t, id, op, kind)
  }

  lemma ReserveShape(s: Store, r: Request, matches: bool, reference: Id, now: Time)
    requires Reserve(s, r, matches, reference, now).reply.Accepted?
    ensures Extended(s, Reserve(s, r, matches, reference, now).store, r.scope.sandbox)
  {
  }

  lemma TouchOne(s: Store, t: Store, id: Id)
    requires id in s.bindings && id in t.bindings && t.operations == s.operations
    requires t.bindings == s.bindings[id := t.bindings[id]] && SameIdentity(s.bindings[id], t.bindings[id])
    ensures Touched(s, t)
  {
  }

  lemma BindShape(s: Store, id: Id, reference: Id)
    ensures Touched(s, BindReference(s, id, reference).store)
  {
    if BindReference(s, id, reference).store != s {
      TouchOne(s, BindReference(s, id, reference).store, id);
    }
  }

  lemma BeginShape(s: Store, id: Id, kind: Kind, op: Id, now: Time)
    requires BeginOperation(s, id, kind, op, now).reply.Accepted?
    ensures Appended(s, BeginOperation(s, id, kind, op, now).store, id, op, kind)
  {
  }

  /** A release row written for an intent that was still to be kept running. */
  lemma InsertReleaseShape(s: Store, t: Store, i: Intent, newId: Id, now: Time)
    requires Load(s, i.sandbox, now) == Intended(i) && i.desired.KeepRunning? && Fresh(s, newId)
    requires t.operations == s.operations && i.sandbox in t.bindings
    requires t.bindings == s.bindings[i.sandbox := t.bindings[i.sandbox]]
    requires SameIdentity(s.bindings[i.sandbox], t.bindings[i.sandbox]) && ReleaseInsertable(t, i, newId)
    ensures Appended(s, InsertRelease(t, i, newId), i.sandbox, newId, Release)
  {
    assert !LastIsRelease(s, i.sandbox);
  }

  ghost predicate RecoveryAppends(s: Store, i: Intent) {
    i.desired.KeepRunning? && i.sandbox !in s.recoveries && i.reference != NONE
  }

  function Seen(s: Store, id: Id, o: Observation): Store
    requires id in s.bindings
  {
    s.(bindings := s.bindings[id := Observed(s.bindings[id], o)])
  }

  lemma RecoverTouches(s: Store, i: Intent, o: Observation, newId: Id)
    requires i.sandbox in s.bindings && !RecoveryAppends(s, i)
    ensures Touched(s, Recover(Seen(s, i.sandbox, o), i, o.code, newId).store)
  {
    var seen := Seen(s, i.sandbox, o);
    var t := Recover(seen, i, o.code, newId).store;
    var first := i.sandbox !in seen.recoveries;
    var noted := if first then seen.(recoveries := seen.recoveries[i.sandbox := Recovery(o.code, true)]) else seen;
    assert t.bindings == seen.bindings && t.operations == s.operations by {
      if i.desired.MakeReleased? {
        assert t == SettleCleanup(noted, i.reference, i.operation, Quarantined);
      } else if !first {
        assert t == noted;
      } else {
        assert t == Degrade(noted, i.request);
      }
    }
    TouchOne(s, t, i.sandbox);
  }

  lemma RecoverAppends(s: Store, i: Intent, o: Observation, newId: Id, now: Time)
    requires Load(s, i.sandbox, now) == Intended(i) && Fresh(s, newId) && RecoveryAppends(s, i)
    requires Recover(Seen(s, i.sandbox, o), i, o.code, newId).reply.Accepted?
    ensures Appended(s, Recover(Seen(s, i.sandbox, o), i, o.code, newId).store, i.sandbox, newId, Release)
  {
    var seen := Seen(s, i.sandbox, o);
    var noted := seen.(recoveries := seen.recoveries[i.sandbox := Recovery(o.code, true)]);
    var degraded := Degrade(noted, i.request);
    assert degraded.bindings == seen.bindings && degraded.operations == s.operations;
    InsertReleaseShape(s, degraded, i, newId, now);
  }

  lemma RecoverShape(s: Store, i: Intent, o: Observation, newId: Id, now: Time)
    requires Load(s, i.sandbox, now) == Intended(i) && Fresh(s, newId)
    requires Recover(Seen(s, i.sandbox, o), i, o.code, newId).reply.Accepted?
    ensures Fits(
      s, Recover(Seen(s, i.sandbox, o), i, o.code, newId).store,
      if RecoveryAppends(s, i) then Append(i.sandbox, newId, Release) else Touch)
  {
    if RecoveryAppends(s, i) {
      RecoverAppends(s, i, o, newId, now);
    } else {
      RecoverTouches(s, i, o, newId);
    }
  }

  lemma RecordShape(s: Store, expected: Intent, o: Observation, newId: Id, now: Time) returns (shape: Shape)
    requires Fresh(s, newId)
    ensures Fits(s, RecordCompute(s, expected, o, newId, now).store, shape)
  {
    shape := Touch;
    var t := RecordCompute(s, expected, o, newId, now);
    if t.reply.Accepted? {
      var i := Load(s, expected.sandbox, now).intent;
      if o.recovery {
        RecoverShape(s, i, o, newId, now);
        shape := if RecoveryAppends(s, i) then Append(i.sandbox, newId, Release) else Touch;
      } else {
        assert t.store.operations == s.operations;
        assert t.store.bindings == s.bindings[i.sandbox := Observed(s.bindings[i.sandbox], o)];
        TouchOne(s, t.store, i.sandbox);
      }
    }
  }

  lemma ExpiredShape(s: Store, id: Id, expired: bool, newId: Id, now: Time) returns (shape: Shape)
    requires Fresh(s, newId)
    ensures Fits(s, RecoverExpired(s, id, expired, newId, now).store, shape)
  {
    shape := Touch;
    var t := RecoverExpired(s, id, expired, newId, now);
    if t.store != s {
      var i := Load(s, id, now).intent;
      RecoverShape(s, i, EXPIRED, newId, now);
      shape := if RecoveryAppends(s, i) then Append(i.sandbox, newId, Release) else Touch;
    }
  }

  lemma SuspendShape(s: Store, id: Id, newId: Id, now: Time) returns (shape: Shape)
    requires Fresh(s, newId)
    ensures Fits(s, SuspendRelease(s, id, newId, now).store, shape)
  {
    shape := Touch;
    var t := SuspendRelease(s, id, newId, now);
    if t.store != s {
      InsertReleaseShape(s, s, Load(s, id, now).intent, newId, now);
      shape := Append(id, newId, Release);
    }
  }

  lemma ReplaceShape(s: Store, lost: Id, n: Resources, quiet: bool, approved: bool, claimable: bool, now: Time)
    requires ReplaceDeleted(s, lost, n, quiet, approved, claimable, now).reply.Accepted?
    ensures Extended(s, ReplaceDeleted(s, lost, n, quiet, approved, claimable, now).store, n.sandbox)
  {
  }

  lemma TouchNone(s: Store, t: Store)
    requires t.bindings == s.bindings && t.operations == s.operations
    ensures Touched(s, t)
  {
  }

  lemma ReserveCase(s: Store, r: Request, matches: bool, reference: Id, now: Time) returns (shape: Shape)
    ensures Fits(s, Reserve(s, r, matches, reference, now).store, shape)
  {
    shape := Touch;
    if Reserve(s, r, matches, reference, now).reply.Accepted? {
      ReserveShape(s, r, matches, reference, now);
      shape := Extend(r.scope.sandbox);
    } else {
      TouchNone(s, Reserve(s, r, matches, reference, now).store);
    }
  }

  lemma BeginCase(s: Store, id: Id, kind: Kind, op: Id, now: Time) returns (shape: Shape)
    ensures Fits(s, BeginOperation(s, id, kind, op, now).store, shape)
  {
    shape := Touch;
    if BeginOperation(s, id, kind, op, now).reply.Accepted? {
      BeginShape(s, id, kind, op, now);
      shape := Append(id, op, kind);
    } else {
      TouchNone(s, BeginOperation(s, id, kind, op, now).store);
    }
  }

  lemma ReplaceCase(s: Store, lost: Id, n: Resources, quiet: bool, approved: bool, claimable: bool, now: Time)
    returns (shape: Shape)
    ensures Fits(s, ReplaceDeleted(s, lost, n, quiet, approved, claimable, now).store, shape)
  {
    shape := Touch;
    if ReplaceDeleted(s, lost, n, quiet, approved, claimable, now).reply.Accepted? {
      ReplaceShape(s, lost, n, quiet, approved, claimable, now);
      shape := Extend(n.sandbox);
    } else {
      TouchNone(s, ReplaceDeleted(s, lost, n, quiet, approved, claimable, now).store);
    }
  }

  lemma StepShape(s: Store, a: Action) returns (shape: Shape)
    requires Enabled(s, a)
    ensures Fits(s, Step(s, a).store, shape)
  {
    shape := Touch;
    match a {
      case DoReserve(r, matches, reference, now) => shape := ReserveCase(s, r, matches, reference, now);
      case DoBind(id, reference) => BindShape(s, id, reference);
      case DoBegin(id, kind, op, now) => shape := BeginCase(s, id, kind, op, now);
      case DoRecord(expected, o, newId, now) => shape := RecordShape(s, expected, o, newId, now);
      case DoRecoverExpired(id, expired, newId, now) => shape := ExpiredShape(s, id, expired, newId, now);
      case DoSuspendRelease(id, newId, now) => shape := SuspendShape(s, id, newId, now);
      case DoReplace(lost, n, quiet, approved, claimable, now) =>
        shape := ReplaceCase(s, lost, n, quiet, approved, claimable, now);
      case DoDispatch(id, op, now) => TouchNone(s, Dispatch(s, id, op, now).store);
      case DoStoreHarness(id, harness, now) => TouchNone(s, StoreHarness(s, id, harness, now).store);
      case Elsewhere(e) => TouchNone(s, Happen(s, e));
    }
  }

  // ---------------------------------------------------------------- invariant

  /** Journalled revisions of a binding are exactly 1..n. */
  ghost predicate Numbered(s: Store) {
    && (forall key | key in s.operations :: key.0 in s.bindings && 1 <= key.1 <= s.bindings[key.0].revision)
    && (forall id, r | id in s.bindings && 1 <= r <= s.bindings[id].revision :: (id, r) in s.operations)
  }

  /** A release is the last operation, and is the one the binding row names. */
  ghost predicate ReleaseLast(s: Store) {
    && (forall key | key in s.operations && s.operations[key].kind.Release? ::
          key.0 in s.bindings && key.1 == s.bindings[key.0].revision)
    && (forall id | id in s.bindings :: Release in s.bindings[id].marks <==> LastIsRelease(s, id))
    && (forall id | id in s.bindings && Release in s.bindings[id].marks ::
          s.operations[(id, s.bindings[id].revision)].id == s.bindings[id].marks[Release])
  }

  /** No identifier is used twice, within or across acquisitions and operations. */
  ghost predicate IdentifiersDistinct(s: Store) {
    && (forall k, l | k in s.operations && l in s.operations && k != l :: s.operations[k].id != s.operations[l].id)
    && (forall id, k | id in s.bindings && k in s.operations :: s.bindings[id].request.operation != s.operations[k].id)
    && (forall x, y | x in s.bindings && y in s.bindings && x != y ::
          s.bindings[x].request.operation != s.bindings[y].request.operation
          && s.bindings[x].request.scope.attempt != s.bindings[y].request.scope.attempt)
    && (forall id | id in s.bindings :: s.bindings[id].request.scope.sandbox == id)
  }

  ghost predicate Journalled(s: Store) {
    Numbered(s) && ReleaseLast(s) && IdentifiersDistinct(s)
  }

  lemma TouchKeeps(s: Store, t: Store)
    requires Journalled(s) && Touched(s, t)
    ensures Journalled(t)
  {
    assert forall id | id in s.bindings :: SameIdentity(s.bindings[id], t.bindings[id]);
    assert forall id | id in s.bindings :: LastIsRelease(s, id) == LastIsRelease(t, id);
  }

  lemma ExtendKeepsNumbered(s: Store, t: Store, id: Id)
    requires Numbered(s) && Extended(s, t, id)
    ensures Numbered(t)
  {
  }

  lemma ExtendKeepsReleaseLast(s: Store, t: Store, id: Id)
    requires Numbered(s) && ReleaseLast(s) && Extended(s, t, id)
    ensures ReleaseLast(t)
  {
    forall x | x in t.bindings
      ensures Release in t.bindings[x].marks <==> LastIsRelease(t, x)
      ensures Release in t.bindings[x].marks ==>
                t.operations[(x, t.bindings[x].revision)].id == t.bindings[x].marks[Release]
    {
      if x != id {
        assert LastIsRelease(s, x) == LastIsRelease(t, x);
      }
    }
  }

  lemma ExtendKeepsDistinct(s: Store, t: Store, id: Id)
    requires IdentifiersDistinct(s) && Extended(s, t, id)
    ensures IdentifiersDistinct(t)
  {
    assert forall x | x in s.bindings :: x != id && t.bindings[x] == s.bindings[x];
  }

  lemma ExtendKeeps(s: Store, t: Store, id: Id)
    requires Journalled(s) && Extended(s, t, id)
    ensures Journalled(t)
  {
    ExtendKeepsNumbered(s, t, id);
    ExtendKeepsReleaseLast(s, t, id);
    ExtendKeepsDistinct(s, t, id);
  }

  lemma AppendKeepsNumbered(s: Store, t: Store, id: Id, op: Id, kind: Kind)
    requires Numbered(s) && Appended(s, t, id, op, kind)
    ensures Numbered(t)
  {
  }

  lemma AppendKeepsReleaseLast(s: Store, t: Store, id: Id, op: Id, kind: Kind)
    requires Numbered(s) && ReleaseLast(s) && Appended(s, t, id, op, kind)
    ensures ReleaseLast(t)
  {
    assert Release !in s.bindings[id].marks;
    forall x | x in t.bindings
      ensures Release in t.bindings[x].marks <==> LastIsRelease(t, x)
      ensures Release in t.bindings[x].marks ==>
                t.operations[(x, t.bindings[x].revision)].id == t.bindings[x].marks[Release]
    {
      if x != id {
        assert t.bindings[x] == s.bindings[x];
        assert LastIsRelease(s, x) == LastIsRelease(t, x);
      }
    }
    forall key | key in t.operations && t.operations[key].kind.Release?
      ensures key.0 in t.bindings && key.1 == t.bindings[key.0].revision
    {
      if key != (id, s.bindings[id].revision + 1) {
        assert key in s.operations && s.operations[key] == t.operations[key];
        assert key.1 == s.bindings[key.0].revision;
        assert LastIsRelease(s, key.0);
      }
    }
  }

  lemma AppendKeepsDistinct(s: Store, t: Store, id: Id, op: Id, kind: Kind)
    requires IdentifiersDistinct(s) && Appended(s, t, id, op, kind)
    ensures IdentifiersDistinct(t)
  {
    assert forall x | x in t.bindings :: t.bindings[x].request == s.bindings[x].request;
  }

  lemma AppendKeeps(s: Store, t: Store, id: Id, op: Id, kind: Kind)
    requires Journalled(s) && Appended(s, t, id, op, kind)
    ensures Journalled(t)
  {
    AppendKeepsNumbered(s, t, id, op, kind);
    AppendKeepsReleaseLast(s, t, id, op, kind);
    AppendKeepsDistinct(s, t, id, op, kind);
  }

  lemma StepKeepsJournalled(s: Store, a: Action)
    requires Journalled(s) && Enabled(s, a)
    ensures Journalled(Step(s, a).store)
  {
    var shape := StepShape(s, a);
    match shape
    case Touch => TouchKeeps(s, Step(s, a).store);
    case Extend(id) => ExtendKeeps(s, Step(s, a).store, id);
    case Append(id, op, kind) => AppendKeeps(s, Step(s, a).store, id, op, kind);
  }

  // ---------------------------------------------------------------- progress

  /** Rows are never lost or rewritten: a binding changes only with its version, and the
      journal only grows. */
  ghost predicate Advanced(s: Store, t: Store) {
    && s.bindings.Keys <= t.bindings.Keys
    && s.operations.Keys <= t.operations.Keys
    && (forall key | key in s.operations :: t.operations[key] == s.operations[key])
    && (forall id | id in s.bindings :: BindingAdvanced(s.bindings[id], t.bindings[id]))
    && (forall id | LastIsRelease(s, id) :: LastIsRelease(t, id) && t.bindings[id].revision == s.bindings[id].revision)
  }

  ghost predicate BindingAdvanced(b: Binding, c: Binding) {
    && b.request == c.request
    && (b.reference != NONE ==> c.reference == b.reference)
    && b.revision <= c.revision
    && b.version <= c.version
    && (b.version == c.version ==> b == c)
  }

  lemma TouchAdvances(s: Store, t: Store)
    requires Touched(s, t)
    ensures Advanced(s, t)
  {
    forall id | id in s.bindings
      ensures BindingAdvanced(s.bindings[id], t.bindings[id])
      ensures LastIsRelease(s, id) ==> LastIsRelease(t, id) && t.bindings[id].revision == s.bindings[id].revision
    {
      assert SameIdentity(s.bindings[id], t.bindings[id]);
    }
  }

  lemma ExtendAdvances(s: Store, t: Store, id: Id)
    requires Extended(s, t, id)
    ensures Advanced(s, t)
  {
  }

  lemma AppendAdvances(s: Store, t: Store, id: Id, op: Id, kind: Kind)
    requires Numbered(s) && Appended(s, t, id, op, kind)
    ensures Advanced(s, t)
  {
    assert (id, s.bindings[id].revision + 1) !in s.operations;
  }

  lemma FitsAdvances(s: Store, t: Store, shape: Shape)
    requires Journalled(s) && Fits(s, t, shape)
    ensures Advanced(s, t)
  {
    match shape
    case Touch => TouchAdvances(s, t);
    case Extend(id) => ExtendAdvances(s, t, id);
    case Append(id, op, kind) => AppendAdvances(s, t, id, op, kind);
  }

  lemma StepAdvances(s: Store, a: Action)
    requires Journalled(s) && Enabled(s, a)
    ensures Advanced(s, Step(s, a).store)
  {
    var shape := StepShape(s, a);
    FitsAdvances(s, Step(s, a).store, shape);
  }

  lemma AdvancedTransitive(s: Store, t: Store, u: Store)
    requires Advanced(s, t) && Advanced(t, u)
    ensures Advanced(s, u)
  {
    forall id | id in s.bindings ensures BindingAdvanced(s.bindings[id], u.bindings[id]) {
      assert BindingAdvanced(s.bindings[id], t.bindings[id]);
      assert BindingAdvanced(t.bindings[id], u.bindings[id]);
    }
  }

  // ---------------------------------------------------------------- whole runs

  /** Any interleaving of the protocol's transactions with arbitrary Sessions and Executions. */
  ghost predicate IsRun(states: seq<Store>, actions: seq<Action>) {
    && |states| == |actions| + 1
    && states[0] == EMPTY
    && forall i | 0 <= i < |actions| ::
         Enabled(states[i], actions[i]) && states[i + 1] == Step(states[i], actions[i]).store
  }

  /** In every reachable state revisions are exactly 1..n, releases come last and no
      identifier is both an acquisition and a lifecycle operation. */
  lemma {:induction false} RunJournalled(states: seq<Store>, actions: seq<Action>, i: nat)
    requires IsRun(states, actions) && i < |states|
    ensures Journalled(states[i])
  {
    if i > 0 {
      RunJournalled(states, actions, i - 1);
      StepKeepsJournalled(states[i - 1], actions[i - 1]);
    }
  }

  lemma {:induction false} AdvancesChain(states: seq<Store>, i: nat, j: nat)
    requires i <= j < |states|
    requires forall k | i <= k < j :: Advanced(states[k], states[k + 1])
    ensures Advanced(states[i], states[j])
  {
    if i < j {
      AdvancesChain(states, i, j - 1);
      assert Advanced(states[j - 1], states[j - 1 + 1]);
      AdvancedTransitive(states[i], states[j - 1], states[j]);
    }
  }

  lemma RunAdvances(states: seq<Store>, actions: seq<Action>, i: nat, j: nat)
    requires IsRun(states, actions) && i <= j < |states|
    ensures Advanced(states[i], states[j])
  {
    forall k | i <= k < j ensures Advanced(states[k], states[k + 1]) {
      RunJournalled(states, actions, k);
      StepAdvances(states[k], actions[k]);
    }
    AdvancesChain(states, i, j);
  }

  lemma ReleaseStays(states: seq<Store>, actions: seq<Action>, i: nat, j: nat, id: Id)
    requires IsRun(states, actions) && i <= j < |states| && LastIsRelease(states[i], id)
    ensures LastIsRelease(states[j], id) && states[j].bindings[id].revision == states[i].bindings[id].revision
    ensures LastOperation(states[j], id) == LastOperation(states[i], id)
  {
    RunAdvances(states, actions, i, j);
  }

  function LastOperation(s: Store, id: Id): Operation
    requires LastIsRelease(s, id)
  {
    s.operations[(id, s.bindings[id].revision)]
  }

  lemma ReleasedReservesNothing(s: Store, r: Request, matches: bool, reference: Id, now: Time)
    requires LastIsRelease(s, r.scope.sandbox)
    ensures Reserve(s, r, matches, reference, now).reply.Rejected?
  {
  }

  lemma ReleasedBeginsNothing(s: Store, id: Id, kind: Kind, op: Id, now: Time)
    requires LastIsRelease(s, id)
    ensures var reply := BeginOperation(s, id, kind, op, now).reply;
            reply.Rejected? || (reply.Replayed? && op == LastOperation(s, id).id && kind.Release?)
  {
  }

  /** A journalled release is final: the binding never gets another operation, its
      acquisition is never replayed, and only the release itself may be repeated. */
  lemma ReleaseIsFinal(states: seq<Store>, actions: seq<Action>, i: nat, j: nat, id: Id)
    requires IsRun(states, actions) && i <= j < |actions| && LastIsRelease(states[i], id)
    ensures actions[j].DoReserve? && actions[j].request.scope.sandbox == id ==>
              Step(states[j], actions[j]).reply.Rejected?
    ensures actions[j].DoBegin? && actions[j].id == id ==>
              || Step(states[j], actions[j]).reply.Rejected?
              || (Step(states[j], actions[j]).reply.Replayed? && actions[j].op == LastOperation(states[i], id).id)
  {
    ReleaseStays(states, actions, i, j, id);
    match actions[j]
    case DoReserve(r, matches, reference, now) =>
      if r.scope.sandbox == id {
        ReleasedReservesNothing(states[j], r, matches, reference, now);
      }
    case DoBegin(x, kind, op, now) =>
      if x == id {
        ReleasedBeginsNothing(states[j], id, kind, op, now);
      }
    case _ =>
  }

}

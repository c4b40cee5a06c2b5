/** Reconcile as one worker runs it: load, ask the provider, record. */
module SandboxReconciler {
  import opened Common
  import opened SandboxCompute
  import opened SandboxWorkers
  import SandboxStore

  /** Everything one pass hears from outside: authority, provider and clocks. */
  datatype Script = Script(
    permitted: bool, reading: Reading, acquisition: Acquisition, failure: Option<ProviderError>, confirmation: Reading,
    newId: Id, loadedAt: Time, recordedAt: Time)

  /** A lone worker's provider calls, as steps of the worker protocol; a step that does not
      apply in the worker's phase changes nothing. */
  function Calls(s: Store, started: map<Id, Worker>, x: Script): map<Id, Worker> {
    var read := WorkersAfter(System(s, started), Read(0, x.reading));
    var acquired := WorkersAfter(System(s, read), Acquire(0, x.acquisition));
    var released := WorkersAfter(System(s, acquired), CallRelease(0, x.failure));
    WorkersAfter(System(s, released), Confirm(0, x.confirmation))
  }

  function Asked(s: Store, id: Id, x: Script): map<Id, Worker> {
    Calls(s, Begin(System(s, map[]), 0, id, x.permitted, x.loadedAt).workers, x)
  }

  /** What the calls of a worker end in, by the phase it opened with. */
  function Heard(i: Intent, opening: Phase, x: Script): Phase {
    match opening
    case Reads =>
      Records(if MustAcquire(i, x.reading) then AcquireSeen(i, x.acquisition) else RunningSeen(i, x.reading))
    case Releases => Records(if x.failure.Some? then FailureSeen(x.failure.value) else ReleaseSeen(x.confirmation))
    case _ => opening
  }

  lemma CallsOutcome(s: Store, i: Intent, opening: Phase, x: Script)
    requires opening.Reads? || opening.Releases? || opening.Records?
    ensures Calls(s, map[0 := Worker(i, opening)], x) == map[0 := Worker(i, Heard(i, opening, x))]
  {
    var started := map[0 := Worker(i, opening)];
    var read := WorkersAfter(System(s, started), Read(0, x.reading));
    assert opening.Reads? ==>
      read == map[0 := Worker(i, if MustAcquire(i, x.reading) then Acquires else Heard(i, opening, x))];
    assert !opening.Reads? ==> read == started;
    var acquired := WorkersAfter(System(s, read), Acquire(0, x.acquisition));
    assert opening.Reads? ==> acquired == map[0 := Worker(i, Heard(i, opening, x))];
    assert !opening.Reads? ==> acquired == started;
    var released := WorkersAfter(System(s, acquired), CallRelease(0, x.failure));
    assert opening.Releases? ==>
      released == map[0 := Worker(i, if x.failure.None? then Confirms else Heard(i, opening, x))];
    assert !opening.Releases? ==> released == acquired;
  }

  lemma AskedNothing(s: Store, x: Script)
    ensures Calls(s, map[], x) == map[]
  {
  }

  class Reconciler {
    const store: SandboxStore.Bindings

    constructor (bindings: SandboxStore.Bindings)
      ensures store == bindings
    {
      store := bindings;
    }

    method Running(i: Intent, x: Script) returns (o: Observation)
      ensures o == if MustAcquire(i, x.reading) then AcquireSeen(i, x.acquisition) else RunningSeen(i, x.reading)
      ensures !o.state.Released? && !o.state.Releasing? && (o.recovery ==> o.state.Unknown?)
      ensures o.code == BoundComputeMissing <==> x.reading == Failure(NotFound) && i.reference != NONE
      ensures o.state.ComputeReady? ==> x.reading.Found? && x.reading.state.ComputeReady? && x.reading.verified
    {
      match x.reading
      case Failure(e) =>
        if e == NotFound {
          if i.reference != NONE {
            return Recovering(BoundComputeMissing);
          }
          if i.operation != i.request.operation {
            return Recovering(AcquireIdentityMismatch);
          }
          match x.acquisition {
            case NotAcquired(refusal) => return FailureSeen(refusal);
            case Handle(sandbox, reference) =>
              if sandbox != i.request.scope.sandbox || reference == NONE {
                return Recovering(ProviderIdentityMismatch);
              }
              return Plain(Acquired, AcquireAccepted);
          }
        }
        return FailureSeen(e);
      case Found(sandbox, reference, state, verified) =>
        if sandbox != i.request.scope.sandbox || (i.reference != NONE && reference != i.reference) {
          return Recovering(ProviderIdentityMismatch);
        }
        match state {
          case ComputeReady =>
            if !verified {
              return Recovering(EffectiveStateUnverified);
            }
            return Observation(ComputeReady, ComputeIsReady, true, false, true);
          case Requested | Acquired | Resuming => return Plain(state, ComputePending);
          case Unknown => return Plain(Unknown, ProviderUnknown);
          case _ => return Recovering(ComputeUnexpectedState);
        }
    }

    method LetGo(x: Script) returns (o: Observation)
      ensures o == if x.failure.Some? then FailureSeen(x.failure.value) else ReleaseSeen(x.confirmation)
      ensures o.state.Released? <==> x.failure.None? && x.confirmation == Failure(NotFound)
    {
      if x.failure.Some? {
        return FailureSeen(x.failure.value);
      }
      match x.confirmation
      case Failure(e) =>
        if e == NotFound {
          return Observation(Released, ComputeAbsent, true, false, false);
        }
        return FailureSeen(e);
      case Found(_, _, _, _) => return Plain(Releasing, ReleasePending);
    }

    /** One uninterrupted pass is exactly the lone worker's steps and its one commit. */
    method Reconcile(id: Id, x: Script) returns (reply: Reply)
      modifies store
      ensures var s, workers := old(store.View()), Asked(old(store.View()), id, x);
              Outcome(store.View(), reply)
              == if Recording(System(s, workers), 0) then Commit(System(s, workers), 0, x.newId, x.recordedAt)
                 else Outcome(s, Rejected)
    {
      reply := Rejected;
      AskedNothing(store.View(), x);
      var loaded := store.LoadCompute(id, x.loadedAt);
      if !loaded.Intended? {
        return;
      }
      var i := loaded.intent;
      if i.request.scope.sandbox != id {
        return;
      }
      ghost var opening := Opening(i, x.permitted);
      var observed: Observation;
      match i.desired {
        case KeepRunning =>
          if !i.current {
            observed := Recovering(FencedCompute);
          } else {
            if !x.permitted {
              return;
            }
            observed := Running(i, x);
          }
        case MakeReleased =>
          if !i.authorized {
            return;
          }
          observed := LetGo(x);
      }
      assert Heard(i, opening.value, x) == Records(observed);
      CallsOutcome(store.View(), i, opening.value, x);
      reply := store.RecordCompute(i, observed, x.newId, x.recordedAt);
    }
  }
}

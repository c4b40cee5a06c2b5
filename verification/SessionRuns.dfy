/** Suspend and resume over whole runs: what a committed resume restores, and that every
    resume operation has one outcome. */
module SessionRuns {
  import opened Common
  import opened SessionJournal

  // ---------------------------------------------------------------- invariant

  ghost predicate RowSound(s: Store, op: Id)
    requires op in s.resumes
  {
    var row := s.resumes[op];
    && row.intent.request.operation == op
    && row.state == row.result.progress
    && row.intent.version == row.intent.request.expected + 1
    && ResumeValid(row.intent.request)
    && (row.state.Restored? ==> row.state.state == row.intent.target)
    && (row.cleaned ==> row.state.Abandoned?)
    && (row.observation.Some? <==> row.state.Restored?)
    && row.intent.request.session in s.sessions
    && row.intent.version <= s.sessions[row.intent.request.session].version
  }

  ghost predicate BoundarySound(s: Store, op: Id)
    requires op in s.suspends
  {
    var b := s.suspends[op];
    && b.request.operation == op && SuspendValid(b.request)
    && b.version == b.request.expected + 1
    && b.request.session in s.sessions
    && b.version <= s.sessions[b.request.session].version
  }

  /** A Session version is left at most once by a suspend, and at most once by a resume. */
  ghost predicate BoundariesApart(s: Store) {
    && (forall x, y | x in s.suspends && y in s.suspends && x != y ::
          s.suspends[x].request.session == s.suspends[y].request.session ==>
            s.suspends[x].request.expected != s.suspends[y].request.expected)
    && (forall x, y | x in s.resumes && y in s.resumes && x != y ::
          s.resumes[x].intent.request.session == s.resumes[y].intent.request.session ==>
            s.resumes[x].intent.request.expected != s.resumes[y].intent.request.expected)
  }

  ghost predicate Sound(s: Store) {
    && (forall op | op in s.resumes :: RowSound(s, op))
    && (forall op | op in s.suspends :: BoundarySound(s, op))
    && BoundariesApart(s)
  }

  // ---------------------------------------------------------------- progress

  ghost predicate SessionAdvanced(v: Session, w: Session) {
    v.version <= w.version && (v.version == w.version ==> v == w)
  }

  /** A row leaves RESUMING once; afterwards only its cleaned mark can be set. */
  ghost predicate RowAdvanced(a: Row, b: Row) {
    && b.intent == a.intent
    && (a.state.Resuming? || b == a || b == a.(cleaned := true))
    && (a.cleaned ==> b.cleaned)
  }

  ghost predicate Advanced(s: Store, t: Store) {
    && s.sessions.Keys <= t.sessions.Keys
    && (forall x | x in s.sessions :: SessionAdvanced(s.sessions[x], t.sessions[x]))
    && s.suspends.Keys <= t.suspends.Keys
    && (forall op | op in s.suspends :: t.suspends[op] == s.suspends[op])
    && s.resumes.Keys <= t.resumes.Keys
    && (forall op | op in s.resumes :: RowAdvanced(s.resumes[op], t.resumes[op]))
  }

  lemma AdvancedTransitive(s: Store, t: Store, u: Store)
    requires Advanced(s, t) && Advanced(t, u)
    ensures Advanced(s, u)
  {
    forall x | x in s.sessions ensures SessionAdvanced(s.sessions[x], u.sessions[x]) {
      assert SessionAdvanced(s.sessions[x], t.sessions[x]) && SessionAdvanced(t.sessions[x], u.sessions[x]);
    }
    forall op | op in s.resumes ensures RowAdvanced(s.resumes[op], u.resumes[op]) {
      assert RowAdvanced(s.resumes[op], t.resumes[op]) && RowAdvanced(t.resumes[op], u.resumes[op]);
    }
  }

  /** The shared shape of every step: at most one Session, suspend row and resume row change. */
  ghost predicate Changed(s: Store, t: Store, x: Id, suspend: Id, resume: Id) {
    && s.sessions.Keys <= t.sessions.Keys
    && (forall y | y in t.sessions && y != x :: y in s.sessions && t.sessions[y] == s.sessions[y])
    && (x in s.sessions ==> SessionAdvanced(s.sessions[x], t.sessions[x]))
    && s.suspends.Keys <= t.suspends.Keys
    && (forall op | op in s.suspends :: t.suspends[op] == s.suspends[op])
    && (forall op | op in t.suspends && op != suspend :: op in s.suspends)
    && s.resumes.Keys <= t.resumes.Keys
    && (forall op | op in t.resumes && op != resume :: op in s.resumes && t.resumes[op] == s.resumes[op])
    && (resume in s.resumes ==> RowAdvanced(s.resumes[resume], t.resumes[resume]))
  }

  lemma ChangedAdvances(s: Store, t: Store, x: Id, suspend: Id, resume: Id)
    requires Changed(s, t, x, suspend, resume)
    ensures Advanced(s, t)
  {
  }

  /** Rows that a step did not touch stay sound; versions only rise. */
  lemma ChangedKeepsRows(s: Store, t: Store, x: Id, suspend: Id, resume: Id)
    requires Sound(s) && Changed(s, t, x, suspend, resume)
    ensures forall op | op in t.resumes && op != resume :: RowSound(t, op)
    ensures forall op | op in s.suspends :: BoundarySound(t, op)
  {
    ChangedAdvances(s, t, x, suspend, resume);
    forall op | op in t.resumes && op != resume ensures RowSound(t, op) {
      assert RowSound(s, op);
      var y := s.resumes[op].intent.request.session;
      assert SessionAdvanced(s.sessions[y], t.sessions[y]);
    }
    forall op | op in s.suspends ensures BoundarySound(t, op) {
      assert BoundarySound(s, op);
      assert SessionAdvanced(s.sessions[s.suspends[op].request.session], t.sessions[s.suspends[op].request.session]);
    }
  }

  /** A step that adds no suspend or resume row, and leaves its one resume row sound. */
  lemma ChangedKeepsSound(s: Store, t: Store, x: Id, resume: Id)
    requires Sound(s) && Changed(s, t, x, NONE, resume)
    requires t.suspends.Keys == s.suspends.Keys && t.resumes.Keys == s.resumes.Keys
    requires resume in t.resumes ==> RowSound(t, resume)
    ensures Sound(t)
  {
    ChangedKeepsRows(s, t, x, NONE, resume);
    assert forall op | op in s.resumes :: t.resumes[op].intent == s.resumes[op].intent;
  }

  lemma SuspendKeeps(s: Store, r: Request, k: Checks)
    requires Sound(s)
    ensures Sound(SuspendStep(s, r, k).store) && Advanced(s, SuspendStep(s, r, k).store)
  {
    var t := SuspendStep(s, r, k).store;
    if t != s {
      assert Changed(s, t, r.session, r.operation, NONE) by {
        assert t.resumes == s.resumes;
      }
      ChangedAdvances(s, t, r.session, r.operation, NONE);
      ChangedKeepsSuspendable(s, t, r);
    }
  }

  lemma ChangedKeepsSuspendable(s: Store, t: Store, r: Request)
    requires Sound(s) && SuspendValid(r) && r.session in s.sessions && r.operation !in s.suspends
    requires s.sessions[r.session].version == r.expected && t == SuspendRows(s, r)
    ensures Sound(t)
  {
    forall op | op in t.resumes ensures RowSound(t, op) {
      assert RowSound(s, op);
    }
    forall op | op in t.suspends ensures BoundarySound(t, op) {
      if op != r.operation {
        assert BoundarySound(s, op);
      }
    }
    forall op | op in s.suspends && s.suspends[op].request.session == r.session
      ensures s.suspends[op].request.expected < r.expected
    {
      assert BoundarySound(s, op);
    }
  }

  /** The new row leaves a version that no earlier resume of its Session has left. */
  lemma PrepareKeepsApart(s: Store, i: Intent)
    requires BoundariesApart(s) && i.request.session in s.sessions && i.request.session in s.workspaces
    requires forall op | op in s.resumes :: RowSound(s, op)
    requires i.request.operation !in s.resumes && s.sessions[i.request.session].version == i.request.expected
    ensures BoundariesApart(PrepareRows(s, i))
  {
    forall op | op in s.resumes && s.resumes[op].intent.request.session == i.request.session
      ensures s.resumes[op].intent.request.expected < i.request.expected
    {
      assert RowSound(s, op);
    }
  }

  lemma PrepareKeeps(s: Store, i: Intent)
    requires Sound(s) && i.request.session in s.sessions && i.request.session in s.workspaces
    requires i.request.operation !in s.resumes && ResumeValid(i.request)
    requires s.sessions[i.request.session].version == i.request.expected && i.version == i.request.expected + 1
    ensures Sound(PrepareRows(s, i)) && Advanced(s, PrepareRows(s, i))
  {
    var t := PrepareRows(s, i);
    PrepareKeepsApart(s, i);
    forall op | op in t.resumes ensures RowSound(t, op) {
      if op != i.request.operation {
        assert RowSound(s, op);
      }
    }
    forall op | op in t.suspends ensures BoundarySound(t, op) {
      assert BoundarySound(s, op);
    }
  }

  lemma CompleteKeeps(s: Store, r: Request, reference: Id, k: Checks)
    requires Sound(s)
    ensures Sound(CompleteStep(s, r, reference, k).store) && Advanced(s, CompleteStep(s, r, reference, k).store)
  {
    var t := CompleteStep(s, r, reference, k).store;
    if t != s {
      assert RowSound(s, r.operation);
      assert Changed(s, t, r.session, NONE, r.operation);
      ChangedAdvances(s, t, r.session, NONE, r.operation);
      ChangedKeepsSound(s, t, r.session, r.operation);
    }
  }

  lemma FailKeeps(s: Store, r: Request)
    requires Sound(s)
    ensures Sound(FailStep(s, r).store) && Advanced(s, FailStep(s, r).store)
  {
    var t := FailStep(s, r).store;
    if t != s {
      assert RowSound(s, r.operation);
      assert Changed(s, t, r.session, NONE, r.operation);
      ChangedAdvances(s, t, r.session, NONE, r.operation);
      ChangedKeepsSound(s, t, r.session, r.operation);
    }
  }

  lemma CleanedKeeps(s: Store, op: Id)
    requires Sound(s)
    ensures Sound(CleanedStep(s, op).store) && Advanced(s, CleanedStep(s, op).store)
  {
    var t := CleanedStep(s, op).store;
    if t != s {
      assert RowSound(s, op);
      assert Changed(s, t, NONE, NONE, op);
      ChangedAdvances(s, t, NONE, NONE, op);
      ChangedKeepsSound(s, t, NONE, op);
    }
  }

  lemma PrepareStepKeeps(s: Store, r: Request, suspend: Id, ids: Identities, pin: (Id, int), k: Checks)
    requires Sound(s)
    ensures Sound(PrepareStep(s, r, suspend, ids, pin, k).store)
    ensures Advanced(s, PrepareStep(s, r, suspend, ids, pin, k).store)
  {
    var t := PrepareStep(s, r, suspend, ids, pin, k).store;
    if t != s {
      var i := NewIntent(s, r, suspend, ids, pin, k);
      PrepareKeeps(s, i);
      assert t == PrepareRows(s, i);
    }
  }

  lemma MoveSessionKeeps(s: Store, x: Id, row: Session)
    requires Sound(s) && (x in s.sessions ==> s.sessions[x].version < row.version)
    ensures Sound(s.(sessions := s.sessions[x := row])) && Advanced(s, s.(sessions := s.sessions[x := row]))
  {
    var t := s.(sessions := s.sessions[x := row]);
    assert Changed(s, t, x, NONE, NONE);
    ChangedAdvances(s, t, x, NONE, NONE);
    SameRowsSound(s, t);
  }

  lemma StepKeeps(s: Store, a: Action)
    requires Sound(s)
    ensures Sound(Step(s, a).store) && Advanced(s, Step(s, a).store)
  {
    match a
    case DoSuspend(r, k) => SuspendKeeps(s, r, k);
    case DoPrepare(r, suspend, ids, pin, k) => PrepareStepKeeps(s, r, suspend, ids, pin, k);
    case DoComplete(r, reference, k) => CompleteKeeps(s, r, reference, k);
    case DoFail(r) => FailKeeps(s, r);
    case DoCleaned(op) => CleanedKeeps(s, op);
    case DoCandidate(i, cleanup, k) => assert CandidateStep(s, i, cleanup, k).store == s;
    case MoveSession(x, row) =>
      if !(x in s.sessions && row.version <= s.sessions[x].version) {
        MoveSessionKeeps(s, x, row);
      }
    case MoveWorkspace(x, w) => SameRowsSound(s, s.(workspaces := s.workspaces[x := w]));
  }

  lemma SameRowsSound(s: Store, t: Store)
    requires Sound(s) && t.resumes == s.resumes && t.suspends == s.suspends && s.sessions.Keys <= t.sessions.Keys
    requires forall x | x in s.sessions :: s.sessions[x].version <= t.sessions[x].version
    ensures Sound(t)
  {
    forall op | op in t.resumes ensures RowSound(t, op) {
      assert RowSound(s, op);
    }
    forall op | op in t.suspends ensures BoundarySound(t, op) {
      assert BoundarySound(s, op);
    }
  }

  // ---------------------------------------------------------------- runs

  ghost predicate IsRun(states: seq<Store>, actions: seq<Action>) {
    && |states| == |actions| + 1
    && states[0] == EMPTY
    && forall i | 0 <= i < |actions| :: states[i + 1] == Step(states[i], actions[i]).store
  }

  lemma {:induction false} RunSound(states: seq<Store>, actions: seq<Action>, i: nat)
    requires IsRun(states, actions) && i < |states|
    ensures Sound(states[i])
  {
    if i > 0 {
      RunSound(states, actions, i - 1);
      StepKeeps(states[i - 1], actions[i - 1]);
    }
  }

  lemma {:induction false} AdvancesChain(states: seq<Store>, i: nat, j: nat)
    requires i <= j < |states|
    requires forall k | i <= k < j :: Advanced(states[k], states[k + 1])
    ensures Advanced(states[i], states[j])
  {
    if i < j {
      AdvancesChain(states, i, j - 1);
      assert Advanced(states[j - 1], states[j - 1 + 1]);
      AdvancedTransitive(states[i], states[j - 1], states[j]);
    }
  }

  lemma RunAdvances(states: seq<Store>, actions: seq<Action>, i: nat, j: nat)
    requires IsRun(states, actions) && i <= j < |states|
    ensures Advanced(states[i], states[j])
  {
    forall k | i <= k < j ensures Advanced(states[k], states[k + 1]) {
      RunSound(states, actions, k);
      StepKeeps(states[k], actions[k]);
    }
    AdvancesChain(states, i, j);
  }

  // ---------------------------------------------------------------- origins

  /** The step that made a suspend row suspended the Session it names, as it then was. */
  ghost predicate Suspends(s: Store, t: Store, b: Boundary) {
    && b.request.session in s.sessions && b.request.session in t.sessions
    && s.sessions[b.request.session].state == b.prior
    && s.sessions[b.request.session].version == b.request.expected
    && s.sessions[b.request.session].generation == b.generation
    && s.sessions[b.request.session].head == b.request.checkpoint
    && b.version == b.request.expected + 1
    && t.sessions[b.request.session] == s.sessions[b.request.session].(state := Suspended, version := b.version)
  }

  lemma SuspendRowStep(s: Store, a: Action, op: Id)
    requires Sound(s) && op in Step(s, a).store.suspends
    ensures var t := Step(s, a).store;
            || (op in s.suspends && s.suspends[op] == t.suspends[op])
            || (a.DoSuspend? && a.request == t.suspends[op].request && Suspends(s, t, t.suspends[op]))
  {
    if a.DoSuspend? {
      SuspendRowMade(s, a.request, a.checks, op);
    } else {
      OthersSuspendNothing(s, a);
    }
  }

  lemma SuspendRowMade(s: Store, r: Request, k: Checks, op: Id)
    requires op in SuspendStep(s, r, k).store.suspends
    ensures var t := SuspendStep(s, r, k).store;
            || (op in s.suspends && s.suspends[op] == t.suspends[op])
            || (r == t.suspends[op].request && Suspends(s, t, t.suspends[op]))
  {
  }

  lemma OthersSuspendNothing(s: Store, a: Action)
    requires !a.DoSuspend?
    ensures Step(s, a).store.suspends == s.suspends
  {
  }

  lemma {:induction false} SuspendOrigin(states: seq<Store>, actions: seq<Action>, j: nat, op: Id) returns (i: nat)
    requires IsRun(states, actions) && j < |states| && op in states[j].suspends
    ensures i < j && actions[i].DoSuspend? && actions[i].request == states[j].suspends[op].request
    ensures Suspends(states[i], states[i + 1], states[j].suspends[op])
  {
    assert j > 0;
    RunSound(states, actions, j - 1);
    SuspendRowStep(states[j - 1], actions[j - 1], op);
    if op in states[j - 1].suspends && states[j - 1].suspends[op] == states[j].suspends[op] {
      i := SuspendOrigin(states, actions, j - 1, op);
    } else {
      i := j - 1;
    }
  }

  /** The step that made a resume row found the boundary it resumes. */
  ghost predicate Prepares(s: Store, t: Store, i: Intent) {
    && i.request.session in s.sessions && i.request.session in t.sessions
    && var v := s.sessions[i.request.session];
    && v.state.Suspended? && v.version == i.request.expected
    && v.generation == i.generation && v.head == i.request.checkpoint
    && i.version == v.version + 1 && ResumeValid(i.request)
    && t.sessions[i.request.session] == v.(version := i.version)
    && exists op | op in s.suspends :: Matches(s.suspends[op], i.request, v) && s.suspends[op].prior == i.target
  }

  lemma ResumeRowStep(s: Store, a: Action, op: Id)
    requires Sound(s) && op in Step(s, a).store.resumes
    ensures var t := Step(s, a).store;
            || (op in s.resumes && s.resumes[op].intent == t.resumes[op].intent)
            || (a.DoPrepare? && a.request == t.resumes[op].intent.request && Prepares(s, t, t.resumes[op].intent))
  {
    var t := Step(s, a).store;
    if op in s.resumes {
      StepKeeps(s, a);
      assert RowAdvanced(s.resumes[op], t.resumes[op]);
    } else {
      assert a.DoPrepare?;
      assert Matches(s.suspends[a.suspend], a.request, s.sessions[a.request.session]);
    }
  }

  lemma {:induction false} ResumeOrigin(states: seq<Store>, actions: seq<Action>, j: nat, op: Id) returns (i: nat)
    requires IsRun(states, actions) && j < |states| && op in states[j].resumes
    ensures i < j && actions[i].DoPrepare? && actions[i].request == states[j].resumes[op].intent.request
    ensures Prepares(states[i], states[i + 1], states[j].resumes[op].intent)
  {
    assert j > 0;
    RunSound(states, actions, j - 1);
    ResumeRowStep(states[j - 1], actions[j - 1], op);
    if op in states[j - 1].resumes && states[j - 1].resumes[op].intent == states[j].resumes[op].intent {
      i := ResumeOrigin(states, actions, j - 1, op);
    } else {
      i := j - 1;
    }
  }

  // ---------------------------------------------------------------- theorems

  /** Step j takes a resume out of RESUMING into the state it restores. */
  ghost predicate Commits(s: Store, a: Action) {
    && a.DoComplete?
    && a.request.operation in s.resumes && s.resumes[a.request.operation].result.progress.Resuming?
    && Step(s, a).reply.Answer? && Step(s, a).reply.result.progress.Restored?
  }

  lemma CommitEffect(s: Store, a: Action)
    requires Sound(s) && Commits(s, a)
    ensures var i := s.resumes[a.request.operation].intent;
            && i.request == a.request && a.request.session in s.sessions
            && s.sessions[a.request.session].version == i.version
            && a.request.session in Step(s, a).store.sessions
            && Step(s, a).store.sessions[a.request.session]
               == s.sessions[a.request.session].(state := i.target, version := i.version + 1)
  {
    assert RowSound(s, a.request.operation);
  }

  /** The same version of a Session, at two moments of a run, is the same row. */
  lemma SameVersion(states: seq<Store>, actions: seq<Action>, i: nat, j: nat, x: Id)
    requires IsRun(states, actions) && i <= j < |states|
    requires x in states[i].sessions && x in states[j].sessions
             && states[i].sessions[x].version == states[j].sessions[x].version
    ensures states[i].sessions[x] == states[j].sessions[x]
  {
    RunAdvances(states, actions, i, j);
    assert SessionAdvanced(states[i].sessions[x], states[j].sessions[x]);
  }

  /** A committed resume undoes a suspend: it gives back the whole Session row as it was
      before the suspend that made the boundary, at exactly three versions more, and
      that version still is an int64. */
  lemma ResumeRestoresSuspended(states: seq<Store>, actions: seq<Action>, j: nat) returns (i: nat, k: nat)
    requires IsRun(states, actions) && j < |actions| && Commits(states[j], actions[j])
    ensures i < k < j && actions[i].DoSuspend? && actions[k].DoPrepare? && actions[k].request == actions[j].request
    ensures var x := actions[j].request.session;
            && actions[i].request.session == x && actions[i].request.checkpoint == actions[j].request.checkpoint
            && x in states[i].sessions && x in states[j + 1].sessions
            && states[i].sessions[x].version == actions[i].request.expected
            && states[j + 1].sessions[x] == states[i].sessions[x].(version := states[i].sessions[x].version + 3)
            && states[j + 1].sessions[x].version <= MAX_INT64
  {
    var r := actions[j].request;
    RunSound(states, actions, j);
    CommitEffect(states[j], actions[j]);
    k := ResumeOrigin(states, actions, j, r.operation);
    SameVersion(states, actions, k + 1, j, r.session);
    var intent := states[j].resumes[r.operation].intent;
    assert Prepares(states[k], states[k + 1], intent);
    var op :| op in states[k].suspends && Matches(states[k].suspends[op], r, states[k].sessions[r.session])
              && states[k].suspends[op].prior == intent.target;
    i := SuspendOrigin(states, actions, k, op);
    SameVersion(states, actions, i + 1, k, r.session);
  }

  predicate Resumes(i: Intent, b: Boundary) {
    i.request.session == b.request.session && i.request.expected == b.version
  }

  /** Each boundary admits at most one resume operation over the whole run. */
  lemma OneResumePerBoundary(states: seq<Store>, actions: seq<Action>, i: nat, j: nat, b: Id, x: Id, y: Id)
    requires IsRun(states, actions) && i <= j < |states|
    requires b in states[i].suspends && x in states[i].resumes && y in states[j].resumes
    requires Resumes(states[i].resumes[x].intent, states[i].suspends[b])
    requires Resumes(states[j].resumes[y].intent, states[i].suspends[b])
    ensures x == y
  {
    RunSound(states, actions, j);
    RunAdvances(states, actions, i, j);
    assert RowAdvanced(states[i].resumes[x], states[j].resumes[x]);
  }

  /** Once an operation has left RESUMING its result never changes, and every replay of its
      request is answered with it and changes nothing. */
  lemma OutcomeIsFinal(states: seq<Store>, actions: seq<Action>, i: nat, j: nat, op: Id)
    requires IsRun(states, actions) && i <= j < |states|
    requires op in states[i].resumes && !states[i].resumes[op].result.progress.Resuming?
    ensures op in states[j].resumes
    ensures states[j].resumes[op].result == states[i].resumes[op].result
    ensures states[j].resumes[op].state == states[i].resumes[op].state
    ensures j < |actions| && (actions[j].DoPrepare? || actions[j].DoComplete? || actions[j].DoFail?)
            && actions[j].request == states[i].resumes[op].intent.request
            && (!actions[j].DoFail? ==> actions[j].checks.access) ==>
              Step(states[j], actions[j])
              == Outcome(states[j], Answer(states[i].resumes[op].intent, states[i].resumes[op].result))
  {
    RunSound(states, actions, i);
    RunSound(states, actions, j);
    RunAdvances(states, actions, i, j);
    assert RowSound(states[i], op) && RowSound(states[j], op);
    assert RowAdvanced(states[i].resumes[op], states[j].resumes[op]);
  }

  /** A suspend's recorded boundary never changes, and its replay is answered with it. */
  lemma SuspendIsFinal(states: seq<Store>, actions: seq<Action>, i: nat, j: nat, op: Id)
    requires IsRun(states, actions) && i <= j < |states| && op in states[i].suspends
    ensures op in states[j].suspends && states[j].suspends[op] == states[i].suspends[op]
    ensures j < |actions| && actions[j].DoSuspend? && actions[j].request == states[i].suspends[op].request
            && actions[j].checks.access ==>
              Step(states[j], actions[j]) == Outcome(states[j], SuspendedAs(states[i].suspends[op]))
  {
    RunSound(states, actions, i);
    RunSound(states, actions, j);
    RunAdvances(states, actions, i, j);
    assert BoundarySound(states[i], op) && BoundarySound(states[j], op);
  }

  // ---------------------------------------------------------------- provider calls

  ghost predicate Creates(s: Store, a: Action, op: Id) {
    a.DoCandidate? && !a.cleanup && a.intent.request.operation == op && Step(s, a).reply.Ran?
  }

  ghost predicate Cleans(s: Store, a: Action, op: Id) {
    a.DoCandidate? && a.cleanup && a.intent.request.operation == op && Step(s, a).reply.Ran?
  }

  lemma CallPhase(s: Store, a: Action, op: Id)
    requires Sound(s) && (Creates(s, a, op) || Cleans(s, a, op))
    ensures op in s.resumes && a.intent == s.resumes[op].intent
    ensures Creates(s, a, op) ==> s.resumes[op].state.Resuming?
    ensures Cleans(s, a, op) ==> s.resumes[op].state.Abandoned?
  {
    assert op in s.resumes ==> RowSound(s, op);
  }

  /** Cleanup never overtakes a create: every create of a candidate comes before every
      cleanup of it, for one and the same intent. */
  lemma CreatesBeforeCleanups(states: seq<Store>, actions: seq<Action>, i: nat, j: nat, op: Id)
    requires IsRun(states, actions) && i < |actions| && j < |actions|
    requires Cleans(states[i], actions[i], op) && Creates(states[j], actions[j], op)
    ensures j < i && actions[i].intent == actions[j].intent
  {
    RunSound(states, actions, i);
    RunSound(states, actions, j);
    CallPhase(states[i], actions[i], op);
    CallPhase(states[j], actions[j], op);
    if i <= j {
      OutcomeIsFinalState(states, actions, i, j, op);
    } else {
      RunAdvances(states, actions, j, i);
      assert RowAdvanced(states[j].resumes[op], states[i].resumes[op]);
    }
  }

  lemma OutcomeIsFinalState(states: seq<Store>, actions: seq<Action>, i: nat, j: nat, op: Id)
    requires IsRun(states, actions) && i <= j < |states|
    requires op in states[i].resumes && !states[i].resumes[op].state.Resuming?
    ensures op in states[j].resumes && states[j].resumes[op].state == states[i].resumes[op].state
  {
    RunAdvances(states, actions, i, j);
    assert RowAdvanced(states[i].resumes[op], states[j].resumes[op]);
  }

  /** A committed candidate is never cleaned, before or after, and nothing is created for
      it any more; an abandoned one is never created or committed again. */
  lemma CommittedNeverCleaned(states: seq<Store>, actions: seq<Action>, i: nat, j: nat)
    requires IsRun(states, actions) && i < |actions| && j < |actions| && Commits(states[i], actions[i])
    ensures !Cleans(states[j], actions[j], actions[i].request.operation)
    ensures i < j ==> !Creates(states[j], actions[j], actions[i].request.operation)
    ensures i < j ==> !(Commits(states[j], actions[j]) && actions[j].request.operation == actions[i].request.operation)
  {
    var op := actions[i].request.operation;
    RunSound(states, actions, i);
    RunSound(states, actions, i + 1);
    RunSound(states, actions, j);
    assert RowSound(states[i], op);
    CommitMoves(states[i], actions[i]);
    if i < j {
      OutcomeIsFinalState(states, actions, i + 1, j, op);
      assert RowSound(states[j], op);
      if Creates(states[j], actions[j], op) || Cleans(states[j], actions[j], op) {
        CallPhase(states[j], actions[j], op);
      }
    } else if Cleans(states[j], actions[j], op) {
      CallPhase(states[j], actions[j], op);
      OutcomeIsFinalState(states, actions, j, i, op);
    }
  }

  lemma CommitMoves(s: Store, a: Action)
    requires Sound(s) && Commits(s, a)
    ensures var op := a.request.operation;
            op in Step(s, a).store.resumes && Step(s, a).store.resumes[op].state.Restored?
  {
  }

  lemma AbandonedStaysAbandoned(states: seq<Store>, actions: seq<Action>, i: nat, j: nat, op: Id)
    requires IsRun(states, actions) && i <= j < |actions|
    requires op in states[i].resumes && states[i].resumes[op].state.Abandoned?
    ensures !Creates(states[j], actions[j], op)
    ensures !(Commits(states[j], actions[j]) && actions[j].request.operation == op)
  {
    RunSound(states, actions, j);
    OutcomeIsFinalState(states, actions, i, j, op);
    assert RowSound(states[j], op);
    if Creates(states[j], actions[j], op) {
      CallPhase(states[j], actions[j], op);
    }
  }
}

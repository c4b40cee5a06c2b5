/** What the transactions of suspend and resume achieve, over whole runs and said by what
    the rows and later calls then answer. */
module SessionEffects {
  import opened Common
  import opened SessionJournal
  import R = SessionRuns

  // ---------------------------------------------------------------- abandoning

  /** The candidate still holds its Session: suspended, at the version and generation that
      it was prepared for. */
  predicate Holds(s: Store, i: Intent) {
    && i.request.session in s.sessions
    && s.sessions[i.request.session].state == SessionState.Suspended
    && s.sessions[i.request.session].version == i.version
    && s.sessions[i.request.session].generation == i.generation
  }

  lemma FailEffect(s: Store, r: Request)
    requires r.operation in s.resumes && s.resumes[r.operation].result.progress.Resuming?
    requires FailStep(s, r).reply.Answer?
    ensures var t, i, x := FailStep(s, r).store, s.resumes[r.operation].intent, r.session;
            && i.request == r && x in s.sessions
            && t.sessions == (if Holds(s, i) then
                 s.sessions[x := s.sessions[x].(state := SessionState.Degraded,
                   recovery := Some(SessionState.Suspended), version := s.sessions[x].version + 1)]
               else s.sessions)
            && t.workspaces == s.workspaces && t.suspends == s.suspends
            && t.resumes == s.resumes[r.operation := t.resumes[r.operation]]
            && t.resumes[r.operation].state == Abandoned
            && t.resumes[r.operation].cleaned == s.resumes[r.operation].cleaned
            && t.resumes[r.operation].result.version == t.sessions[x].version
            && FailStep(s, r).reply.result == t.resumes[r.operation].result
  {
  }

  /** Over every run: the step that abandons a resume leaves its Session DEGRADED, to be
      recovered to SUSPENDED and one version on, exactly if the candidate still held it;
      otherwise it leaves every Session row as it was. */
  lemma AbandoningDegrades(states: seq<Store>, actions: seq<Action>, j: nat, op: Id)
    requires R.IsRun(states, actions) && j < |actions|
    requires op in states[j].resumes && states[j].resumes[op].state.Resuming?
    requires op in states[j + 1].resumes && states[j + 1].resumes[op].state.Abandoned?
    ensures actions[j].DoFail? && actions[j].request == states[j].resumes[op].intent.request
    ensures var i := states[j].resumes[op].intent;
            var x, s, t := i.request.session, states[j], states[j + 1];
            && x in s.sessions
            && t.sessions == (if Holds(s, i) then
                 s.sessions[x := s.sessions[x].(state := SessionState.Degraded,
                   recovery := Some(SessionState.Suspended), version := s.sessions[x].version + 1)]
               else s.sessions)
            && t.workspaces == s.workspaces
            && t.resumes[op].result.version == t.sessions[x].version
  {
    R.RunSound(states, actions, j);
    assert R.RowSound(states[j], op);
    OnlyFailAbandons(states[j], actions[j], op);
    FailEffect(states[j], actions[j].request);
  }

  lemma OnlyFailAbandons(s: Store, a: Action, op: Id)
    requires R.Sound(s) && op in s.resumes && s.resumes[op].state.Resuming?
    requires op in Step(s, a).store.resumes && Step(s, a).store.resumes[op].state.Abandoned?
    ensures a.DoFail? && a.request == s.resumes[op].intent.request && a.request.operation == op
    ensures s.resumes[op].result.progress.Resuming? && FailStep(s, a.request).reply.Answer?
  {
    assert R.RowSound(s, op);
  }

  // ---------------------------------------------------------------- preparing

  /** A new candidate is fenced at once: its writer is reserved, only the version of its
      Session moved, its identities are the new ones, and the same call repeats the answer. */
  lemma PreparedIsFenced(s: Store, r: Request, suspend: Id, ids: Identities, pin: (Id, int), k: Checks)
    requires r.operation !in s.resumes && PrepareStep(s, r, suspend, ids, pin, k).reply.Answer?
    ensures var o, x := PrepareStep(s, r, suspend, ids, pin, k), r.session;
            var t, i := o.store, o.reply.intent;
            && Fenced(t, i, k) && i.request == r && i.ids == ids && i.manifest == k.manifest
            && x in s.sessions && t.sessions == s.sessions[x := s.sessions[x].(version := s.sessions[x].version + 1)]
            && x in s.workspaces && t.workspaces[x].state == WAttached && t.workspaces[x].attachment == ids.attachment
            && t.workspaces[x].generationId == s.workspaces[x].generationId
            && o.reply.result.version == t.sessions[x].version && o.reply.result.progress == Resuming
  {
  }

  lemma PreparedRepeats(s: Store, r: Request, suspend: Id, ids: Identities, pin: (Id, int), k: Checks)
    requires r.operation !in s.resumes && PrepareStep(s, r, suspend, ids, pin, k).reply.Answer?
    ensures var o := PrepareStep(s, r, suspend, ids, pin, k);
            && PrepareStep(o.store, r, suspend, ids, pin, k) == o
            && CandidateStep(o.store, o.reply.intent, false, k) == Outcome(o.store, Ran)
            && CandidateStep(o.store, o.reply.intent, true, k) == Outcome(o.store, Refused(Conflict))
  {
    PreparedIsFenced(s, r, suspend, ids, pin, k);
  }

  /** A fenced candidate whose observation is ready, new and in time commits. */
  predicate CompletesWith(s: Store, i: Intent, reference: Id, k: Checks) {
    && k.access && reference != NONE && Fenced(s, i, k) && k.now < i.deadline && k.policy
    && !k.reused && k.ready.None?
    && forall op | op in s.resumes :: s.resumes[op].observation != Some(reference)
  }

  /** Complete commits exactly then, and records the reference and the new version. */
  lemma CompleteExact(s: Store, r: Request, reference: Id, k: Checks)
    requires R.Sound(s) && Journalled(s, r) && s.resumes[r.operation].state.Resuming?
    ensures var o, i := CompleteStep(s, r, reference, k), s.resumes[r.operation].intent;
            && (o.reply.Answer? <==> CompletesWith(s, i, reference, k))
            && (o.reply.Answer? ==>
                  && o.store.resumes[r.operation].state == Restored(i.target)
                  && o.store.resumes[r.operation].observation == Some(reference)
                  && o.store.resumes[r.operation].result.version == o.store.sessions[r.session].version
                  && o.reply.result == o.store.resumes[r.operation].result
                  && o.store.workspaces == s.workspaces && o.store.suspends == s.suspends)
            && (!o.reply.Answer? ==> o.store == s)
  {
    assert R.RowSound(s, r.operation);
  }

  /** The references of committed candidates are all different. */
  ghost predicate ReferencesApart(s: Store) {
    forall x, y | x in s.resumes && y in s.resumes && x != y && s.resumes[x].observation.Some? ::
      s.resumes[x].observation != s.resumes[y].observation
  }

  lemma StepKeepsReferences(s: Store, a: Action)
    requires R.Sound(s) && ReferencesApart(s)
    ensures ReferencesApart(Step(s, a).store)
  {
    var t := Step(s, a).store;
    R.StepKeeps(s, a);
    if a.DoComplete? {
      CompleteKeepsReferences(s, a.request, a.reference, a.checks);
    } else {
      forall op | op in t.resumes
        ensures t.resumes[op].observation == if op in s.resumes then s.resumes[op].observation else None
      {
        OthersObserveNothing(s, a, op);
      }
    }
  }

  lemma OthersObserveNothing(s: Store, a: Action, op: Id)
    requires !a.DoComplete? && op in Step(s, a).store.resumes
    ensures Step(s, a).store.resumes[op].observation == if op in s.resumes then s.resumes[op].observation else None
  {
  }

  lemma CompleteKeepsReferences(s: Store, r: Request, reference: Id, k: Checks)
    requires ReferencesApart(s)
    ensures ReferencesApart(CompleteStep(s, r, reference, k).store)
  {
  }

  /** Over every run no two committed resumes share their compute. */
  lemma {:induction false} RunReferencesApart(states: seq<Store>, actions: seq<Action>, i: nat)
    requires R.IsRun(states, actions) && i < |states|
    ensures ReferencesApart(states[i])
  {
    if i > 0 {
      RunReferencesApart(states, actions, i - 1);
      R.RunSound(states, actions, i - 1);
      StepKeepsReferences(states[i - 1], actions[i - 1]);
    }
  }

  // ---------------------------------------------------------------- cleaning and suspending

  /** Cleaning marks the abandoned candidate once, gives up the attachment if it is still its
      own, leaving that storage degraded, and touches no Session and no other attachment. */
  lemma CleanedEffect(s: Store, op: Id)
    requires op in s.resumes && !s.resumes[op].cleaned && CleanedStep(s, op).reply.Done?
    ensures var t, i := CleanedStep(s, op).store, s.resumes[op].intent;
            var x := i.request.session;
            && s.resumes[op].state == Abandoned
            && t.resumes == s.resumes[op := s.resumes[op].(cleaned := true)]
            && t.sessions == s.sessions && t.suspends == s.suspends
            && (forall y | y in s.workspaces && y != x :: y in t.workspaces && t.workspaces[y] == s.workspaces[y])
            && (x in s.workspaces ==>
                  && x in t.workspaces
                  && if s.workspaces[x].attachment == i.ids.attachment && s.workspaces[x].state == WAttached
                     then t.workspaces[x] == s.workspaces[x].(attachment := NONE, state := WDegraded)
                     else t.workspaces[x] == s.workspaces[x])
            && CleanedStep(t, op) == Outcome(t, Done)
  {
  }

  /** A suspend changes the state and version of its Session and nothing else of it, and its
      boundary is what a resume must name. */
  lemma SuspendedEffect(s: Store, r: Request, k: Checks)
    requires r.operation !in s.suspends && SuspendStep(s, r, k).reply.SuspendedAs?
    ensures var t, x := SuspendStep(s, r, k).store, r.session;
            && x in s.sessions && s.sessions[x].state in {Ready, Idle}
            && t.sessions == s.sessions[x := s.sessions[x].(
                 state := SessionState.Suspended, version := s.sessions[x].version + 1)]
            && t.suspends == s.suspends[r.operation := t.suspends[r.operation]]
            && t.suspends[r.operation].prior == s.sessions[x].state
            && t.suspends[r.operation].version == t.sessions[x].version
            && t.suspends[r.operation].generation == s.sessions[x].generation
            && t.resumes == s.resumes && t.workspaces == s.workspaces
            && SuspendStep(s, r, k).reply.boundary == t.suspends[r.operation]
  {
  }
}

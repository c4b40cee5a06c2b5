/** Suspend and resume as the transactions that read and write the rows in order, and the
    two application operations that call them. */
module SessionStore {
  import opened Common
  import opened SessionJournal
  import R = SessionRuns

  class Journal {
    var sessions: map<Id, Session>
    var workspaces: map<Id, Workspace>
    var suspends: map<Id, Boundary>
    var resumes: map<Id, Row>

    constructor ()
      ensures View() == EMPTY
    {
      sessions, workspaces, suspends, resumes := map[], map[], map[], map[];
    }

    function View(): Store
      reads this
    {
      Store(sessions, workspaces, suspends, resumes)
    }

    method Suspend(r: Request, k: Checks) returns (reply: Reply)
      modifies this
      ensures Outcome(View(), reply) == SuspendStep(old(View()), r, k)
    {
      if r.expected < 0 || r.expected >= MAX_INT64 {
        return Refused(Invalid);
      }
      if !k.access {
        return Refused(Unavailable);
      }
      if r.session !in sessions {
        return Refused(Missing);
      }
      var v := sessions[r.session];
      if r.operation in suspends {
        if suspends[r.operation].request != r {
          return Refused(Conflict);
        }
        return SuspendedAs(suspends[r.operation]);
      }
      if (v.state != Ready && v.state != Idle) || v.version != r.expected
         || v.current != NONE || v.head != r.checkpoint {
        return Refused(Conflict);
      }
      if !k.quiet || !k.valid || !k.boundary {
        return Refused(Conflict);
      }
      var saved := Boundary(r, v.state, v.version + 1, v.generation);
      sessions := sessions[r.session := v.(state := SessionState.Suspended, version := v.version + 1)];
      suspends := suspends[r.operation := saved];
      return SuspendedAs(saved);
    }

    method CheckFence(i: Intent, k: Checks) returns (ok: bool)
      ensures ok <==> Fenced(View(), i, k)
    {
      if i.request.session !in sessions {
        return false;
      }
      var v := sessions[i.request.session];
      if || v.state != SessionState.Suspended || v.version != i.version || v.generation != i.generation
         || v.head != i.request.checkpoint || v.current != NONE {
        return false;
      }
      if !k.quiet || i.request.session !in workspaces {
        return false;
      }
      var w := workspaces[i.request.session];
      if || w.state != WAttached || w.attachment != i.ids.attachment || w.generationId != i.generationId
         || w.generation != i.workspaceGeneration {
        return false;
      }
      return k.valid && k.manifest == i.manifest;
    }

    /** The boundary is looked up by Session, checkpoint, version and generation. */
    method Prepare(r: Request, ids: Identities, pin: (Id, int), k: Checks) returns (reply: Reply)
      modifies this
      ensures exists suspend :: Outcome(View(), reply) == PrepareStep(old(View()), r, suspend, ids, pin, k)
    {
      ghost var s := View();
      if !ResumeValid(r) {
        assert PrepareStep(s, r, NONE, ids, pin, k).store == s;
        return Refused(Invalid);
      }
      if !k.access {
        assert PrepareStep(s, r, NONE, ids, pin, k).store == s;
        return Refused(Unavailable);
      }
      if r.session !in sessions {
        assert PrepareStep(s, r, NONE, ids, pin, k).store == s;
        return Refused(Missing);
      }
      if r.operation in resumes && resumes[r.operation].intent.request.session == r.session {
        reply := PrepareAgain(r, k);
        assert PrepareStep(s, r, NONE, ids, pin, k).store == s;
        return;
      }
      var v := sessions[r.session];
      if || v.state != SessionState.Suspended || v.version != r.expected || v.current != NONE || v.head != r.checkpoint
         || !exists op | op in suspends :: Matches(suspends[op], r, v) {
        assert PrepareStep(s, r, NONE, ids, pin, k).store == s;
        return Refused(Conflict);
      }
      var suspend :| suspend in suspends && Matches(suspends[suspend], r, v);
      reply := PrepareNew(r, suspend, ids, pin, k);
    }

    method PrepareAgain(r: Request, k: Checks) returns (reply: Reply)
      requires r.operation in resumes && resumes[r.operation].intent.request.session == r.session
      requires ResumeValid(r) && k.access && r.session in sessions
      ensures forall suspend, ids, pin :: Outcome(View(), reply) == PrepareStep(View(), r, suspend, ids, pin, k)
    {
      var row := resumes[r.operation];
      if row.intent.request != r {
        return Refused(Conflict);
      }
      if row.result.progress != Resuming {
        return Answer(row.intent, row.result);
      }
      var fenced := CheckFence(row.intent, k);
      if !fenced {
        return Refused(Conflict);
      }
      if !k.policy {
        return Refused(Unavailable);
      }
      return Answer(row.intent, row.result);
    }

    method PrepareNew(r: Request, suspend: Id, ids: Identities, pin: (Id, int), k: Checks) returns (reply: Reply)
      requires r.session in sessions && suspend in suspends && Matches(suspends[suspend], r, sessions[r.session])
      requires ResumeValid(r) && k.access
      requires !(r.operation in resumes && resumes[r.operation].intent.request.session == r.session)
      modifies this
      ensures Outcome(View(), reply) == PrepareStep(old(View()), r, suspend, ids, pin, k)
    {
      var v := sessions[r.session];
      if v.state != SessionState.Suspended || v.version != r.expected || v.current != NONE || v.head != r.checkpoint {
        return Refused(Conflict);
      }
      if r.session !in workspaces {
        return Refused(Conflict);
      }
      var w := workspaces[r.session];
      if (w.generationId, w.generation) != pin || w.state != WReady || w.attachment != NONE || !k.quiet || !k.valid {
        return Refused(Conflict);
      }
      var i := Intent(r, ids, w.generationId, w.generation, v.generation, v.version + 1, k.manifest, k.now + RESUME_TTL,
                      suspends[suspend].prior);
      if !k.policy {
        return Refused(Unavailable);
      }
      if r.operation in resumes || OpenCandidate(View(), r.session) || IdentityUsed(View(), ids) {
        return Refused(Conflict);
      }
      var result := ResultOf(i, Resuming, i.version);
      resumes := resumes[r.operation := Row(i, Resuming, result, None, false)];
      workspaces := workspaces[r.session := w.(attachment := ids.attachment, state := WAttached)];
      sessions := sessions[r.session := v.(version := v.version + 1)];
      return Answer(i, result);
    }

    method Complete(r: Request, reference: Id, k: Checks) returns (reply: Reply)
      modifies this
      ensures Outcome(View(), reply) == CompleteStep(old(View()), r, reference, k)
    {
      if !ResumeValid(r) {
        return Refused(Invalid);
      }
      if !k.access {
        return Refused(Unavailable);
      }
      if !Journalled(View(), r) {
        return Refused(LoadError(View(), r));
      }
      var row := resumes[r.operation];
      if row.result.progress != Resuming {
        return Answer(row.intent, row.result);
      }
      if reference == NONE {
        return Refused(Integrity);
      }
      var fenced := CheckFence(row.intent, k);
      if !fenced || row.intent.deadline <= k.now {
        return Refused(Conflict);
      }
      if !k.policy {
        return Refused(Unavailable);
      }
      if k.reused || ReferenceTaken(View(), reference) {
        return Refused(Integrity);
      }
      if k.ready.Some? {
        if k.ready.value == Unavailable {
          return Refused(Unavailable);
        }
        return Refused(Integrity);
      }
      var v := sessions[r.session];
      var result := ResultOf(row.intent, Restored(row.intent.target), v.version + 1);
      resumes := resumes[r.operation :=
        row.(state := result.progress, result := result, observation := Some(reference))];
      sessions := sessions[r.session := v.(state := row.intent.target, version := v.version + 1)];
      return Answer(row.intent, result);
    }

    method Fail(r: Request) returns (reply: Reply)
      modifies this
      ensures Outcome(View(), reply) == FailStep(old(View()), r)
    {
      if !ResumeValid(r) {
        return Refused(Invalid);
      }
      if !Journalled(View(), r) {
        return Refused(LoadError(View(), r));
      }
      var row := resumes[r.operation];
      if row.result.progress != Resuming {
        return Answer(row.intent, row.result);
      }
      var i, v := row.intent, sessions[r.session];
      var version := v.version;
      if v.state == SessionState.Suspended && v.version == i.version && v.generation == i.generation {
        sessions := sessions[r.session :=
          v.(state := SessionState.Degraded, recovery := Some(SessionState.Suspended), version := v.version + 1)];
        version := version + 1;
      }
      var result := ResultOf(i, Abandoned, version);
      resumes := resumes[r.operation := row.(state := Abandoned, result := result)];
      return Answer(i, result);
    }

    method CleanupIntent(op: Id) returns (reply: Reply)
      ensures Outcome(View(), reply) == CleanupIntentStep(View(), op)
    {
      if op !in resumes {
        return Refused(Missing);
      }
      if resumes[op].state != Abandoned {
        return Refused(Conflict);
      }
      return Cleanable(resumes[op].intent, resumes[op].cleaned);
    }

    method Cleaned(op: Id) returns (reply: Reply)
      modifies this
      ensures View() == CleanedStep(old(View()), op).store
      ensures reply.Done? <==> CleanedStep(old(View()), op).reply.Done? && old(View()).resumes[op].state.Abandoned?
    {
      var found := CleanupIntent(op);
      if found.Refused? {
        return found;
      }
      if found.done {
        return Done;
      }
      var i := found.intent;
      var x := i.request.session;
      if x !in sessions {
        return Refused(Missing);
      }
      if resumes[op].cleaned {
        return Done;
      }
      if x in workspaces && workspaces[x].attachment == i.ids.attachment && workspaces[x].state == WAttached {
        workspaces := workspaces[x := workspaces[x].(attachment := NONE, state := WDegraded)];
      }
      resumes := resumes[op := resumes[op].(cleaned := true)];
      return Done;
    }

    /** Whether the provider call may be made now, under the Session lock. */
    method WithResumeCandidate(i: Intent, cleanup: bool, k: Checks) returns (reply: Reply)
      ensures Outcome(View(), reply) == CandidateStep(View(), i, cleanup, k)
    {
      var r := i.request;
      if !ResumeValid(r) {
        return Refused(Invalid);
      }
      if !cleanup && !k.access {
        return Refused(Unavailable);
      }
      if !Journalled(View(), r) {
        return Refused(LoadError(View(), r));
      }
      var row := resumes[r.operation];
      if row.intent != i {
        return Refused(Integrity);
      }
      if cleanup {
        if row.result.progress != Abandoned {
          return Refused(Conflict);
        }
        return Ran;
      }
      if row.result.progress != Resuming || i.deadline <= k.now {
        return Refused(Conflict);
      }
      var fenced := CheckFence(i, k);
      if !fenced {
        return Refused(Conflict);
      }
      if !k.policy {
        return Refused(Unavailable);
      }
      return Ran;
    }
  }

  predicate Terminal(e: Error) {
    e == Integrity || e == Conflict
  }

  /** An answer is the journal's own record of the request; what it restores is the target. */
  predicate Recorded(s: Store, r: Request, reply: Reply)
    requires reply.Answer?
  {
    && Journalled(s, r)
    && s.resumes[r.operation].result == reply.result && s.resumes[r.operation].intent == reply.intent
    && (reply.result.progress.Restored? ==> reply.result.progress.state == reply.intent.target)
  }

  lemma PrepareRecorded(s: Store, r: Request, suspend: Id, ids: Identities, pin: (Id, int), k: Checks)
    requires R.Sound(s)
    ensures var o := PrepareStep(s, r, suspend, ids, pin, k);
            (o.reply.Answer? || o.reply.Refused?) && (o.reply.Answer? ==> Recorded(o.store, r, o.reply))
  {
    assert r.operation in s.resumes ==> R.RowSound(s, r.operation);
  }

  lemma CompleteRecorded(s: Store, r: Request, reference: Id, k: Checks)
    requires R.Sound(s)
    ensures var o := CompleteStep(s, r, reference, k);
            (o.reply.Answer? || o.reply.Refused?) && (o.reply.Answer? ==> Recorded(o.store, r, o.reply))
  {
    assert r.operation in s.resumes ==> R.RowSound(s, r.operation);
  }

  class Resumer {
    const store: Journal

    constructor (journal: Journal)
      ensures store == journal
    {
      store := journal;
    }

    method PrepareKnown(r: Request, ids: Identities, pin: (Id, int), k: Checks) returns (reply: Reply)
      requires R.Sound(store.View())
      modifies store
      ensures R.Sound(store.View()) && R.Advanced(old(store.View()), store.View())
      ensures reply.Answer? ==> Recorded(store.View(), r, reply)
      ensures reply.Answer? || reply.Refused?
    {
      ghost var s := store.View();
      reply := store.Prepare(r, ids, pin, k);
      ghost var suspend :| Outcome(store.View(), reply) == PrepareStep(s, r, suspend, ids, pin, k);
      R.PrepareStepKeeps(s, r, suspend, ids, pin, k);
      PrepareRecorded(s, r, suspend, ids, pin, k);
    }

    method CompleteKnown(r: Request, reference: Id, k: Checks) returns (reply: Reply)
      requires R.Sound(store.View())
      modifies store
      ensures R.Sound(store.View()) && R.Advanced(old(store.View()), store.View())
      ensures reply.Answer? ==> Recorded(store.View(), r, reply)
      ensures reply.Answer? || reply.Refused?
    {
      ghost var s := store.View();
      reply := store.Complete(r, reference, k);
      R.CompleteKeeps(s, r, reference, k);
      CompleteRecorded(s, r, reference, k);
    }

    method FailKnown(r: Request) returns (reply: Reply)
      requires R.Sound(store.View())
      modifies store
      ensures R.Sound(store.View()) && R.Advanced(old(store.View()), store.View())
      ensures reply.Answer? ==> Recorded(store.View(), r, reply) && !reply.result.progress.Resuming?
      ensures reply.Answer? || reply.Refused?
      ensures reply.Refused? ==> !ResumeValid(r) || !Journalled(store.View(), r)
    {
      ghost var s := store.View();
      reply := store.Fail(r);
      R.FailKeeps(s, r);
      assert Journalled(s, r) ==> R.RowSound(s, r.operation) && R.RowSound(store.View(), r.operation);
    }

    /** One bounded pass. Whatever is answered is what the journal holds; trouble other than
        an outage never leaves a candidate of this request RESUMING. */
    method Resume(
      r: Request, ids: Identities, pin: (Id, int), prepared: Checks, now: Time, observed: Option<Id>, corrupt: bool,
      completed: Checks)
      returns (reply: Reply)
      requires R.Sound(store.View())
      modifies store
      ensures R.Sound(store.View()) && R.Advanced(old(store.View()), store.View())
      ensures reply.Answer? ==> Recorded(store.View(), r, reply)
      ensures reply.Refused? && Terminal(reply.error) && ResumeValid(r) && Journalled(store.View(), r) ==>
                !store.View().resumes[r.operation].state.Resuming?
    {
      ghost var s0 := store.View();
      reply := PrepareKnown(r, ids, pin, prepared);
      ghost var s1 := store.View();
      if reply.Refused? {
        if Terminal(reply.error) {
          var failed := FailKnown(r);
          R.AdvancedTransitive(s0, s1, store.View());
          if failed.Answer? {
            reply := failed;
          }
        }
        return;
      }
      if reply.result.progress != Resuming {
        return;
      }
      if reply.intent.deadline <= now || (observed.None? && corrupt) {
        reply := FailKnown(r);
        R.AdvancedTransitive(s0, s1, store.View());
        return;
      }
      if observed.None? {
        return Refused(Unavailable);
      }
      reply := CompleteKnown(r, observed.value, completed);
      R.AdvancedTransitive(s0, s1, store.View());
      ghost var s2 := store.View();
      if reply.Refused? && Terminal(reply.error) {
        reply := FailKnown(r);
        R.AdvancedTransitive(s0, s2, store.View());
      }
    }

    /** Cleanup calls the provider only for an abandoned, uncleaned candidate, and marks it
        cleaned only if the provider proved it absent. */
    method Cleanup(op: Id, absent: bool) returns (reply: Reply, called: bool)
      modifies store
      ensures called <==> CleanupIntentStep(old(store.View()), op).reply.Cleanable? && !old(store.resumes)[op].cleaned
      ensures store.View() == if called && absent then CleanedStep(old(store.View()), op).store else old(store.View())
    {
      called := false;
      reply := store.CleanupIntent(op);
      if reply.Refused? || reply.done {
        return;
      }
      called := true;
      if !absent {
        return Refused(Unavailable), called;
      }
      reply := store.Cleaned(op);
    }
  }
}

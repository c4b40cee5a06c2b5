/** What a claim's outcome means, over whole runs: it is exactly the answer that was
    accepted for the command frame that made the claim. */
module AgentdOutcomes {
  import opened Common
  import opened AgentdFrames

  /** Action k is an accepted command frame of this operation. */
  ghost predicate Claims(states: seq<Transport>, actions: seq<Action>, k: nat, op: Id)
    requires |states| == |actions| + 1 && k < |actions|
  {
    Accepts(states[k], actions[k]) && actions[k].frame.body.Command? && actions[k].frame.operation == op
  }

  predicate SameStream(f: Frame, c: Frame) {
    f.sandbox == c.sandbox && f.connection == c.connection && f.epoch == c.epoch
  }

  /** f acknowledges command c: it repeats the command's operation, message, digest and number. */
  predicate Acknowledges(f: Frame, c: Frame) {
    && f.body.Acknowledgement? && f.operation == c.operation && f.digest == c.digest && SameStream(f, c)
    && f.body.message == c.message && f.body.digest == c.digest && f.body.accepted == c.sequence
  }

  /** f reports that command c failed, with an unknown outcome. */
  predicate Fails(f: Frame, c: Frame) {
    f.body.Failure? && f.operation == c.operation && f.digest == c.digest && SameStream(f, c)
  }

  ghost predicate AnsweredBy(
    states: seq<Transport>, actions: seq<Action>, k: nat, i: nat, acknowledged: bool)
    requires |states| == |actions| + 1 && k < i <= |actions| && actions[k].Authorize?
  {
    exists j :: k < j < i && Answer(states, actions, k, j, acknowledged)
  }

  ghost predicate Answer(states: seq<Transport>, actions: seq<Action>, k: nat, j: nat, acknowledged: bool)
    requires |states| == |actions| + 1 && k < |actions| && j < |actions| && actions[k].Authorize?
  {
    && Accepts(states[j], actions[j])
    && if acknowledged then Acknowledges(actions[j].frame, actions[k].frame)
       else Fails(actions[j].frame, actions[k].frame)
  }

  /** A claim row, as the command frame that made it and the answers since then determine it. */
  ghost predicate Explained(states: seq<Transport>, actions: seq<Action>, k: nat, i: nat, op: Id)
    requires |states| == |actions| + 1 && k < i <= |actions|
  {
    && Claims(states, actions, k, op)
    && op in states[i].claims
    && var c, row := actions[k].frame, states[i].claims[op];
    && row.sandbox == c.sandbox && row.digest == c.digest && row.connection == c.connection
    && row.epoch == c.epoch && row.message == c.message && row.sequence == c.sequence
    && (row.outcome == Acknowledged <==> AnsweredBy(states, actions, k, i, true))
    && (row.outcome == Unknown <==> AnsweredBy(states, actions, k, i, false))
  }

  // ---------------------------------------------------------------- one step

  /** What an accepted frame does to a claim that was there before. */
  lemma AnswerStep(s: Transport, f: Frame, checks: Checks, db: Time, op: Id)
    requires Admitted(s, f, checks, db) && op in s.claims && op != NONE
    ensures var t := AuthorizeStep(s, f, checks, db);
            && op in t.claims
            && t.claims[op] == s.claims[op].(outcome := t.claims[op].outcome)
            && (t.claims[op].outcome != s.claims[op].outcome ==>
                  f.operation == op && s.claims[op].outcome == Pending)
            && (f.operation == op && f.body.Acknowledgement? ==> t.claims[op].outcome == Acknowledged)
            && (f.operation == op && f.body.Failure? ==> t.claims[op].outcome == Unknown)
            && (f.operation == op && !f.body.Acknowledgement? && !f.body.Failure? ==> t.claims[op] == s.claims[op])
  {
  }

  /** An accepted answer to an operation matches the row it answers. */
  lemma AnswerMatches(s: Transport, f: Frame, checks: Checks, db: Time)
    requires Admitted(s, f, checks, db) && f.operation != NONE && (f.body.Acknowledgement? || f.body.Failure?)
    ensures f.operation in s.claims
    ensures var row := s.claims[f.operation];
            && f.sandbox == row.sandbox && f.connection == row.connection && f.epoch == row.epoch
            && f.digest == row.digest
            && (f.body.Acknowledgement? ==>
                  f.body.message == row.message && f.body.digest == row.digest && f.body.accepted == row.sequence)
            && (row.outcome == Pending || row.outcome == (if f.body.Acknowledgement? then Acknowledged else Unknown))
  {
  }

  /** A new claim is pending and repeats its command frame; nothing else adds one. */
  lemma ClaimStep(s: Transport, a: Action, op: Id)
    requires op in Step(s, a).claims && op !in s.claims
    ensures Accepts(s, a) && a.frame.body.Command? && a.frame.operation == op
    ensures var c, row := a.frame, Step(s, a).claims[op];
            && row.sandbox == c.sandbox && row.digest == c.digest && row.connection == c.connection
            && row.epoch == c.epoch && row.message == c.message && row.sequence == c.sequence
            && row.outcome == Pending
  {
  }

  // ---------------------------------------------------------------- runs

  lemma NoAnswerYet(states: seq<Transport>, actions: seq<Action>, k: nat)
    requires |states| == |actions| + 1 && k < |actions| && actions[k].Authorize?
    ensures !AnsweredBy(states, actions, k, k + 1, true) && !AnsweredBy(states, actions, k, k + 1, false)
  {
  }

  lemma MoreAnswers(states: seq<Transport>, actions: seq<Action>, k: nat, i: nat, acknowledged: bool)
    requires |states| == |actions| + 1 && k < i < |actions| && actions[k].Authorize?
    ensures AnsweredBy(states, actions, k, i + 1, acknowledged)
            <==> AnsweredBy(states, actions, k, i, acknowledged) || Answer(states, actions, k, i, acknowledged)
  {
  }

  /** One more step keeps the explanation. */
  lemma StillExplained(states: seq<Transport>, actions: seq<Action>, k: nat, i: nat, op: Id)
    requires IsRun(states, actions) && k < i < |actions| && Explained(states, actions, k, i, op) && op != NONE
    ensures Explained(states, actions, k, i + 1, op)
  {
    MoreAnswers(states, actions, k, i, true);
    MoreAnswers(states, actions, k, i, false);
    var s, a, c := states[i], actions[i], actions[k].frame;
    if Accepts(s, a) {
      var f := a.frame;
      AnswerStep(s, f, a.checks, a.db, op);
      if f.operation == op && (f.body.Acknowledgement? || f.body.Failure?) {
        AnswerMatches(s, f, a.checks, a.db);
        assert Answer(states, actions, k, i, f.body.Acknowledgement?);
      }
    } else {
      assert states[i + 1].claims == s.claims;
    }
  }

  /** A claim is ACKNOWLEDGED if and only if an acknowledgement that repeats its command was
      accepted since, and UNKNOWN if and only if a failure report of it was. */
  lemma {:induction false} OutcomeExact(states: seq<Transport>, actions: seq<Action>, i: nat, op: Id)
    returns (k: nat)
    requires IsRun(states, actions) && i < |states| && op in states[i].claims
    ensures k < i && Explained(states, actions, k, i, op)
  {
    assert i > 0;
    if op in states[i - 1].claims {
      RunInvariant(states, actions, i - 1);
      k := OutcomeExact(states, actions, i - 1, op);
      StillExplained(states, actions, k, i - 1, op);
    } else {
      k := i - 1;
      ClaimStep(states[k], actions[k], op);
      NoAnswerYet(states, actions, k);
    }
  }

  /** UNKNOWN is final, and it ends dispatch to its sandbox: no command is admitted after it. */
  lemma UnknownEndsDispatch(states: seq<Transport>, actions: seq<Action>, i: nat, j: nat, op: Id)
    requires IsRun(states, actions) && i <= j < |states|
    requires op in states[i].claims && states[i].claims[op].outcome == Unknown
    ensures op in states[j].claims && states[j].claims[op] == states[i].claims[op]
    ensures j < |actions| && ClaimsCommand(actions[j], states[i].claims[op].sandbox) ==> !Accepts(states[j], actions[j])
  {
    RunAdvances(states, actions, i, j);
    assert op in Unresolved(states[j], states[i].claims[op].sandbox);
  }

  /** A failed command stops the plan: what a poll reads after an accepted failure report is
      never an acknowledgement. */
  lemma FailureIsSeen(
    states: seq<Transport>, actions: seq<Action>, k: nat, j: nat, i: nat, sandbox: Id, op: Id, digest: Digest)
    requires IsRun(states, actions) && k < j < i < |states| && Claims(states, actions, k, op)
    requires Answer(states, actions, k, j, false)
    ensures CommandOutcome(states[i], sandbox, op, digest) != Found(Acknowledged)
    ensures sandbox == actions[k].frame.sandbox && digest == actions[k].frame.digest ==>
              CommandOutcome(states[i], sandbox, op, digest) == Found(Unknown)
  {
    RunAdvances(states, actions, k + 1, i);
    ClaimedAt(states, actions, k);
    var k' := OutcomeExact(states, actions, i, op);
    SameClaim(states, actions, k, k', op);
    assert AnsweredBy(states, actions, k, i, false);
  }

  lemma ClaimedAt(states: seq<Transport>, actions: seq<Action>, k: nat)
    requires IsRun(states, actions) && k < |actions| && Accepts(states[k], actions[k]) && actions[k].frame.body.Command?
    ensures actions[k].frame.operation in states[k + 1].claims
  {
  }

  lemma SameClaim(states: seq<Transport>, actions: seq<Action>, k: nat, k': nat, op: Id)
    requires IsRun(states, actions) && k < |actions| && k' < |actions|
    requires Claims(states, actions, k, op) && Claims(states, actions, k', op)
    ensures k == k'
  {
    if k < k' {
      DispatchedAtMostOnce(states, actions, k, k');
    } else if k' < k {
      DispatchedAtMostOnce(states, actions, k', k);
    }
  }
}

/** What the agent tells the server, and what the ledger makes of it: a command's recorded
    outcome is the outcome its worker had, and a heartbeat says where the agent really is. */
module AgentdAnswers {
  import opened Common
  import opened AgentdFrames
  import opened AgentdLink

  /** The reply to a finished command, among the frames that finishing sends. */
  predicate RepliesTo(reply: Frame, command: Frame, failed: bool) {
    && reply.operation == command.operation && reply.digest == command.digest
    && (failed ==> reply.body == Failure(true))
    && (!failed ==>
          && reply.body.Acknowledgement? && reply.body.message == command.message
          && reply.body.digest == command.digest && reply.body.accepted == command.sequence)
  }

  /** Finishing frees the agent and sends, in this order, a thread report if there is one and
      the command succeeded, the reply that tells success from failure, and a heartbeat that
      names no active operation any more. */
  lemma FinishReports(s: Link, failed: bool, thread: bool, stamps: (Stamp, Stamp, Stamp))
    requires s.agent.working.Some?
    ensures var t, f, n := FinishWork(s, failed, thread, stamps), s.agent.working.value, |s.toServer|;
            var more := if thread && !failed then 3 else 2;
            && |t.toServer| == n + more && t.toServer[..n] == s.toServer
            && t.agent == s.agent.(working := None, output := s.agent.output + more)
            && t.transport == s.transport && t.toAgent == s.toAgent
            && (more == 3 ==> t.toServer[n].body == Thread && t.toServer[n].operation == f.operation)
            && RepliesTo(t.toServer[n + more - 2], f, failed)
            && t.toServer[n + more - 1].body.Heartbeat? && t.toServer[n + more - 1].body.active == NONE
            && forall k | n <= k < n + more :: t.toServer[k].sequence == s.agent.output + 1 + k - n
  {
  }

  /** The agent's accepted counter is the number of the frame it took last. */
  ghost predicate Counted(s: Link) {
    s.agent.accepted == if s.agent.last.Some? then s.agent.last.value.sequence else 0
  }

  lemma StepCounted(s: Link, m: Move)
    requires Enabled(s, m) && Counted(s)
    ensures Counted(Next(s, m))
  {
  }

  lemma {:induction false} RunCounted(states: seq<Link>, moves: seq<Move>, i: nat)
    requires AgentdLink.IsRun(states, moves) && i < |states|
    ensures Counted(states[i])
  {
    if i > 0 {
      RunCounted(states, moves, i - 1);
      StepCounted(states[i - 1], moves[i - 1]);
    }
  }

  /** A heartbeat reports exactly the last frame taken, the frames produced before it, and
      the operation whose worker is running. */
  lemma HeartbeatReports(states: seq<Link>, moves: seq<Move>, i: nat)
    requires AgentdLink.IsRun(states, moves) && i < |moves| && moves[i].Beat?
    ensures var s, t := states[i], states[i + 1];
            && |t.toServer| == |s.toServer| + 1
            && var f := t.toServer[|s.toServer|];
            && f.body.Heartbeat?
            && f.body.lastAccepted == (if s.agent.last.Some? then s.agent.last.value.sequence else 0)
            && f.body.lastProduced == s.agent.output == f.sequence - 1
            && f.body.active == if s.agent.working.Some? then s.agent.working.value.operation else NONE
  {
    RunCounted(states, moves, i);
  }

  /** Work starts exactly with the command frame that the agent took while it was free. */
  lemma WorkStarts(states: seq<Link>, moves: seq<Move>, i: nat)
    requires AgentdLink.IsRun(states, moves) && i < |moves|
    requires states[i + 1].agent.working != states[i].agent.working && states[i + 1].agent.working.Some?
    ensures moves[i].Take? && states[i].toAgent != [] && states[i + 1].agent.working == Some(states[i].toAgent[0])
    ensures states[i].agent.working.None? && states[i].toAgent[0].body.Command?
  {
  }

  // ---------------------------------------------------------------- recorded outcomes

  /** Some worker of this operation finished before state j, with this result. */
  ghost predicate Worked(states: seq<Link>, moves: seq<Move>, j: nat, op: Id, failed: bool)
    requires |states| == |moves| + 1 && j < |states|
  {
    exists i :: 0 <= i < j && WorkedAt(states[i], moves[i], op, failed)
  }

  predicate WorkedAt(s: Link, m: Move, op: Id, failed: bool) {
    m.Finish? && m.failed == failed && s.agent.working.Some? && s.agent.working.value.operation == op
  }

  lemma WorkedLater(states: seq<Link>, moves: seq<Move>, i: nat, j: nat, op: Id, failed: bool)
    requires |states| == |moves| + 1 && i <= j < |states| && Worked(states, moves, i, op, failed)
    ensures Worked(states, moves, j, op, failed)
  {
  }

  predicate Settling(f: Frame) {
    f.operation != NONE && (f.body.Acknowledgement? || f.body.Failure?)
  }

  /** Only finishing puts an answer into the queue, and it says how the work ended. */
  lemma AnswerQueued(s: Link, m: Move, n: nat)
    requires Enabled(s, m) && n < |Next(s, m).toServer| && Settling(Next(s, m).toServer[n])
    ensures var f := Next(s, m).toServer[n];
            f in s.toServer || WorkedAt(s, m, f.operation, f.body.Failure?)
  {
    if m.Finish? {
      FinishReports(s, m.failed, m.thread, m.stamps);
      assert n < |s.toServer| ==> Next(s, m).toServer[n] == s.toServer[n];
    } else if n < |s.toServer| && !m.ServerReceive? {
      assert Next(s, m).toServer[n] == s.toServer[n];
    }
  }

  lemma {:induction false} QueuedAnswerIsTrue(states: seq<Link>, moves: seq<Move>, j: nat, f: Frame)
    requires AgentdLink.IsRun(states, moves) && j < |states| && f in states[j].toServer && Settling(f)
    ensures Worked(states, moves, j, f.operation, f.body.Failure?)
  {
    assert j > 0;
    var n :| 0 <= n < |states[j].toServer| && states[j].toServer[n] == f;
    AnswerQueued(states[j - 1], moves[j - 1], n);
    if f in states[j - 1].toServer {
      QueuedAnswerIsTrue(states, moves, j - 1, f);
      WorkedLater(states, moves, j - 1, j, f.operation, f.body.Failure?);
    } else {
      assert WorkedAt(states[j - 1], moves[j - 1], f.operation, f.body.Failure?);
    }
  }

  /** The row of this operation was made on this link. */
  predicate Here(s: Link, op: Id) {
    && op in s.transport.claims
    && s.transport.claims[op].sandbox == s.sandbox && s.transport.claims[op].connection == s.connection
  }

  /** A row of this link is settled only by an answer that the agent itself queued. */
  lemma SettledByAgent(s: Link, m: Move, t: Link, op: Id)
    requires Enabled(s, m) && t == Next(s, m) && op != NONE && Here(t, op)
    requires t.transport.claims[op].outcome != Pending
    ensures || (Here(s, op) && t.transport.claims[op].outcome == s.transport.claims[op].outcome)
            || (&& s.toServer != [] && Settling(s.toServer[0]) && s.toServer[0].operation == op
                && t.transport.claims[op].outcome == if s.toServer[0].body.Failure? then Unknown else Acknowledged)
  {
  }

  /** Over every run of a link, what the ledger says about a command dispatched on it is what
      its worker did: ACKNOWLEDGED only if a worker succeeded, UNKNOWN only if one failed. */
  lemma {:induction false} OutcomeIsWorkersOutcome(states: seq<Link>, moves: seq<Move>, j: nat, op: Id)
    requires AgentdLink.IsRun(states, moves) && j < |states| && op != NONE && Here(states[j], op)
    requires op !in states[0].transport.claims
    ensures states[j].transport.claims[op].outcome == Acknowledged ==> Worked(states, moves, j, op, false)
    ensures states[j].transport.claims[op].outcome == Unknown ==> Worked(states, moves, j, op, true)
  {
    assert j > 0;
    var s, t := states[j - 1], states[j];
    if t.transport.claims[op].outcome != Pending {
      SettledByAgent(s, moves[j - 1], t, op);
      if Here(s, op) && t.transport.claims[op].outcome == s.transport.claims[op].outcome {
        OutcomeIsWorkersOutcome(states, moves, j - 1, op);
        WorkedLater(states, moves, j - 1, j, op, t.transport.claims[op].outcome == Unknown);
      } else {
        QueuedAnswerIsTrue(states, moves, j - 1, s.toServer[0]);
        WorkedLater(states, moves, j - 1, j, op, s.toServer[0].body.Failure?);
      }
    }
  }
}

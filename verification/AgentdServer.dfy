/** Serve's loop variables and the two branches of its select that act. */
module AgentdServer {
  import opened Common
  import opened AgentdFrames
  import opened AgentdDispatch
  import AgentdPolicy

  class Loop {
    const sandbox: Id
    const plan: seq<Planned>
    const connection: Id
    const epoch: nat
    var index: nat
    var pending: Id
    var sequence: nat
    var stopped: bool

    constructor (sandbox: Id, plan: seq<Planned>, connection: Id, epoch: nat)
      ensures this.sandbox == sandbox && this.plan == plan
      ensures View() == Handler(connection, epoch, 0, NONE, 0, Polling, [])
    {
      this.sandbox, this.plan, this.connection, this.epoch := sandbox, plan, connection, epoch;
      index, pending, sequence, stopped := 0, NONE, 0, false;
    }

    function View(): Handler
      reads this
    {
      Handler(connection, epoch, index, pending, sequence, if stopped then Stopped else Polling, [])
    }

    /** The claim row is committed before the frame is written; a lost write leaves it behind. */
    method Send(policy: AgentdPolicy.Policy, operation: Id, digest: Digest, body: Body, e: Envelope) returns (ok: bool)
      modifies this`sequence, policy
      ensures sequence == old(sequence) + 1
      ensures var f := Outgoing(old(View()), sandbox, operation, digest, body, e);
              && policy.View() == AuthorizeStep(old(policy.View()), f, e.checks, e.db)
              && (ok <==> Admitted(old(policy.View()), f, e.checks, e.db) && e.delivered)
    {
      sequence := sequence + 1;
      var f := Frame(sandbox, connection, epoch, sequence, e.message, operation, digest, body, e.rest);
      ok := policy.AuthorizeFrame(f, e.checks, e.db);
      ok := ok && e.delivered;
    }

    /** One expiry of the dispatch timer: poll the outcome, then claim and send if there is none. */
    method Tick(policy: AgentdPolicy.Policy, e: Envelope)
      requires !stopped && index <= |plan|
      modifies this, policy
      ensures old(pending) != NONE || old(index) == |plan| ==>
                View() == old(View()) && policy.View() == old(policy.View())
      ensures old(pending) == NONE && old(index) < |plan| ==>
        var c := plan[old(index)];
        var lookup := CommandOutcome(old(policy.View()), sandbox, c.operation, c.digest);
        if lookup.Missing? then
          var f := ClaimFrame(old(View()), sandbox, c, e);
          && policy.View() == AuthorizeStep(old(policy.View()), f, e.checks, e.db)
          && View() == Dispatched(old(View()), c, Admitted(old(policy.View()), f, e.checks, e.db), e.delivered)
        else policy.View() == old(policy.View()) && View() == Polled(old(View()), lookup)
    {
      if pending != NONE || index == |plan| {
        return;
      }
      var c := plan[index];
      match CommandOutcome(policy.View(), sandbox, c.operation, c.digest)
      case Found(outcome) =>
        if outcome != Acknowledged {
          stopped := true;
          return;
        }
        index := index + 1;
      case Conflict =>
        stopped := true;
      case Missing =>
        var ok := Send(policy, c.operation, c.digest, Command(c.kind), e);
        if !ok {
          stopped := true;
          return;
        }
        pending := c.operation;
    }

    /** One frame that the receiver has already had authorized. */
    method Receive(policy: AgentdPolicy.Policy, f: Frame, e: Envelope)
      requires !stopped
      modifies this, policy
      ensures var after := Received(old(View()), f);
              if after.phase.Stopped? || ReplyBody(f).None? then
                View() == after && policy.View() == old(policy.View())
              else
                var reply := ReplyFrame(after, sandbox, f, e);
                && policy.View() == AuthorizeStep(old(policy.View()), reply, e.checks, e.db)
                && View() == Replied(after, f, Admitted(old(policy.View()), reply, e.checks, e.db), e.delivered)
    {
      if f.body.RotationRequest? {
        if pending == NONE {
          var ok := Send(policy, NONE, NONE, RotationIssued, e);
        }
        stopped := true;
        return;
      }
      if f.operation != NONE && f.operation == pending {
        if f.body.Failure? {
          stopped := true;
          return;
        }
        if f.body.Acknowledgement? {
          pending := NONE;
          index := index + 1;
        }
      }
      if f.body.Heartbeat? || f.body.Observation? || f.body.Thread? {
        var ok := Send(policy, NONE, NONE, Acknowledgement(f.message, NONE, f.sequence, 0), e);
        if !ok {
          stopped := true;
        }
      }
    }
  }
}

/** The agent loop's counters, updated in place. `sent` is what the stream has been given. */
module AgentdAgent {
  import opened Common
  import opened AgentdFrames
  import opened AgentdLink

  class Loop {
    const sandbox: Id
    const connection: Id
    const epoch: nat
    var output: nat
    var accepted: nat
    var last: Option<Frame>
    var busy: bool
    var active: Id
    var command: Option<Frame>
    var renewing: bool
    var stopped: bool
    var sent: seq<Frame>

    constructor (sandbox: Id, connection: Id, epoch: nat)
      ensures Valid() && Counters() == Agent(0, 0, None, None, false, false) && sent == []
    {
      this.sandbox, this.connection, this.epoch := sandbox, connection, epoch;
      output, accepted, last, busy, active, command := 0, 0, None, false, NONE, None;
      renewing, stopped, sent := false, false, [];
    }

    /** busy, active and the command being worked on say the same thing. */
    predicate Valid()
      reads this
    {
      && busy == command.Some?
      && active == (if command.Some? then command.value.operation else NONE)
    }

    function Counters(): Agent
      reads this
    {
      Agent(output, accepted, last, command, renewing, stopped)
    }

    /** The loop as one end of a link whose other parts are l's. */
    function On(l: Link): Link
      reads this
    {
      l.(sandbox := sandbox, connection := connection, epoch := epoch, agent := Counters(), toServer := sent)
    }

    method Send(operation: Id, digest: Digest, body: Body, stamp: Stamp, ghost l: Link)
      requires Valid()
      modifies this`output, this`sent
      ensures Valid() && On(l) == AgentSend(old(On(l)), operation, digest, body, stamp)
    {
      output := output + 1;
      sent := sent + [Frame(sandbox, connection, epoch, output, stamp.message, operation, digest, body, stamp.rest)];
    }

    method Heartbeat(stamp: Stamp, ghost l: Link)
      requires Valid()
      modifies this`output, this`sent
      ensures Valid() && On(l) == SendHeartbeat(old(On(l)), stamp)
    {
      Send(NONE, NONE, AgentdFrames.Heartbeat(accepted, output, active), stamp, l);
    }

    /** control.Sequences.Check. */
    method CheckInput(f: Frame) returns (ok: bool)
      modifies this`last
      ensures ok <==> InputAdmits(old(Counters()), f)
      ensures last == if ok then Some(f) else old(last)
    {
      var sequence := 0;
      if last.Some? {
        sequence := last.value.sequence;
        if f.sequence == sequence && last.value == f {
          return true;
        }
      }
      if f.sequence != sequence + 1 {
        return false;
      }
      last := Some(f);
      return true;
    }

    /** One incoming frame. A rotation reply ends the stream either way. */
    method Receive(f: Frame, checked: bool)
      requires Valid()
      modifies this
      ensures Valid() && Counters() == TakeFrame(old(Counters()), f, checked) && sent == old(sent)
    {
      var ok := CheckInput(f);
      if !ok {
        stopped := true;
        return;
      }
      accepted := f.sequence;
      if f.body.Acknowledgement? {
        return;
      }
      if !f.body.Command? || busy || renewing || !checked {
        stopped := true;
        return;
      }
      busy, active, command := true, f.operation, Some(f);
    }

    method Finish(failed: bool, thread: bool, stamps: (Stamp, Stamp, Stamp), ghost l: Link)
      requires Valid() && busy
      modifies this
      ensures Valid() && On(l) == FinishWork(old(On(l)), failed, thread, stamps)
    {
      var f := command.value;
      busy, active, command := false, NONE, None;
      if !failed && thread {
        Send(f.operation, f.digest, Thread, stamps.0, l);
      }
      if failed {
        Send(f.operation, f.digest, Failure(true), stamps.1, l);
      } else {
        Send(f.operation, f.digest, Acknowledgement(f.message, f.digest, f.sequence, 0), stamps.1, l);
      }
      Heartbeat(stamps.2, l);
    }
  }
}

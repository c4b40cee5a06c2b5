/** One stream between the server and an honest agent: the sender state of the agent's
    Serve loop (internal/app/agentd/control_linux.go), two FIFO queues, and the frame
    admission of the server, while every other connection does as it likes. */
module AgentdLink {
  import opened Common
  import opened AgentdFrames
  import R = AgentdRegistry

  /** output, accepted, active/busy and renewalPending of the loop; `last` is its input
      guard and `working` the command whose worker has not finished. */
  datatype Agent = Agent(
    output: nat, accepted: nat, last: Option<Frame>, working: Option<Frame>, renewing: bool, stopped: bool)

  datatype Link = Link(
    sandbox: Id, connection: Id, epoch: nat, transport: Transport, toAgent: seq<Frame>, toServer: seq<Frame>,
    agent: Agent, down: bool)

  /** Fields of an outgoing frame that the agent does not choose. */
  datatype Stamp = Stamp(message: Id, rest: nat)

  datatype Move =
    | World(action: Action)
    | ServerSend(frame: Frame, checks: Checks, db: Time, written: bool)
    | ServerReceive(checks: Checks, db: Time)
    | Beat(stamp: Stamp)
    | Report(stamp: Stamp)
    | Renew(stamp: Stamp)
    | Take(checked: bool)
    | Finish(failed: bool, thread: bool, stamps: (Stamp, Stamp, Stamp))

  // ---------------------------------------------------------------- the agent's loop

  function Active(a: Agent): Id {
    if a.working.Some? then a.working.value.operation else NONE
  }

  /** send: number the frame and hand it to the stream. */
  function AgentSend(s: Link, operation: Id, digest: Digest, body: Body, stamp: Stamp): Link {
    var f := Frame(s.sandbox, s.connection, s.epoch, s.agent.output + 1, stamp.message,
      operation, digest, body, stamp.rest);
    s.(agent := s.agent.(output := s.agent.output + 1), toServer := s.toServer + [f])
  }

  function SendHeartbeat(s: Link, stamp: Stamp): Link {
    AgentSend(s, NONE, NONE, Heartbeat(s.agent.accepted, s.agent.output, Active(s.agent)), stamp)
  }

  /** control.Sequences.Check on the agent's input. */
  predicate InputAdmits(a: Agent, f: Frame) {
    a.last == Some(f) || f.sequence == (if a.last.Some? then a.last.value.sequence else 0) + 1
  }

  /** One incoming frame; `checked` is the verdict of checkCommand on it. */
  function TakeFrame(a: Agent, f: Frame, checked: bool): Agent {
    if !InputAdmits(a, f) then a.(stopped := true)
    else
      var b := a.(last := Some(f), accepted := f.sequence);
      if f.body.Acknowledgement? then b
      else if f.body.Command? && a.working.None? && !a.renewing && checked then b.(working := Some(f))
      else b.(stopped := true)
  }

  /** The worker's result: an optional thread report, the reply, then a heartbeat. */
  function FinishWork(s: Link, failed: bool, thread: bool, stamps: (Stamp, Stamp, Stamp)): Link
    requires s.agent.working.Some?
  {
    var f := s.agent.working.value;
    var idle := s.(agent := s.agent.(working := None));
    var reported := if thread && !failed then AgentSend(idle, f.operation, f.digest, Thread, stamps.0) else idle;
    var body := if failed then Failure(true) else Acknowledgement(f.message, f.digest, f.sequence, 0);
    SendHeartbeat(AgentSend(reported, f.operation, f.digest, body, stamps.1), stamps.2)
  }

  // ---------------------------------------------------------------- steps of the whole link

  predicate OnLink(s: Link, f: Frame) {
    f.sandbox == s.sandbox && f.connection == s.connection && f.epoch == s.epoch
  }

  /** Nothing else uses this connection identity, and each end speaks only for itself. */
  predicate Enabled(s: Link, m: Move) {
    match m
    case World(action) => action.Authorize? ==> action.frame.connection != s.connection
    case ServerSend(f, _, _, _) => !s.down && OnLink(s, f) && FrameDirection(f) == Some(FromServer)
    case ServerReceive(_, _) => !s.down && s.toServer != []
    case Beat(_) => !s.agent.stopped
    case Report(_) => !s.agent.stopped
    case Renew(_) => !s.agent.stopped && s.agent.working.None?
    case Take(_) => !s.agent.stopped && s.toAgent != []
    case Finish(_, _, _) => !s.agent.stopped && s.agent.working.Some?
  }

  function Next(s: Link, m: Move): Link
    requires Enabled(s, m)
  {
    match m
    case World(action) => s.(transport := Step(s.transport, action))
    case ServerSend(f, checks, db, written) =>
      if !Admitted(s.transport, f, checks, db) then s.(down := true)
      else s.(transport := AuthorizeStep(s.transport, f, checks, db),
              toAgent := if written then s.toAgent + [f] else s.toAgent)
    case ServerReceive(checks, db) =>
      if !Admitted(s.transport, s.toServer[0], checks, db) then s.(down := true)
      else s.(transport := AuthorizeStep(s.transport, s.toServer[0], checks, db), toServer := s.toServer[1..])
    case Beat(stamp) => SendHeartbeat(s, stamp)
    case Report(stamp) => AgentSend(s, NONE, NONE, Observation, stamp)
    case Renew(stamp) =>
      AgentSend(s.(agent := s.agent.(renewing := true)), NONE, NONE, RotationRequest, stamp)
    case Take(checked) => s.(agent := TakeFrame(s.agent, s.toAgent[0], checked), toAgent := s.toAgent[1..])
    case Finish(failed, thread, stamps) => FinishWork(s, failed, thread, stamps)
  }

  // ---------------------------------------------------------------- invariant

  function AgentChannel(s: Link): Channel {
    Channel(s.sandbox, s.connection, FromAgent)
  }

  function ServerChannel(s: Link): Channel {
    Channel(s.sandbox, s.connection, FromServer)
  }

  function ServerSent(s: Link): nat {
    LastSequence(s.transport, ServerChannel(s))
  }

  /** The operation a frame from the agent talks about. */
  function Mentions(f: Frame): Id {
    if f.body.Heartbeat? then f.body.active else f.operation
  }

  predicate Settles(f: Frame, op: Id) {
    f.operation == op && (f.body.Acknowledgement? || f.body.Failure?)
  }

  /** The claim is unanswered and was made on this link. */
  predicate Open(s: Link, op: Id) {
    && op != NONE
    && op in s.transport.claims
    && var c := s.transport.claims[op];
    && c.sandbox == s.sandbox && c.connection == s.connection && c.epoch == s.epoch && c.outcome.Pending?
  }

  /** What an honest answer repeats of its claim. */
  predicate Answers(c: Claim, f: Frame) {
    && f.digest == c.digest
    && (f.body.Acknowledgement? ==>
          f.body.message == c.message && f.body.digest == c.digest
          && f.body.accepted == c.sequence && f.body.credit == 0)
  }

  /** A frame waiting for the server, whatever is queued around it. */
  ghost predicate WellSent(s: Link, f: Frame) {
    && OnLink(s, f)
    && FrameDirection(f) == Some(FromAgent)
    && (f.body.Heartbeat? ==> f.body.lastAccepted <= ServerSent(s) && f.body.lastProduced < f.sequence)
    && (Mentions(f) != NONE ==> Open(s, Mentions(f)))
    && (!f.body.Heartbeat? && f.operation != NONE ==> Answers(s.transport.claims[f.operation], f))
  }

  ghost predicate Unsettled(queue: seq<Frame>, op: Id) {
    forall j | 0 <= j < |queue| :: !Settles(queue[j], op)
  }

  /** Numbers follow on from the durable row, and nothing talks about a claim after
      something ahead of it has settled that claim. */
  ghost predicate QueueSound(s: Link) {
    && s.agent.output == LastSequence(s.transport, AgentChannel(s)) + |s.toServer|
    && (forall i | 0 <= i < |s.toServer| ::
          s.toServer[i].sequence == LastSequence(s.transport, AgentChannel(s)) + 1 + i)
    && (forall i | 0 <= i < |s.toServer| :: WellSent(s, s.toServer[i]))
    && (forall i, j | 0 <= j < i < |s.toServer| && Mentions(s.toServer[i]) != NONE ::
          !Settles(s.toServer[j], Mentions(s.toServer[i])))
  }

  /** A command that has not been answered: its claim is open and nothing settles it yet. */
  ghost predicate InFlight(s: Link, f: Frame) {
    && f.body.Command?
    && Open(s, f.operation)
    && s.transport.claims[f.operation] == NewClaim(f)
    && Unsettled(s.toServer, f.operation)
  }

  ghost predicate InputSound(s: Link) {
    && s.agent.accepted <= ServerSent(s)
    && (forall i | 0 <= i < |s.toAgent| :: s.toAgent[i].sequence <= ServerSent(s))
    && (forall i | 0 <= i < |s.toAgent| && s.toAgent[i].body.Command? :: InFlight(s, s.toAgent[i]))
    && (s.agent.working.Some? ==> InFlight(s, s.agent.working.value))
    && (forall i, j | 0 <= i < j < |s.toAgent| && s.toAgent[i].body.Command? :: !s.toAgent[j].body.Command?)
    && (s.agent.working.Some? ==> forall i | 0 <= i < |s.toAgent| :: !s.toAgent[i].body.Command?)
  }

  ghost predicate Sound(s: Link) {
    QueueSound(s) && InputSound(s)
  }

  /** A fresh connection identity: neither direction has a sequence row yet. */
  ghost predicate Initial(s: Link) {
    && s.toAgent == [] && s.toServer == [] && !s.down
    && s.agent == Agent(0, 0, None, None, false, false)
    && AgentChannel(s) !in s.transport.sequences
    && ServerChannel(s) !in s.transport.sequences
  }

  /** The agent and its outgoing queue stand still while the server side moves on
      without settling any open claim of this link. */
  ghost predicate Undisturbed(s: Link, t: Link) {
    && s.sandbox == t.sandbox && s.connection == t.connection && s.epoch == t.epoch
    && s.agent == t.agent && s.toServer == t.toServer
    && LastSequence(s.transport, AgentChannel(s)) == LastSequence(t.transport, AgentChannel(t))
    && ServerSent(s) <= ServerSent(t)
    && forall op | Open(s, op) :: Open(t, op) && t.transport.claims[op] == s.transport.claims[op]
  }

  lemma UndisturbedKeeps(s: Link, t: Link)
    requires Sound(s) && Undisturbed(s, t)
    ensures QueueSound(t)
    ensures forall f | InFlight(s, f) :: InFlight(t, f)
  {
    forall i | 0 <= i < |t.toServer| ensures WellSent(t, t.toServer[i]) {
      assert WellSent(s, s.toServer[i]);
    }
  }

  /** Frames on other connections touch neither this link's rows nor its open claims. */
  lemma WorldKeepsSound(s: Link, action: Action)
    requires Sound(s) && Enabled(s, World(action))
    ensures Sound(Next(s, World(action)))
  {
    UndisturbedKeeps(s, Next(s, World(action)));
  }

  lemma ServerSendUndisturbed(s: Link, f: Frame, checks: Checks, db: Time, written: bool)
    requires Sound(s) && Enabled(s, ServerSend(f, checks, db, written))
    ensures Undisturbed(s, Next(s, ServerSend(f, checks, db, written)))
  {
  }

  /** While a command is in flight the sandbox has an unresolved claim, so no other is admitted. */
  lemma NothingInFlight(s: Link, f: Frame, checks: Checks)
    requires Sound(s) && f.sandbox == s.sandbox && ClaimAdmitted(s.transport, f, checks)
    ensures s.agent.working.None?
    ensures forall i | 0 <= i < |s.toAgent| :: !s.toAgent[i].body.Command?
  {
    assert forall op | Open(s, op) :: op in Unresolved(s.transport, s.sandbox);
  }

  lemma ServerSendKeepsSound(s: Link, f: Frame, checks: Checks, db: Time, written: bool)
    requires Sound(s) && Enabled(s, ServerSend(f, checks, db, written))
    ensures Sound(Next(s, ServerSend(f, checks, db, written)))
  {
    var t := Next(s, ServerSend(f, checks, db, written));
    ServerSendUndisturbed(s, f, checks, db, written);
    UndisturbedKeeps(s, t);
    if Admitted(s.transport, f, checks, db) && f.body.Command? {
      NothingInFlight(s, f, checks);
      forall j | 0 <= j < |s.toServer| ensures !Settles(s.toServer[j], f.operation) {
        assert WellSent(s, s.toServer[j]);
      }
      assert InFlight(t, f);
    }
  }

  /** An honest frame is admitted exactly when the connection is live and the outside
      checks pass: no rule of the ledger, the sequence or the heartbeat ever refuses it. */
  lemma HonestFrameAdmitted(s: Link, checks: Checks, db: Time)
    requires Sound(s) && s.toServer != []
    ensures var f := s.toServer[0];
            Admitted(s.transport, f, checks, db) <==>
              && f.sequence <= MAX_INT64 && checks.admitted && checks.shaped && Live(s.transport, f, db)
              && (f.body.Thread? ==> checks.saved)
              && (f.body.Acknowledgement? ==> checks.started)
  {
    var f := s.toServer[0];
    assert WellSent(s, f);
    assert f.sequence == LastSequence(s.transport, AgentChannel(s)) + 1;
  }

  lemma ServerReceiveKeepsSound(s: Link, checks: Checks, db: Time)
    requires Sound(s) && Enabled(s, ServerReceive(checks, db))
    ensures Sound(Next(s, ServerReceive(checks, db)))
  {
    var t := Next(s, ServerReceive(checks, db));
    var f := s.toServer[0];
    assert WellSent(s, f);
    if Admitted(s.transport, f, checks, db) {
      assert LastSequence(t.transport, AgentChannel(t)) == LastSequence(s.transport, AgentChannel(s)) + 1;
      assert forall op :: Open(s, op) && !Settles(f, op) ==>
        Open(t, op) && t.transport.claims[op] == s.transport.claims[op];
      assert forall g :: InFlight(s, g) ==> InFlight(t, g);
      forall i | 0 <= i < |t.toServer| ensures WellSent(t, t.toServer[i]) {
        assert t.toServer[i] == s.toServer[i + 1];
        assert WellSent(s, s.toServer[i + 1]);
      }
    } else {
      UndisturbedKeeps(s, t);
    }
  }

  ghost predicate Quiet(s: Link) {
    s.agent.working.None? && forall i | 0 <= i < |s.toAgent| :: !s.toAgent[i].body.Command?
  }

  /** Appending a well formed frame about an unsettled claim keeps the queue sound; a
      settling frame may only be sent when no command is in flight. */
  lemma AgentSendKeepsSound(s: Link, operation: Id, digest: Digest, body: Body, stamp: Stamp)
    requires Sound(s)
    requires var t := AgentSend(s, operation, digest, body, stamp);
             var f := t.toServer[|s.toServer|];
             WellSent(t, f) && (Mentions(f) != NONE ==> Unsettled(s.toServer, Mentions(f)))
    requires operation != NONE && (body.Acknowledgement? || body.Failure?) ==> Quiet(s)
    ensures Sound(AgentSend(s, operation, digest, body, stamp))
  {
    var t := AgentSend(s, operation, digest, body, stamp);
    var f := t.toServer[|s.toServer|];
    forall i | 0 <= i < |t.toServer| ensures WellSent(t, t.toServer[i]) {
      if i < |s.toServer| {
        assert t.toServer[i] == s.toServer[i];
        assert WellSent(s, s.toServer[i]);
      }
    }
    forall g | InFlight(s, g) && !Settles(f, g.operation) ensures InFlight(t, g) {
    }
  }

  lemma HeartbeatKeepsSound(s: Link, stamp: Stamp)
    requires Sound(s)
    ensures Sound(SendHeartbeat(s, stamp))
  {
    AgentSendKeepsSound(s, NONE, NONE, Heartbeat(s.agent.accepted, s.agent.output, Active(s.agent)), stamp);
  }

  lemma IdleKeepsSound(s: Link)
    requires Sound(s) && s.agent.working.Some?
    ensures Sound(s.(agent := s.agent.(working := None)))
    ensures InFlight(s.(agent := s.agent.(working := None)), s.agent.working.value)
  {
    var idle := s.(agent := s.agent.(working := None));
    assert InFlight(idle, s.agent.working.value);
    forall i | 0 <= i < |s.toServer| ensures WellSent(idle, idle.toServer[i]) {
      assert WellSent(s, s.toServer[i]);
    }
  }

  lemma FinishKeepsSound(s: Link, failed: bool, thread: bool, stamps: (Stamp, Stamp, Stamp))
    requires Sound(s) && s.agent.working.Some?
    ensures Sound(FinishWork(s, failed, thread, stamps))
  {
    var f := s.agent.working.value;
    var idle := s.(agent := s.agent.(working := None));
    IdleKeepsSound(s);
    var reported := if thread && !failed then AgentSend(idle, f.operation, f.digest, Thread, stamps.0) else idle;
    assert Sound(reported) && InFlight(reported, f) by {
      if thread && !failed {
        AgentSendKeepsSound(idle, f.operation, f.digest, Thread, stamps.0);
      }
    }
    var body := if failed then Failure(true) else Acknowledgement(f.message, f.digest, f.sequence, 0);
    AgentSendKeepsSound(reported, f.operation, f.digest, body, stamps.1);
    HeartbeatKeepsSound(AgentSend(reported, f.operation, f.digest, body, stamps.1), stamps.2);
  }

  lemma TakeKeepsSound(s: Link, checked: bool)
    requires Sound(s) && Enabled(s, Take(checked))
    ensures Sound(Next(s, Take(checked)))
  {
    var t := Next(s, Take(checked));
    var f := s.toAgent[0];
    forall i | 0 <= i < |t.toServer| ensures WellSent(t, t.toServer[i]) {
      assert WellSent(s, s.toServer[i]);
    }
    forall i | 0 <= i < |t.toAgent| && t.toAgent[i].body.Command? ensures InFlight(t, t.toAgent[i]) {
      assert t.toAgent[i] == s.toAgent[i + 1];
      assert InFlight(s, s.toAgent[i + 1]);
    }
    if f.body.Command? {
      assert InFlight(s, f);
    }
  }

  lemma NextKeepsSound(s: Link, m: Move)
    requires Sound(s) && Enabled(s, m)
    ensures Sound(Next(s, m))
  {
    match m
    case World(action) => WorldKeepsSound(s, action);
    case ServerSend(f, checks, db, written) => ServerSendKeepsSound(s, f, checks, db, written);
    case ServerReceive(checks, db) => ServerReceiveKeepsSound(s, checks, db);
    case Beat(stamp) => HeartbeatKeepsSound(s, stamp);
    case Report(stamp) => AgentSendKeepsSound(s, NONE, NONE, Observation, stamp);
    case Renew(stamp) =>
      var u := s.(agent := s.agent.(renewing := true));
      assert Sound(u) by {
        forall i | 0 <= i < |s.toServer| ensures WellSent(u, u.toServer[i]) {
          assert WellSent(s, s.toServer[i]);
        }
      }
      AgentSendKeepsSound(u, NONE, NONE, RotationRequest, stamp);
    case Take(checked) => TakeKeepsSound(s, checked);
    case Finish(failed, thread, stamps) => FinishKeepsSound(s, failed, thread, stamps);
  }

  // ---------------------------------------------------------------- whole runs

  ghost predicate IsRun(states: seq<Link>, moves: seq<Move>) {
    && |states| == |moves| + 1
    && Initial(states[0])
    && forall i | 0 <= i < |moves| :: Enabled(states[i], moves[i]) && states[i + 1] == Next(states[i], moves[i])
  }

  lemma {:induction false} RunSound(states: seq<Link>, moves: seq<Move>, i: nat)
    requires IsRun(states, moves) && i < |states|
    ensures Sound(states[i])
  {
    if i > 0 {
      RunSound(states, moves, i - 1);
      NextKeepsSound(states[i - 1], moves[i - 1]);
    }
  }

  /** Over a FIFO link every frame an honest agent sends, and in particular each of its
      heartbeats, meets the server's accepted, produced, active-operation, sequence and
      ledger bounds at the moment the server reads it. */
  lemma HonestFramesAlwaysBounded(states: seq<Link>, moves: seq<Move>, i: nat, checks: Checks, db: Time)
    requires IsRun(states, moves) && i < |states| && states[i].toServer != []
    ensures var f := states[i].toServer[0];
            && HeartbeatBounded(states[i].transport, f)
            && SequenceAdmits(states[i].transport, AgentChannel(states[i]), f)
    ensures var f := states[i].toServer[0];
            Admitted(states[i].transport, f, checks, db) <==>
              && f.sequence <= MAX_INT64 && checks.admitted && checks.shaped && Live(states[i].transport, f, db)
              && (f.body.Thread? ==> checks.saved)
              && (f.body.Acknowledgement? ==> checks.started)
  {
    RunSound(states, moves, i);
    HonestFrameAdmitted(states[i], checks, db);
    assert WellSent(states[i], states[i].toServer[0]);
  }
}

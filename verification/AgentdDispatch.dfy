/** The server side dispatch loop (internal/app/agentdserver/handler.go) over the durable
    ledger. Any number of handlers, on any connections, run the same operator plan against
    one sandbox while the registry, the agent and other streams interleave arbitrarily.
    A handler may stop between any two of its steps, which also models a crash. */
module AgentdDispatch {
  import opened Common
  import opened AgentdFrames
  import R = AgentdRegistry

  datatype Planned = Planned(operation: Id, digest: Digest, kind: Kind)

  datatype Phase = Polling | Claiming | Stopped

  /** The locals of Serve, and the frames its receiver has checked but not yet handled. */
  datatype Handler = Handler(
    connection: Id, epoch: nat, index: nat, pending: Id, sequence: nat, phase: Phase, inbox: seq<Frame>)

  datatype System = System(transport: Transport, handlers: map<nat, Handler>)

  /** Fields of an outgoing frame that the loop does not choose. */
  datatype Envelope = Envelope(message: Id, rest: nat, checks: Checks, db: Time, delivered: bool)

  datatype Move =
    | Environment(action: Action)
    | Open(h: nat, connection: Id, epoch: nat)
    | Poll(h: nat)
    | Dispatch(h: nat, envelope: Envelope)
    | Deliver(h: nat, frame: Frame, checks: Checks, db: Time)
    | Handle(h: nat, envelope: Envelope)
    | Stop(h: nat)

  // ---------------------------------------------------------------- the loop's branches

  /** The timer branch, after CommandOutcome has answered. */
  function Polled(h: Handler, lookup: Lookup): Handler {
    match lookup
    case Missing => h.(phase := Claiming)
    case Conflict => h.(phase := Stopped)
    case Found(outcome) => if outcome.Acknowledged? then h.(index := h.index + 1) else h.(phase := Stopped)
  }

  function Outgoing(h: Handler, sandbox: Id, operation: Id, digest: Digest, body: Body, e: Envelope): Frame {
    Frame(sandbox, h.connection, h.epoch, h.sequence + 1, e.message, operation, digest, body, e.rest)
  }

  /** Send: number the frame, authorize it, write it. The claim is durable before the write. */
  function Sent(h: Handler, accepted: bool, delivered: bool): Handler {
    h.(sequence := h.sequence + 1, phase := if accepted && delivered then Polling else Stopped)
  }

  /** The rest of the timer branch, after the command frame was sent. */
  function Dispatched(h: Handler, c: Planned, accepted: bool, delivered: bool): Handler {
    var after := Sent(h, accepted, delivered);
    if after.phase.Polling? then after.(pending := c.operation) else after
  }

  /** The receive branch up to its own reply. */
  function Received(h: Handler, f: Frame): Handler {
    if f.body.RotationRequest? then
      (if h.pending != NONE then h.(phase := Stopped) else h)
    else if f.operation != NONE && f.operation == h.pending && f.body.Failure? then h.(phase := Stopped)
    else if f.operation != NONE && f.operation == h.pending && f.body.Acknowledgement? then
      h.(pending := NONE, index := h.index + 1)
    else h
  }

  /** The reply that the receive branch sends, if any. */
  function ReplyBody(f: Frame): Option<Body> {
    if f.body.RotationRequest? then Some(RotationIssued)
    else if f.body.Heartbeat? || f.body.Observation? || f.body.Thread? then
      Some(Acknowledgement(f.message, NONE, f.sequence, 0))
    else None
  }

  /** A rotation reply ends the stream whatever happens to it. */
  function Replied(h: Handler, f: Frame, accepted: bool, delivered: bool): Handler {
    if f.body.RotationRequest? then Sent(h, accepted, false) else Sent(h, accepted, delivered)
  }

  // ---------------------------------------------------------------- system steps

  predicate Running(s: System, h: nat) {
    h in s.handlers && !s.handlers[h].phase.Stopped?
  }

  /** Only handlers send commands to this sandbox; everything else may happen at any time. */
  predicate Enabled(s: System, m: Move, sandbox: Id, plan: seq<Planned>) {
    match m
    case Environment(action) => !ClaimsCommand(action, sandbox)
    case Open(h, _, _) => h !in s.handlers
    case Poll(h) => Running(s, h) && s.handlers[h].phase.Polling? && s.handlers[h].pending == NONE
      && s.handlers[h].index < |plan|
    case Dispatch(h, _) => Running(s, h) && s.handlers[h].phase.Claiming? && s.handlers[h].index < |plan|
    case Deliver(h, f, _, _) => Running(s, h) && !f.body.Command? && f.sandbox == sandbox
      && f.connection == s.handlers[h].connection && f.epoch == s.handlers[h].epoch
    case Handle(h, _) => Running(s, h) && s.handlers[h].phase.Polling? && s.handlers[h].inbox != []
    case Stop(h) => h in s.handlers
  }

  function With(s: System, t: Transport, h: nat, handler: Handler): System {
    System(t, s.handlers[h := handler])
  }

  function ClaimFrame(h: Handler, sandbox: Id, c: Planned, e: Envelope): Frame {
    Outgoing(h, sandbox, c.operation, c.digest, Command(c.kind), e)
  }

  function ReplyFrame(h: Handler, sandbox: Id, f: Frame, e: Envelope): Frame
    requires ReplyBody(f).Some?
  {
    Outgoing(h, sandbox, NONE, NONE, ReplyBody(f).value, e)
  }

  function HandleMove(s: System, h: nat, e: Envelope, sandbox: Id): System
    requires h in s.handlers && s.handlers[h].inbox != []
  {
    var f := s.handlers[h].inbox[0];
    var after := Received(s.handlers[h].(inbox := s.handlers[h].inbox[1..]), f);
    if after.phase.Stopped? || ReplyBody(f).None? then With(s, s.transport, h, after)
    else
      var reply := ReplyFrame(after, sandbox, f, e);
      With(s, AuthorizeStep(s.transport, reply, e.checks, e.db), h,
           Replied(after, f, Admitted(s.transport, reply, e.checks, e.db), e.delivered))
  }

  function Next(s: System, m: Move, sandbox: Id, plan: seq<Planned>): System
    requires Enabled(s, m, sandbox, plan)
  {
    match m
    case Environment(action) => s.(transport := Step(s.transport, action))
    case Open(h, connection, epoch) =>
      With(s, s.transport, h, Handler(connection, epoch, 0, NONE, 0, Polling, []))
    case Poll(h) =>
      var c := plan[s.handlers[h].index];
      With(s, s.transport, h, Polled(s.handlers[h], CommandOutcome(s.transport, sandbox, c.operation, c.digest)))
    case Dispatch(h, e) =>
      var c := plan[s.handlers[h].index];
      var f := ClaimFrame(s.handlers[h], sandbox, c, e);
      With(s, AuthorizeStep(s.transport, f, e.checks, e.db), h,
           Dispatched(s.handlers[h], c, Admitted(s.transport, f, e.checks, e.db), e.delivered))
    case Deliver(h, f, checks, db) =>
      if Admitted(s.transport, f, checks, db) then
        With(s, AuthorizeStep(s.transport, f, checks, db), h,
             s.handlers[h].(inbox := s.handlers[h].inbox + [f]))
      else With(s, s.transport, h, s.handlers[h].(phase := Stopped))
    case Handle(h, e) => HandleMove(s, h, e, sandbox)
    case Stop(h) => With(s, s.transport, h, s.handlers[h].(phase := Stopped))
  }

  // ---------------------------------------------------------------- invariant

  ghost predicate DistinctPlan(plan: seq<Planned>) {
    && (forall i | 0 <= i < |plan| :: plan[i].operation != NONE)
    && (forall i, j | 0 <= i < j < |plan| :: plan[i].operation != plan[j].operation)
  }

  predicate Resolved(t: Transport, sandbox: Id, operation: Id) {
    operation in t.claims && t.claims[operation].sandbox == sandbox && t.claims[operation].outcome.Acknowledged?
  }

  /** Only planned operations are in the ledger, and a dispatched one has only
      ACKNOWLEDGED ones before it. */
  ghost predicate InPlanOrder(t: Transport, sandbox: Id, plan: seq<Planned>) {
    && (forall op | op in Ledger(t, sandbox) :: exists i :: 0 <= i < |plan| && plan[i].operation == op)
    && (forall i, j | 0 <= i < j < |plan| && plan[j].operation in Ledger(t, sandbox) ::
          Resolved(t, sandbox, plan[i].operation))
  }

  ghost predicate HandlerSound(t: Transport, h: Handler, sandbox: Id, plan: seq<Planned>) {
    && h.index <= |plan|
    && (forall i | 0 <= i < h.index :: Resolved(t, sandbox, plan[i].operation))
    && (h.pending != NONE ==> h.index < |plan| && h.pending == plan[h.index].operation)
    && (h.phase.Claiming? ==> h.pending == NONE)
    && (forall f | f in h.inbox && f.body.Acknowledgement? && f.operation != NONE :: Resolved(t, sandbox, f.operation))
  }

  ghost predicate Sound(s: System, sandbox: Id, plan: seq<Planned>) {
    && InPlanOrder(s.transport, sandbox, plan)
    && forall h | h in s.handlers :: HandlerSound(s.transport, s.handlers[h], sandbox, plan)
  }

  lemma HandlerSoundStable(t: Transport, u: Transport, h: Handler, sandbox: Id, plan: seq<Planned>)
    requires HandlerSound(t, h, sandbox, plan) && Advanced(t, u)
    ensures HandlerSound(u, h, sandbox, plan)
  {
  }

  /** A transport step that sends no command to the sandbox leaves its ledger's keys alone. */
  lemma QuietStepKeepsOrder(t: Transport, a: Action, sandbox: Id, plan: seq<Planned>)
    requires InPlanOrder(t, sandbox, plan) && !ClaimsCommand(a, sandbox)
    ensures InPlanOrder(Step(t, a), sandbox, plan)
  {
    StepAdvances(t, a);
    assert Ledger(Step(t, a), sandbox) == Ledger(t, sandbox);
  }

  lemma ClaimKeepsOrder(t: Transport, f: Frame, checks: Checks, db: Time, k: nat, sandbox: Id, plan: seq<Planned>)
    requires DistinctPlan(plan) && InPlanOrder(t, sandbox, plan) && Admitted(t, f, checks, db)
    requires k < |plan| && f.body.Command? && f.sandbox == sandbox && f.operation == plan[k].operation
    requires forall i | 0 <= i < k :: Resolved(t, sandbox, plan[i].operation)
    ensures InPlanOrder(AuthorizeStep(t, f, checks, db), sandbox, plan)
  {
    var u := AuthorizeStep(t, f, checks, db);
    ClaimsAfterLedger(t, f, checks, db, sandbox);
    forall i, j | 0 <= i < j < |plan| && plan[j].operation in Ledger(u, sandbox)
      ensures Resolved(u, sandbox, plan[i].operation)
    {
      if plan[j].operation in Ledger(t, sandbox) {
        assert Resolved(t, sandbox, plan[i].operation);
      }
    }
  }

  /** Every handler but h keeps its facts when only h's locals and the transport move. */
  lemma OthersStaySound(s: System, u: Transport, h: nat, after: Handler, sandbox: Id, plan: seq<Planned>)
    requires Sound(s, sandbox, plan) && Advanced(s.transport, u) && InPlanOrder(u, sandbox, plan)
    requires HandlerSound(u, after, sandbox, plan)
    ensures Sound(With(s, u, h, after), sandbox, plan)
  {
    forall k | k in s.handlers ensures HandlerSound(u, s.handlers[k], sandbox, plan) {
      HandlerSoundStable(s.transport, u, s.handlers[k], sandbox, plan);
    }
  }

  lemma PollKeepsSound(s: System, h: nat, sandbox: Id, plan: seq<Planned>)
    requires Sound(s, sandbox, plan) && Enabled(s, Poll(h), sandbox, plan)
    ensures Sound(Next(s, Poll(h), sandbox, plan), sandbox, plan)
  {
    var c := plan[s.handlers[h].index];
    var after := Polled(s.handlers[h], CommandOutcome(s.transport, sandbox, c.operation, c.digest));
    assert HandlerSound(s.transport, s.handlers[h], sandbox, plan);
    ReflexiveAdvance(s.transport);
    OthersStaySound(s, s.transport, h, after, sandbox, plan);
  }

  lemma ReflexiveAdvance(t: Transport)
    ensures Advanced(t, t)
  {
  }

  lemma DispatchKeepsSound(s: System, h: nat, e: Envelope, sandbox: Id, plan: seq<Planned>)
    requires DistinctPlan(plan) && Sound(s, sandbox, plan) && Enabled(s, Dispatch(h, e), sandbox, plan)
    ensures Sound(Next(s, Dispatch(h, e), sandbox, plan), sandbox, plan)
  {
    var before := s.handlers[h];
    var c := plan[before.index];
    var f := ClaimFrame(before, sandbox, c, e);
    var u := AuthorizeStep(s.transport, f, e.checks, e.db);
    StepAdvances(s.transport, Authorize(f, e.checks, e.db));
    assert HandlerSound(s.transport, before, sandbox, plan);
    if Admitted(s.transport, f, e.checks, e.db) {
      ClaimKeepsOrder(s.transport, f, e.checks, e.db, before.index, sandbox, plan);
    }
    HandlerSoundStable(s.transport, u, before, sandbox, plan);
    OthersStaySound(s, u, h, Next(s, Dispatch(h, e), sandbox, plan).handlers[h], sandbox, plan);
  }

  lemma DeliverKeepsSound(s: System, h: nat, f: Frame, checks: Checks, db: Time, sandbox: Id, plan: seq<Planned>)
    requires Sound(s, sandbox, plan) && Enabled(s, Deliver(h, f, checks, db), sandbox, plan)
    ensures Sound(Next(s, Deliver(h, f, checks, db), sandbox, plan), sandbox, plan)
  {
    var before := s.handlers[h];
    var after := Next(s, Deliver(h, f, checks, db), sandbox, plan).handlers[h];
    assert HandlerSound(s.transport, before, sandbox, plan);
    var u := AuthorizeStep(s.transport, f, checks, db);
    StepAdvances(s.transport, Authorize(f, checks, db));
    QuietStepKeepsOrder(s.transport, Authorize(f, checks, db), sandbox, plan);
    HandlerSoundStable(s.transport, u, before, sandbox, plan);
    assert HandlerSound(u, after, sandbox, plan);
    OthersStaySound(s, u, h, after, sandbox, plan);
  }

  lemma ReceivedSound(t: Transport, h: Handler, sandbox: Id, plan: seq<Planned>)
    requires HandlerSound(t, h, sandbox, plan) && h.inbox != []
    ensures HandlerSound(t, Received(h.(inbox := h.inbox[1..]), h.inbox[0]), sandbox, plan)
  {
    assert h.inbox[0] in h.inbox;
  }

  lemma HandleKeepsSound(s: System, h: nat, e: Envelope, sandbox: Id, plan: seq<Planned>)
    requires Sound(s, sandbox, plan) && Enabled(s, Handle(h, e), sandbox, plan)
    ensures Sound(Next(s, Handle(h, e), sandbox, plan), sandbox, plan)
  {
    var before := s.handlers[h];
    assert HandlerSound(s.transport, before, sandbox, plan);
    ReceivedSound(s.transport, before, sandbox, plan);
    var f := before.inbox[0];
    var after := Received(before.(inbox := before.inbox[1..]), f);
    ReflexiveAdvance(s.transport);
    if after.phase.Stopped? || ReplyBody(f).None? {
      OthersStaySound(s, s.transport, h, after, sandbox, plan);
    } else {
      var reply := ReplyFrame(after, sandbox, f, e);
      var u := AuthorizeStep(s.transport, reply, e.checks, e.db);
      StepAdvances(s.transport, Authorize(reply, e.checks, e.db));
      QuietStepKeepsOrder(s.transport, Authorize(reply, e.checks, e.db), sandbox, plan);
      HandlerSoundStable(s.transport, u, after, sandbox, plan);
      OthersStaySound(s, u, h,
        Replied(after, f, Admitted(s.transport, reply, e.checks, e.db), e.delivered), sandbox, plan);
    }
  }

  lemma NextKeepsSound(s: System, m: Move, sandbox: Id, plan: seq<Planned>)
    requires DistinctPlan(plan) && Sound(s, sandbox, plan) && Enabled(s, m, sandbox, plan)
    ensures Sound(Next(s, m, sandbox, plan), sandbox, plan)
  {
    ReflexiveAdvance(s.transport);
    match m
    case Environment(action) =>
      StepAdvances(s.transport, action);
      QuietStepKeepsOrder(s.transport, action, sandbox, plan);
      forall k | k in s.handlers ensures HandlerSound(Step(s.transport, action), s.handlers[k], sandbox, plan) {
        HandlerSoundStable(s.transport, Step(s.transport, action), s.handlers[k], sandbox, plan);
      }
    case Open(h, _, _) => OthersStaySound(s, s.transport, h, Next(s, m, sandbox, plan).handlers[h], sandbox, plan);
    case Poll(h) => PollKeepsSound(s, h, sandbox, plan);
    case Dispatch(h, e) => DispatchKeepsSound(s, h, e, sandbox, plan);
    case Deliver(h, f, checks, db) => DeliverKeepsSound(s, h, f, checks, db, sandbox, plan);
    case Handle(h, e) => HandleKeepsSound(s, h, e, sandbox, plan);
    case Stop(h) =>
      assert HandlerSound(s.transport, s.handlers[h], sandbox, plan);
      OthersStaySound(s, s.transport, h, s.handlers[h].(phase := Stopped), sandbox, plan);
  }

  // ---------------------------------------------------------------- whole runs

  ghost predicate IsRun(states: seq<System>, moves: seq<Move>, sandbox: Id, plan: seq<Planned>) {
    && |states| == |moves| + 1
    && states[0].handlers == map[]
    && Ledger(states[0].transport, sandbox) == {}
    && forall i | 0 <= i < |moves| ::
         Enabled(states[i], moves[i], sandbox, plan) && states[i + 1] == Next(states[i], moves[i], sandbox, plan)
  }

  lemma {:induction false} RunSound(states: seq<System>, moves: seq<Move>, sandbox: Id, plan: seq<Planned>, i: nat)
    requires DistinctPlan(plan) && IsRun(states, moves, sandbox, plan) && i < |states|
    ensures Sound(states[i], sandbox, plan)
  {
    if i > 0 {
      RunSound(states, moves, sandbox, plan, i - 1);
      NextKeepsSound(states[i - 1], moves[i - 1], sandbox, plan);
    }
  }

  /** The first n commands of the plan are ACKNOWLEDGED, nothing else is, and the ledger
      holds them and at most the one command that follows them. */
  ghost predicate AcknowledgedPrefix(t: Transport, sandbox: Id, plan: seq<Planned>, n: nat) {
    && n <= |plan|
    && (forall i | 0 <= i < |plan| :: Resolved(t, sandbox, plan[i].operation) <==> i < n)
    && (forall i | 0 <= i < |plan| :: plan[i].operation in Ledger(t, sandbox) ==> i <= n)
    && (forall op | op in Ledger(t, sandbox) :: exists i :: 0 <= i < |plan| && plan[i].operation == op)
  }

  lemma {:induction false} PrefixLength(t: Transport, sandbox: Id, plan: seq<Planned>, n: nat) returns (k: nat)
    requires InPlanOrder(t, sandbox, plan) && n <= |plan|
    requires forall i | 0 <= i < n :: Resolved(t, sandbox, plan[i].operation)
    ensures AcknowledgedPrefix(t, sandbox, plan, k)
    decreases |plan| - n
  {
    if n < |plan| && Resolved(t, sandbox, plan[n].operation) {
      k := PrefixLength(t, sandbox, plan, n + 1);
    } else {
      k := n;
      forall i | n <= i < |plan| ensures !Resolved(t, sandbox, plan[i].operation) {
        assert Resolved(t, sandbox, plan[i].operation) ==> plan[i].operation in Ledger(t, sandbox);
      }
    }
  }

  /** However often streams reconnect and handlers crash and restart, in every reachable
      state the ACKNOWLEDGED commands are a prefix of the plan, at most one unresolved
      command follows it, and nothing behind that one has been dispatched. */
  lemma PlanDispatchedInOrder(states: seq<System>, moves: seq<Move>, sandbox: Id, plan: seq<Planned>, i: nat)
    requires DistinctPlan(plan) && IsRun(states, moves, sandbox, plan) && i < |states|
    ensures exists n: nat :: AcknowledgedPrefix(states[i].transport, sandbox, plan, n)
  {
    RunSound(states, moves, sandbox, plan, i);
    var n := PrefixLength(states[i].transport, sandbox, plan, 0);
  }

  /** A handler that has run off the end of its plan has proof that all of it was acknowledged. */
  lemma FinishedMeansAcknowledged(
    states: seq<System>, moves: seq<Move>, sandbox: Id, plan: seq<Planned>, i: nat, h: nat, k: nat)
    requires DistinctPlan(plan) && IsRun(states, moves, sandbox, plan) && i < |states|
    requires h in states[i].handlers && k < states[i].handlers[h].index
    ensures k < |plan| && Resolved(states[i].transport, sandbox, plan[k].operation)
  {
    RunSound(states, moves, sandbox, plan, i);
    assert HandlerSound(states[i].transport, states[i].handlers[h], sandbox, plan);
  }

  /** One round of the loop: a command nobody has claimed is sent as planned and then waited
      for; only its own acknowledgement moves the plan on, by one, and its own failure ends
      the stream. After a restart the ledger moves the plan on in the same way. */
  lemma OneRound(h: Handler, sandbox: Id, c: Planned, e: Envelope, f: Frame, outcome: Outcome)
    requires h.phase.Polling? && h.pending == NONE && c.operation != NONE
    ensures Polled(h, Found(outcome))
            == if outcome == Acknowledged then h.(index := h.index + 1) else h.(phase := Stopped)
    ensures var sent := ClaimFrame(h, sandbox, c, e);
            && sent.body == Command(c.kind) && sent.operation == c.operation && sent.digest == c.digest
            && sent.sandbox == sandbox && sent.connection == h.connection && sent.epoch == h.epoch
            && sent.sequence == h.sequence + 1
    ensures var waiting := Dispatched(Polled(h, Missing), c, true, true);
            && waiting == h.(pending := c.operation, sequence := h.sequence + 1)
            && (f.operation == c.operation && f.body.Acknowledgement? ==>
                  Received(waiting, f) == waiting.(pending := NONE, index := h.index + 1))
            && (f.operation == c.operation && f.body.Failure? ==> Received(waiting, f) == waiting.(phase := Stopped))
            && (f.operation != c.operation && !f.body.RotationRequest? ==> Received(waiting, f) == waiting)
    ensures forall accepted, delivered :: !(accepted && delivered) ==>
              Dispatched(Polled(h, Missing), c, accepted, delivered).phase == Stopped
  {
  }
}

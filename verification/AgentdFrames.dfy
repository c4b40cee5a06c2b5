/** Frame admission on an agentd stream (internal/adapters/postgres/agentd_policy.go):
    the per-direction sequence rows, the durable command ledger and its outcomes, on
    top of the connection registry. One AuthorizeFrame transaction is one step. */
module AgentdFrames {
  import opened Common
  import R = AgentdRegistry

  const MAX_COMMANDS: nat := 128

  datatype Kind = Start | Stop | Restart | Interrupt | Status | Execute

  datatype Body =
    | Command(kind: Kind)
    | Acknowledgement(message: Id, digest: Digest, accepted: nat, credit: nat)
    | Failure(outcomeUnknown: bool)
    | Heartbeat(lastAccepted: nat, lastProduced: nat, active: Id)
    | Thread
    | Observation
    | RotationRequest
    | RotationIssued

  /** An envelope. `rest` is every field that admission only compares or ignores, so two
      frames are equal exactly when their deterministic encodings are. */
  datatype Frame = Frame(
    sandbox: Id, connection: Id, epoch: nat, sequence: nat, message: Id, operation: Id, digest: Digest,
    body: Body, rest: nat)

  datatype Direction = FromServer | FromAgent

  datatype Channel = Channel(sandbox: Id, connection: Id, direction: Direction)

  datatype Outcome = Pending | Acknowledged | Unknown

  /** A row of agentd_commands, keyed by operation within the tenant. */
  datatype Claim = Claim(
    sandbox: Id, digest: Digest, connection: Id, epoch: nat, message: Id, sequence: nat, outcome: Outcome)

  /** `sequences` keeps the latest accepted frame of each channel, as agentd_frame_sequences
      keeps its number and digest. */
  datatype Transport = Transport(
    registry: R.Registry, claims: map<Id, Claim>, sequences: map<Channel, Frame>)

  /** Verdicts of the checks that read rows outside this model: the aggregate fence and
      live materialization, the frame's shape, the harness preconditions of a command,
      the harness row an acknowledged START needs, and the thread row an observation
      stores. Each is arbitrary. */
  datatype Checks = Checks(admitted: bool, shaped: bool, ready: bool, started: bool, saved: bool)

  datatype Action =
    | OnRegistry(action: R.Action)
    | Authorize(frame: Frame, checks: Checks, db: Time)

  // ---------------------------------------------------------------- step functions

  /** The direction in which policyFrame accepts a frame, if any. */
  function FrameDirection(f: Frame): Option<Direction> {
    match f.body
    case Command(_) => if f.operation != NONE then Some(FromServer) else None
    case Thread => if f.operation != NONE then Some(FromAgent) else None
    case Acknowledgement(_, digest, accepted, credit) =>
      if f.operation != NONE then Some(FromAgent)
      else if f.digest == NONE && digest == NONE && accepted != 0 && credit == 0 then Some(FromServer)
      else None
    case Failure(unknown) => if f.operation != NONE && unknown then Some(FromAgent) else None
    case Heartbeat(_, _, _) => if f.operation == NONE && f.digest == NONE then Some(FromAgent) else None
    case Observation => if f.operation == NONE && f.digest == NONE then Some(FromAgent) else None
    case RotationRequest => if f.operation == NONE && f.digest == NONE then Some(FromAgent) else None
    case RotationIssued => if f.operation == NONE && f.digest == NONE then Some(FromServer) else None
  }

  function ChannelOf(f: Frame, d: Direction): Channel {
    Channel(f.sandbox, f.connection, d)
  }

  /** The last number accepted on a channel; 0 before the first frame. */
  function LastSequence(s: Transport, ch: Channel): nat {
    if ch in s.sequences then s.sequences[ch].sequence else 0
  }

  /** The frame's connection is the sandbox's live one and its deadline has not passed. */
  predicate Live(s: Transport, f: Frame, db: Time) {
    && f.sandbox in s.registry.cursors
    && var cursor := s.registry.cursors[f.sandbox];
    && cursor.live.Some?
    && cursor.live.value.id == f.connection
    && cursor.epoch == f.epoch
    && db < cursor.live.value.deadline
  }

  /** An agent may not report more progress than it was sent, nor invent an operation. */
  predicate HeartbeatBounded(s: Transport, f: Frame) {
    f.body.Heartbeat? ==>
      && f.body.lastAccepted <= LastSequence(s, ChannelOf(f, FromServer))
      && f.body.lastProduced < f.sequence
      && (f.body.active != NONE ==>
            && f.body.active in s.claims
            && s.claims[f.body.active].sandbox == f.sandbox
            && s.claims[f.body.active].connection == f.connection
            && s.claims[f.body.active].outcome.Pending?)
  }

  predicate AckBounded(s: Transport, f: Frame) {
    f.body.Acknowledgement? && f.operation == NONE ==>
      var ch := ChannelOf(f, FromAgent);
      ch in s.sequences && f.body.accepted <= s.sequences[ch].sequence
  }

  /** policySequence: the next number, or the latest frame again, bit for bit. */
  predicate SequenceAdmits(s: Transport, ch: Channel, f: Frame) {
    || (ch in s.sequences && s.sequences[ch] == f)
    || f.sequence == LastSequence(s, ch) + 1
  }

  function Ledger(s: Transport, sandbox: Id): set<Id> {
    set op | op in s.claims && s.claims[op].sandbox == sandbox
  }

  function Unresolved(s: Transport, sandbox: Id): set<Id> {
    set op | op in s.claims && s.claims[op].sandbox == sandbox && !s.claims[op].outcome.Acknowledged?
  }

  predicate ClaimAdmitted(s: Transport, f: Frame, checks: Checks) {
    && checks.ready
    && |Ledger(s, f.sandbox)| < MAX_COMMANDS
    && Unresolved(s, f.sandbox) == {}
    && f.operation !in s.claims
  }

  function NewClaim(f: Frame): Claim {
    Claim(f.sandbox, f.digest, f.connection, f.epoch, f.message, f.sequence, Pending)
  }

  function ResponseOutcome(f: Frame): Outcome {
    if f.body.Acknowledgement? then Acknowledged else Unknown
  }

  /** A response matches its claim on operation, digest and connection epoch. */
  predicate ResponseAdmitted(s: Transport, f: Frame, checks: Checks) {
    && f.operation in s.claims
    && var row := s.claims[f.operation];
    && row.sandbox == f.sandbox
    && row.digest == f.digest
    && row.connection == f.connection
    && row.epoch == f.epoch
    && if f.body.Thread? then !row.outcome.Unknown? && checks.saved else
       && (f.body.Acknowledgement? ==>
             && f.body.message == row.message && f.body.digest == row.digest
             && f.body.accepted == row.sequence && f.body.credit == 0
             && checks.started)
       && (row.outcome.Pending? || row.outcome == ResponseOutcome(f))
  }

  predicate Admitted(s: Transport, f: Frame, checks: Checks, db: Time) {
    && 0 < f.sequence <= MAX_INT64
    && checks.admitted
    && Live(s, f, db)
    && HeartbeatBounded(s, f)
    && checks.shaped
    && FrameDirection(f).Some?
    && AckBounded(s, f)
    && SequenceAdmits(s, ChannelOf(f, FrameDirection(f).value), f)
    && (f.body.Command? ==> ClaimAdmitted(s, f, checks))
    && (!f.body.Command? && f.operation != NONE ==> ResponseAdmitted(s, f, checks))
  }

  /** The ledger after an admitted frame. */
  function ClaimsAfter(s: Transport, f: Frame, checks: Checks): map<Id, Claim>
    requires !f.body.Command? && f.operation != NONE ==> ResponseAdmitted(s, f, checks)
  {
    if f.body.Command? then s.claims[f.operation := NewClaim(f)]
    else if f.operation == NONE || f.body.Thread? then s.claims
    else s.claims[f.operation := s.claims[f.operation].(outcome := ResponseOutcome(f))]
  }

  function AuthorizeStep(s: Transport, f: Frame, checks: Checks, db: Time): Transport {
    if !Admitted(s, f, checks, db) then s else
    s.(claims := ClaimsAfter(s, f, checks),
       sequences := s.sequences[ChannelOf(f, FrameDirection(f).value) := f])
  }

  function Step(s: Transport, a: Action): Transport {
    match a
    case OnRegistry(action) => s.(registry := R.Step(s.registry, action).registry)
    case Authorize(f, checks, db) => AuthorizeStep(s, f, checks, db)
  }

  predicate Accepts(s: Transport, a: Action) {
    a.Authorize? && Admitted(s, a.frame, a.checks, a.db)
  }

  /** CommandOutcome: the retained bookkeeping of one operation. */
  datatype Lookup = Missing | Conflict | Found(outcome: Outcome)

  function CommandOutcome(s: Transport, sandbox: Id, operation: Id, digest: Digest): Lookup {
    if operation !in s.claims || s.claims[operation].sandbox != sandbox then Missing
    else if s.claims[operation].digest != digest then Conflict
    else Found(s.claims[operation].outcome)
  }

  // ---------------------------------------------------------------- invariant

  const EMPTY := Transport(R.EMPTY, map[], map[])

  /** A claim belongs to an epoch its sandbox has reached, and to the connection that
      epoch still has, if it still has one. */
  ghost predicate ClaimPlaced(s: Transport, op: Id)
    requires op in s.claims
  {
    var c := s.claims[op];
    && c.sandbox in s.registry.cursors
    && var cursor := s.registry.cursors[c.sandbox];
    && 0 < c.epoch <= cursor.epoch
    && (c.epoch == cursor.epoch && cursor.live.Some? ==> cursor.live.value.id == c.connection)
  }

  ghost predicate Invariant(s: Transport) {
    && R.Consistent(s.registry)
    && NONE !in s.claims
    && (forall op | op in s.claims :: ClaimPlaced(s, op))
    && (forall sb, op, op' | op in Unresolved(s, sb) && op' in Unresolved(s, sb) :: op == op')
    && (forall sb :: |Ledger(s, sb)| <= MAX_COMMANDS)
    && (forall ch | ch in s.sequences :: s.sequences[ch].sequence > 0)
  }

  lemma ClaimsAfterLedger(s: Transport, f: Frame, checks: Checks, db: Time, sb: Id)
    requires Admitted(s, f, checks, db)
    ensures var t := AuthorizeStep(s, f, checks, db);
            Ledger(t, sb) == if f.body.Command? && sb == f.sandbox then Ledger(s, sb) + {f.operation} else Ledger(s, sb)
  {
  }

  /** A response or an unnumbered frame only ever resolves claims. */
  lemma ClaimsAfterUnresolved(s: Transport, f: Frame, checks: Checks, db: Time, sb: Id)
    requires Admitted(s, f, checks, db)
    ensures var t := AuthorizeStep(s, f, checks, db);
            if f.body.Command? && sb == f.sandbox then Unresolved(t, sb) == {f.operation}
            else Unresolved(t, sb) <= Unresolved(s, sb)
  {
    var t := AuthorizeStep(s, f, checks, db);
    if f.body.Command? && sb == f.sandbox {
      forall op | op in Unresolved(t, sb) ensures op == f.operation {
        assert op == f.operation || op in Unresolved(s, sb);
      }
      assert f.operation in Unresolved(t, sb);
    }
  }

  lemma RegistryKeepsInvariant(s: Transport, action: R.Action)
    requires Invariant(s)
    ensures Invariant(Step(s, OnRegistry(action)))
  {
    var t := Step(s, OnRegistry(action));
    R.StepKeepsConsistent(s.registry, action);
    R.StepAdvances(s.registry, action);
    forall op | op in t.claims ensures ClaimPlaced(t, op) {
      var sb := t.claims[op].sandbox;
      assert ClaimPlaced(s, op);
      assert R.CursorAdvanced(s.registry.cursors[sb], t.registry.cursors[sb]);
    }
    assert forall sb :: Ledger(t, sb) == Ledger(s, sb);
    assert forall sb :: Unresolved(t, sb) == Unresolved(s, sb);
  }

  lemma AuthorizeKeepsInvariant(s: Transport, f: Frame, checks: Checks, db: Time)
    requires Invariant(s)
    ensures Invariant(AuthorizeStep(s, f, checks, db))
  {
    var t := AuthorizeStep(s, f, checks, db);
    if Admitted(s, f, checks, db) {
      forall op | op in t.claims ensures ClaimPlaced(t, op) {
        if op in s.claims {
          assert ClaimPlaced(s, op);
        }
      }
      forall sb ensures |Ledger(t, sb)| <= MAX_COMMANDS {
        ClaimsAfterLedger(s, f, checks, db, sb);
      }
      forall sb, op, op' | op in Unresolved(t, sb) && op' in Unresolved(t, sb) ensures op == op' {
        ClaimsAfterUnresolved(s, f, checks, db, sb);
      }
    }
  }

  lemma StepKeepsInvariant(s: Transport, a: Action)
    requires Invariant(s)
    ensures Invariant(Step(s, a))
  {
    match a
    case OnRegistry(action) => RegistryKeepsInvariant(s, action);
    case Authorize(f, checks, db) => AuthorizeKeepsInvariant(s, f, checks, db);
  }

  // ---------------------------------------------------------------- whole runs

  /** Any interleaving of registry and frame transactions, from empty tables. */
  ghost predicate IsRun(states: seq<Transport>, actions: seq<Action>) {
    && |states| == |actions| + 1
    && states[0] == EMPTY
    && forall i | 0 <= i < |actions| :: states[i + 1] == Step(states[i], actions[i])
  }

  lemma {:induction false} RunInvariant(states: seq<Transport>, actions: seq<Action>, i: nat)
    requires IsRun(states, actions) && i < |states|
    ensures Invariant(states[i])
  {
    if i > 0 {
      RunInvariant(states, actions, i - 1);
      StepKeepsInvariant(states[i - 1], actions[i - 1]);
    } else {
      assert forall sb :: Ledger(EMPTY, sb) == {};
    }
  }

  /** The ledger only grows, and an outcome changes only from PENDING. */
  ghost predicate Advanced(s: Transport, t: Transport) {
    && R.Advanced(s.registry, t.registry)
    && s.claims.Keys <= t.claims.Keys
    && forall op | op in s.claims ::
         && t.claims[op] == s.claims[op].(outcome := t.claims[op].outcome)
         && (s.claims[op].outcome.Pending? || t.claims[op] == s.claims[op])
  }

  lemma StepAdvances(s: Transport, a: Action)
    ensures Advanced(s, Step(s, a))
  {
    match a
    case OnRegistry(action) => R.StepAdvances(s.registry, action);
    case Authorize(_, _, _) =>
  }

  lemma {:induction false} RunAdvances(states: seq<Transport>, actions: seq<Action>, i: nat, j: nat)
    requires IsRun(states, actions) && i <= j < |states|
    ensures Advanced(states[i], states[j])
  {
    if i < j {
      RunAdvances(states, actions, i, j - 1);
      StepAdvances(states[j - 1], actions[j - 1]);
      R.AdvancedTransitive(states[i].registry, states[j - 1].registry, states[j].registry);
    }
  }

  /** At most once: no operation is ever admitted for dispatch a second time, on any
      sandbox, by any connection, whatever its frame looks like. */
  lemma DispatchedAtMostOnce(states: seq<Transport>, actions: seq<Action>, i: nat, j: nat)
    requires IsRun(states, actions) && i < j < |actions|
    requires Accepts(states[i], actions[i]) && actions[i].frame.body.Command?
    requires Accepts(states[j], actions[j]) && actions[j].frame.body.Command?
    ensures actions[i].frame.operation != actions[j].frame.operation
  {
    RunAdvances(states, actions, i + 1, j);
    assert actions[i].frame.operation in states[i + 1].claims;
  }

  /** The claim is unanswered and its connection is no longer its sandbox's current one. */
  ghost predicate Stranded(s: Transport, op: Id) {
    && op in s.claims
    && var c := s.claims[op];
    && c.outcome.Pending?
    && !R.IsCurrent(s.registry, c.sandbox, R.Connection(c.connection, c.epoch, 0))
  }

  /** A stranded claim refuses every later command for its sandbox and every answer to itself. */
  lemma StrandedBlocks(s: Transport, op: Id, f: Frame, checks: Checks, db: Time)
    requires Invariant(s) && Stranded(s, op)
    ensures f.body.Command? && f.sandbox == s.claims[op].sandbox ==> !Admitted(s, f, checks, db)
    ensures f.operation == op ==> !Admitted(s, f, checks, db)
  {
    assert op in Unresolved(s, s.claims[op].sandbox);
  }

  lemma StrandedStep(s: Transport, op: Id, a: Action)
    requires Invariant(s) && Stranded(s, op)
    ensures Stranded(Step(s, a), op) && Step(s, a).claims[op] == s.claims[op]
  {
    match a
    case OnRegistry(action) =>
      var sb := s.claims[op].sandbox;
      assert ClaimPlaced(s, op);
      R.StepAdvances(s.registry, action);
      assert R.CursorAdvanced(s.registry.cursors[sb], Step(s, a).registry.cursors[sb]);
    case Authorize(f, checks, db) =>
      StrandedBlocks(s, op, f, checks, db);
  }

  predicate ClaimsCommand(a: Action, sandbox: Id) {
    a.Authorize? && a.frame.body.Command? && a.frame.sandbox == sandbox
  }

  lemma {:induction false} StrandedStays(states: seq<Transport>, actions: seq<Action>, i: nat, j: nat, op: Id)
    requires IsRun(states, actions) && i <= j < |states| && Stranded(states[i], op)
    ensures Stranded(states[j], op) && states[j].claims[op] == states[i].claims[op]
  {
    if i < j {
      StrandedStays(states, actions, i, j - 1, op);
      RunInvariant(states, actions, j - 1);
      StrandedStep(states[j - 1], op, actions[j - 1]);
    }
  }

  /** If a connection is replaced, closed, cleared or recovered while a command on it is
      PENDING, the row stays PENDING in every later state and no command is ever again
      admitted for that sandbox. */
  lemma StrandedForever(states: seq<Transport>, actions: seq<Action>, i: nat, j: nat, op: Id)
    requires IsRun(states, actions) && i <= j < |states|
    requires Stranded(states[i], op)
    ensures Stranded(states[j], op) && states[j].claims[op] == states[i].claims[op]
    ensures j < |actions| && ClaimsCommand(actions[j], states[i].claims[op].sandbox) ==> !Accepts(states[j], actions[j])
  {
    StrandedStays(states, actions, i, j, op);
    RunInvariant(states, actions, j);
    if j < |actions| && actions[j].Authorize? {
      StrandedBlocks(states[j], op, actions[j].frame, actions[j].checks, actions[j].db);
    }
  }

  // ---------------------------------------------------------------- sequence discipline

  /** Numbered from 1 without gaps, where only the latest frame may be repeated, identically. */
  ghost predicate GapFree(log: seq<Frame>) {
    && (log != [] ==> log[0].sequence == 1)
    && forall i | 0 <= i < |log| - 1 :: log[i + 1].sequence == log[i].sequence + 1 || log[i + 1] == log[i]
  }

  /** The frames accepted on a channel by the first n actions of a run. */
  ghost function AcceptedOn(states: seq<Transport>, actions: seq<Action>, ch: Channel, n: nat): seq<Frame>
    requires n <= |actions| < |states|
  {
    if n == 0 then []
    else
      var rest := AcceptedOn(states, actions, ch, n - 1);
      if Accepts(states[n - 1], actions[n - 1])
         && ChannelOf(actions[n - 1].frame, FrameDirection(actions[n - 1].frame).value) == ch
      then rest + [actions[n - 1].frame]
      else rest
  }

  /** The durable row of a channel is the end of its accepted log. */
  ghost predicate LogEndsAt(s: Transport, ch: Channel, log: seq<Frame>) {
    if ch in s.sequences then log != [] && log[|log| - 1] == s.sequences[ch] else log == []
  }

  /** On every connection and direction the accepted frames are gap-free from 1. */
  lemma {:induction false} AcceptedGapFree(states: seq<Transport>, actions: seq<Action>, ch: Channel, n: nat)
    requires IsRun(states, actions) && n <= |actions|
    ensures GapFree(AcceptedOn(states, actions, ch, n))
    ensures LogEndsAt(states[n], ch, AcceptedOn(states, actions, ch, n))
  {
    if n > 0 {
      AcceptedGapFree(states, actions, ch, n - 1);
    }
  }

  /** The sequence rule admits exactly the frames that keep the channel's log gap-free. */
  lemma SequenceRuleExact(states: seq<Transport>, actions: seq<Action>, ch: Channel, n: nat, f: Frame)
    requires IsRun(states, actions) && n <= |actions|
    ensures SequenceAdmits(states[n], ch, f) <==> GapFree(AcceptedOn(states, actions, ch, n) + [f])
  {
    AcceptedGapFree(states, actions, ch, n);
    var log := AcceptedOn(states, actions, ch, n);
    var more := log + [f];
    if log != [] {
      assert more[|log| - 1] == log[|log| - 1] && more[|log|] == f;
      if SequenceAdmits(states[n], ch, f) {
        forall i | 0 <= i < |more| - 1
          ensures more[i + 1].sequence == more[i].sequence + 1 || more[i + 1] == more[i]
        {
          if i < |log| - 1 {
            assert more[i] == log[i] && more[i + 1] == log[i + 1];
          }
        }
      }
    }
  }
}

/** The durable credential and connection registry of agentd
    (internal/adapters/postgres/agentd_credentials.go).

    One row per sandbox is the cursor: an optimistic version, the digest of the
    latest certificate, the live connection and its epoch. Each transaction is one
    atomic step; a rejected transaction rolls back and changes nothing. */
module AgentdRegistry {
  import opened Common

  const SESSION_TTL: Time := 15 * 60 * 1000
  const BOOTSTRAP_TTL: Time := 10 * 60 * 1000
  const ROTATION_GRACE: Time := 30 * 1000

  datatype Identity = Identity(sandbox: Id, attempt: Id)

  datatype Peer = Peer(identity: Identity, certificate: Digest, expires: Time)

  datatype Connection = Connection(id: Id, epoch: nat, deadline: Time)

  /** The live connection columns; the table forces all of them to be null together. */
  datatype Live = Live(id: Id, certificate: Digest, deadline: Time)

  /** A row of agentd_credential_state. */
  datatype Cursor = Cursor(attempt: Id, version: nat, latest: Option<Digest>, live: Option<Live>, epoch: nat)

  /** A row of agentd_credentials; the proof stands for its digest. */
  datatype Credential = Credential(
    id: Id, sandbox: Id, bootstrap: bool, proof: Option<Digest>, notBefore: Time, expires: Time, consumed: bool)

  datatype Registry = Registry(cursors: map<Id, Cursor>, credentials: map<Digest, Credential>)

  datatype Request = Request(identity: Identity, recovery: bool, peer: Option<Peer>, connection: Id, epoch: nat)

  datatype Grant = Grant(
    identity: Identity, version: nat, authorityDeadline: Time, attemptDeadline: Time, bootstrapDeadline: Time)

  datatype Issue = Issue(
    identity: Identity, id: Id, certificate: Digest, proof: Option<Digest>, notBefore: Time, expires: Time,
    bootstrap: bool)

  /** What the surrounding transaction reads from rows this registry does not own:
      whether the Session/Execution/Attempt fence is current and the binding live, the
      request deadline, and whether a provider reference is recorded. Each is arbitrary. */
  datatype Gate = Gate(admitted: bool, deadline: Time, referenced: bool)

  /** The process clock read before the transaction and the database clock read in it. */
  datatype Clock = Clock(host: Time, db: Time)

  datatype Action =
    | Version(identity: Identity, gate: Gate)
    | Register(request: Request, grant: Grant, issue: Issue, gate: Gate, clock: Clock)
    | ConsumeBootstrap(peer: Peer, proof: Digest, deadline: Time, newId: Id, gate: Gate, clock: Clock)
    | Reconnect(peer: Peer, deadline: Time, newId: Id, gate: Gate, clock: Clock)
    | Close(identity: Identity, id: Id, epoch: nat)
    | Clear(sandboxes: set<Id>)

  datatype Reply = Rejected | Granted(version: nat) | Registered | Connected(connection: Connection) | Done

  datatype Outcome = Outcome(registry: Registry, reply: Reply)

  // ---------------------------------------------------------------- step functions

  /** The stateless checks of Register, made before its transaction starts. */
  predicate IssueAcceptable(r: Request, g: Grant, c: Issue, host: Time) {
    && r.identity == g.identity == c.identity
    && g.version != 0
    && c.notBefore <= host < c.expires
    && c.notBefore < c.expires
    && c.expires - c.notBefore <= (if c.bootstrap then BOOTSTRAP_TTL else SESSION_TTL)
    && c.expires <= g.authorityDeadline
    && c.expires <= g.attemptDeadline
    && if c.bootstrap then
         r.epoch == 0 && r.connection == NONE && r.peer.None? && c.proof.Some? && c.expires <= g.bootstrapDeadline
       else
         && !r.recovery && r.epoch != 0 && c.proof.None?
         && r.peer.Some? && r.peer.value.identity == r.identity && host < r.peer.value.expires
  }

  /** checkAgentdConnection: the peer holds exactly the live connection named by id and epoch. */
  predicate HoldsConnection(s: Registry, sandbox: Id, p: Peer, id: Id, epoch: nat, db: Time) {
    && sandbox in s.cursors
    && var cursor := s.cursors[sandbox];
    && cursor.live.Some?
    && cursor.live.value.id == id
    && cursor.epoch == epoch
    && cursor.live.value.certificate == p.certificate
    && db < cursor.live.value.deadline
    && p.certificate in s.credentials
    && s.credentials[p.certificate].sandbox == sandbox
    && s.credentials[p.certificate].expires == p.expires
    && db < p.expires
  }

  /** The latest certificate has expired and no connection outlives it. */
  predicate LatestExpired(s: Registry, sandbox: Id, db: Time) {
    && sandbox in s.cursors
    && var cursor := s.cursors[sandbox];
    && cursor.latest.Some?
    && cursor.latest.value in s.credentials
    && s.credentials[cursor.latest.value].sandbox == sandbox
    && s.credentials[cursor.latest.value].expires <= db
    && (cursor.live.None? || cursor.live.value.deadline <= db)
  }

  predicate UnusedCredential(s: Registry, c: Issue) {
    && c.certificate !in s.credentials
    && forall d | d in s.credentials :: s.credentials[d].id != c.id
  }

  predicate RegisterAdmitted(s: Registry, r: Request, g: Grant, c: Issue, gate: Gate, clock: Clock) {
    && IssueAcceptable(r, g, c, clock.host)
    && gate.admitted
    && c.expires <= gate.deadline
    && r.identity.sandbox in s.cursors
    && var cursor := s.cursors[r.identity.sandbox];
    && cursor.version == g.version
    && (c.bootstrap && !r.recovery ==> cursor.latest.None?)
    && (r.recovery ==> gate.referenced && LatestExpired(s, r.identity.sandbox, clock.db))
    && (!c.bootstrap ==>
          && cursor.latest == Some(r.peer.value.certificate)
          && HoldsConnection(s, r.identity.sandbox, r.peer.value, r.connection, r.epoch, clock.db))
    && clock.db < c.expires
    && UnusedCredential(s, c)
  }

  function RegisterStep(s: Registry, r: Request, g: Grant, c: Issue, gate: Gate, clock: Clock): Outcome {
    if !RegisterAdmitted(s, r, g, c, gate, clock) then Outcome(s, Rejected) else
    var cursor := s.cursors[r.identity.sandbox];
    var live :=
      if r.recovery then None
      else if c.bootstrap || cursor.live.None? then cursor.live
      else Some(cursor.live.value.(deadline := Min(cursor.live.value.deadline, clock.db + ROTATION_GRACE)));
    var epoch := if r.recovery then cursor.epoch + 1 else cursor.epoch;
    Outcome(
      Registry(
        s.cursors[r.identity.sandbox :=
          cursor.(version := cursor.version + 1, latest := Some(c.certificate), live := live, epoch := epoch)],
        s.credentials[c.certificate :=
          Credential(c.id, r.identity.sandbox, c.bootstrap, c.proof, c.notBefore, c.expires, false)]),
      Registered)
  }

  /** The certificate is the sandbox's latest, valid now and expires when the peer says. */
  predicate LatestValid(s: Registry, p: Peer, db: Time) {
    && p.identity.sandbox in s.cursors
    && s.cursors[p.identity.sandbox].latest == Some(p.certificate)
    && p.certificate in s.credentials
    && var c := s.credentials[p.certificate];
    && c.sandbox == p.identity.sandbox
    && c.notBefore <= db < c.expires == p.expires
  }

  predicate ConnectionAllowed(p: Peer, deadline: Time, gate: Gate, clock: Clock) {
    && clock.host < deadline <= p.expires
    && gate.admitted
    && gate.referenced
    && deadline <= gate.deadline
    && clock.db < deadline
  }

  /** The row update shared by ConsumeBootstrap and Reconnect. */
  function Connect(s: Registry, p: Peer, deadline: Time, newId: Id): Outcome
    requires p.identity.sandbox in s.cursors
  {
    var cursor := s.cursors[p.identity.sandbox];
    Outcome(
      s.(cursors := s.cursors[p.identity.sandbox :=
        cursor.(version := cursor.version + 1,
                live := Some(Live(newId, p.certificate, deadline)),
                epoch := cursor.epoch + 1)]),
      Connected(Connection(newId, cursor.epoch + 1, deadline)))
  }

  predicate ConsumeAdmitted(s: Registry, p: Peer, proof: Digest, deadline: Time, gate: Gate, clock: Clock) {
    && ConnectionAllowed(p, deadline, gate, clock)
    && LatestValid(s, p, clock.db)
    && s.cursors[p.identity.sandbox].live.None?
    && s.credentials[p.certificate].bootstrap
    && !s.credentials[p.certificate].consumed
    && s.credentials[p.certificate].proof == Some(proof)
  }

  function ConsumeStep(s: Registry, p: Peer, proof: Digest,
    deadline: Time, newId: Id, gate: Gate, clock: Clock): Outcome {
    if !ConsumeAdmitted(s, p, proof, deadline, gate, clock) then Outcome(s, Rejected) else
    Connect(
      s.(credentials := s.credentials[p.certificate := s.credentials[p.certificate].(consumed := true)]),
      p, deadline, newId)
  }

  predicate ReconnectAdmitted(s: Registry, p: Peer, deadline: Time, gate: Gate, clock: Clock) {
    && ConnectionAllowed(p, deadline, gate, clock)
    && LatestValid(s, p, clock.db)
    && (s.credentials[p.certificate].bootstrap ==> s.credentials[p.certificate].consumed)
  }

  function ReconnectStep(s: Registry, p: Peer, deadline: Time, newId: Id, gate: Gate, clock: Clock): Outcome {
    if ReconnectAdmitted(s, p, deadline, gate, clock) then Connect(s, p, deadline, newId) else Outcome(s, Rejected)
  }

  function VersionStep(s: Registry, identity: Identity, gate: Gate): Outcome {
    if !gate.admitted then Outcome(s, Rejected)
    else if identity.sandbox in s.cursors then Outcome(s, Granted(s.cursors[identity.sandbox].version))
    else Outcome(s.(cursors := s.cursors[identity.sandbox := Cursor(identity.attempt, 1, None, None, 0)]), Granted(1))
  }

  /** CloseConnection names its exact row in the UPDATE, so any other row is left alone. */
  function CloseStep(s: Registry, identity: Identity, id: Id, epoch: nat): Outcome {
    if && identity.sandbox in s.cursors
       && s.cursors[identity.sandbox].attempt == identity.attempt
       && s.cursors[identity.sandbox].live.Some?
       && s.cursors[identity.sandbox].live.value.id == id
       && s.cursors[identity.sandbox].epoch == epoch
    then Outcome(s.(cursors := s.cursors[identity.sandbox := Disconnected(s.cursors[identity.sandbox])]), Done)
    else Outcome(s, Done)
  }

  function Disconnected(c: Cursor): Cursor {
    c.(version := c.version + 1, live := None)
  }

  /** Suspending a Session clears the connection of each of its sandboxes. */
  function ClearStep(s: Registry, sandboxes: set<Id>): Outcome {
    Outcome(
      s.(cursors := map sb | sb in s.cursors ::
        if sb in sandboxes then Disconnected(s.cursors[sb]) else s.cursors[sb]),
      Done)
  }

  function Step(s: Registry, a: Action): Outcome {
    match a
    case Version(identity, gate) => VersionStep(s, identity, gate)
    case Register(r, g, c, gate, clock) => RegisterStep(s, r, g, c, gate, clock)
    case ConsumeBootstrap(p, proof, deadline, newId, gate, clock) =>
      ConsumeStep(s, p, proof, deadline, newId, gate, clock)
    case Reconnect(p, deadline, newId, gate, clock) => ReconnectStep(s, p, deadline, newId, gate, clock)
    case Close(identity, id, epoch) => CloseStep(s, identity, id, epoch)
    case Clear(sandboxes) => ClearStep(s, sandboxes)
  }

  // ---------------------------------------------------------------- invariant and progress

  const EMPTY := Registry(map[], map[])

  /** Every certificate a cursor names is retained history of the same sandbox. */
  ghost predicate Consistent(s: Registry) {
    forall sb | sb in s.cursors :: CursorConsistent(s, sb)
  }

  ghost predicate CursorConsistent(s: Registry, sb: Id)
    requires sb in s.cursors
  {
    && (s.cursors[sb].latest.Some? ==> IssuedTo(s, sb, s.cursors[sb].latest.value))
    && (s.cursors[sb].live.Some? ==>
          && s.cursors[sb].latest.Some? && s.cursors[sb].epoch > 0
          && IssuedTo(s, sb, s.cursors[sb].live.value.certificate))
  }

  ghost predicate IssuedTo(s: Registry, sb: Id, d: Digest) {
    d in s.credentials && s.credentials[d].sandbox == sb
  }

  lemma StepKeepsConsistent(s: Registry, a: Action)
    requires Consistent(s)
    ensures Consistent(Step(s, a).registry)
  {
  }

  /** The cursor has moved on: counters never fall, and within one epoch a connection
      can only be the same one or gone. */
  ghost predicate CursorAdvanced(c: Cursor, d: Cursor) {
    && c.attempt == d.attempt
    && c.version <= d.version
    && c.epoch <= d.epoch
    && (c.epoch == d.epoch && d.live.Some? ==> c.live.Some? && c.live.value.id == d.live.value.id)
    && (c.version == d.version ==> c == d)
  }

  ghost predicate CredentialAdvanced(c: Credential, d: Credential) {
    d == c || (!c.consumed && d == c.(consumed := true))
  }

  /** Everything registered stays registered, and no cursor ever returns to a
      certificate it has left. Reflexive and transitive. */
  ghost predicate Advanced(s: Registry, t: Registry) {
    && s.cursors.Keys <= t.cursors.Keys
    && s.credentials.Keys <= t.credentials.Keys
    && (forall sb | sb in s.cursors :: CursorAdvanced(s.cursors[sb], t.cursors[sb]))
    && (forall d | d in s.credentials :: CredentialAdvanced(s.credentials[d], t.credentials[d]))
    && (forall sb, d :: Superseded(s, sb, d) ==> Superseded(t, sb, d))
  }

  /** The certificate was issued to this sandbox and is no longer its latest. */
  ghost predicate Superseded(s: Registry, sb: Id, d: Digest) {
    IssuedTo(s, sb, d) && sb in s.cursors && s.cursors[sb].latest != Some(d)
  }

  lemma StepAdvances(s: Registry, a: Action)
    ensures Advanced(s, Step(s, a).registry)
  {
  }

  lemma AdvancedTransitive(s: Registry, t: Registry, u: Registry)
    requires Advanced(s, t) && Advanced(t, u)
    ensures Advanced(s, u)
  {
    forall sb | sb in s.cursors ensures CursorAdvanced(s.cursors[sb], u.cursors[sb]) {
      assert CursorAdvanced(s.cursors[sb], t.cursors[sb]);
      assert CursorAdvanced(t.cursors[sb], u.cursors[sb]);
    }
    forall d | d in s.credentials ensures CredentialAdvanced(s.credentials[d], u.credentials[d]) {
      assert CredentialAdvanced(s.credentials[d], t.credentials[d]);
      assert CredentialAdvanced(t.credentials[d], u.credentials[d]);
    }
  }

  // ---------------------------------------------------------------- whole runs

  /** Any interleaving of registry transactions, from an empty registry. */
  ghost predicate IsRun(states: seq<Registry>, actions: seq<Action>) {
    && |states| == |actions| + 1
    && states[0] == EMPTY
    && forall i | 0 <= i < |actions| :: states[i + 1] == Step(states[i], actions[i]).registry
  }

  function ReplyAt(states: seq<Registry>, actions: seq<Action>, i: nat): Reply
    requires i < |actions| && i < |states|
  {
    Step(states[i], actions[i]).reply
  }

  lemma {:induction false} RunAdvances(states: seq<Registry>, actions: seq<Action>, i: nat, j: nat)
    requires IsRun(states, actions) && i <= j < |states|
    ensures Advanced(states[i], states[j])
  {
    if i < j {
      RunAdvances(states, actions, i, j - 1);
      StepAdvances(states[j - 1], actions[j - 1]);
      AdvancedTransitive(states[i], states[j - 1], states[j]);
    }
  }

  lemma {:induction false} RunConsistent(states: seq<Registry>, actions: seq<Action>, i: nat)
    requires IsRun(states, actions) && i < |states|
    ensures Consistent(states[i])
  {
    if i > 0 {
      RunConsistent(states, actions, i - 1);
      StepKeepsConsistent(states[i - 1], actions[i - 1]);
    }
  }

  /** Connections of one sandbox carry strictly increasing epochs, however they were opened. */
  lemma EpochsIncrease(states: seq<Registry>, actions: seq<Action>, i: nat, j: nat)
    requires IsRun(states, actions) && i < j < |actions|
    requires ReplyAt(states, actions, i).Connected? && ReplyAt(states, actions, j).Connected?
    requires actions[i].peer.identity.sandbox == actions[j].peer.identity.sandbox
    ensures ReplyAt(states, actions, i).connection.epoch < ReplyAt(states, actions, j).connection.epoch
  {
    var sb := actions[i].peer.identity.sandbox;
    assert sb in states[i + 1].cursors;
    RunAdvances(states, actions, i + 1, j);
    assert CursorAdvanced(states[i + 1].cursors[sb], states[j].cursors[sb]);
  }

  /** Two registrations under one grant version never both commit. */
  lemma OneRegistrationPerVersion(states: seq<Registry>, actions: seq<Action>, i: nat, j: nat)
    requires IsRun(states, actions) && i < j < |actions|
    requires ReplyAt(states, actions, i).Registered? && ReplyAt(states, actions, j).Registered?
    requires actions[i].request.identity.sandbox == actions[j].request.identity.sandbox
    ensures actions[i].grant.version < actions[j].grant.version
  {
    var sb := actions[i].request.identity.sandbox;
    assert sb in states[i + 1].cursors;
    RunAdvances(states, actions, i + 1, j);
    assert CursorAdvanced(states[i + 1].cursors[sb], states[j].cursors[sb]);
  }

  /** A bootstrap certificate opens at most one connection by consumption. */
  lemma BootstrapConsumedOnce(states: seq<Registry>, actions: seq<Action>, i: nat, j: nat)
    requires IsRun(states, actions) && i < j < |actions|
    requires actions[i].ConsumeBootstrap? && ReplyAt(states, actions, i).Connected?
    requires actions[j].ConsumeBootstrap? && ReplyAt(states, actions, j).Connected?
    ensures actions[i].peer.certificate != actions[j].peer.certificate
  {
    var d := actions[i].peer.certificate;
    assert d in states[i + 1].credentials && states[i + 1].credentials[d].consumed;
    RunAdvances(states, actions, i + 1, j);
    assert CredentialAdvanced(states[i + 1].credentials[d], states[j].credentials[d]);
  }

  /** Once a sandbox has moved past a certificate, that certificate never opens a
      connection again, on any sandbox. */
  lemma SupersededNeverConnects(states: seq<Registry>, actions: seq<Action>, i: nat, j: nat, k: nat, sb: Id, d: Digest)
    requires IsRun(states, actions) && i <= j <= k < |actions|
    requires sb in states[i].cursors && states[i].cursors[sb].latest == Some(d)
    requires sb in states[j].cursors && states[j].cursors[sb].latest != Some(d)
    requires (actions[k].ConsumeBootstrap? || actions[k].Reconnect?) && actions[k].peer.certificate == d
    ensures ReplyAt(states, actions, k) == Rejected
  {
    RunConsistent(states, actions, i);
    assert CursorConsistent(states[i], sb);
    RunAdvances(states, actions, i, j);
    assert CredentialAdvanced(states[i].credentials[d], states[j].credentials[d]);
    assert Superseded(states[j], sb, d);
    RunAdvances(states, actions, j, k);
    assert Superseded(states[k], sb, d);
  }

  /** A connection that has been closed, cleared, recovered or replaced can never be
      current again, and a late Close for it changes nothing. */
  lemma LostConnectionStaysLost(states: seq<Registry>, actions: seq<Action>, i: nat, j: nat, k: nat, attempt: Id)
    requires IsRun(states, actions) && i < j <= k < |states|
    requires ReplyAt(states, actions, i).Connected?
    requires !IsCurrent(states[j], actions[i].peer.identity.sandbox, ReplyAt(states, actions, i).connection)
    ensures !IsCurrent(states[k], actions[i].peer.identity.sandbox, ReplyAt(states, actions, i).connection)
    ensures var c := ReplyAt(states, actions, i).connection;
            Step(states[k], Close(Identity(actions[i].peer.identity.sandbox, attempt), c.id, c.epoch)).registry
            == states[k]
  {
    var sb := actions[i].peer.identity.sandbox;
    RunAdvances(states, actions, i + 1, j);
    RunAdvances(states, actions, j, k);
    assert CursorAdvanced(states[i + 1].cursors[sb], states[j].cursors[sb]);
    assert CursorAdvanced(states[j].cursors[sb], states[k].cursors[sb]);
  }

  predicate IsCurrent(s: Registry, sandbox: Id, c: Connection) {
    && sandbox in s.cursors
    && s.cursors[sandbox].live.Some?
    && s.cursors[sandbox].live.value.id == c.id
    && s.cursors[sandbox].epoch == c.epoch
  }
}

/** What each registry transaction achieves, said by what its peers can do afterwards. */
module AgentdConnections {
  import opened Common
  import opened AgentdRegistry

  /** Rows of every other sandbox are as they were. */
  ghost predicate OthersKept(s: Registry, t: Registry, sandbox: Id) {
    && forall sb | sb in s.cursors && sb != sandbox :: sb in t.cursors && t.cursors[sb] == s.cursors[sb]
  }

  ghost predicate NobodyConnected(s: Registry, sandbox: Id) {
    forall p, id, epoch, now :: !HoldsConnection(s, sandbox, p, id, epoch, now)
  }

  /** A connection that was just opened is held by its peer, under the answered name and
      epoch, exactly until its deadline; and by nobody under another name or epoch. */
  lemma OpenedIsHeld(s: Registry, a: Action)
    requires a.ConsumeBootstrap? || a.Reconnect?
    requires Step(s, a).reply.Connected?
    ensures var t, c, sb := Step(s, a).registry, Step(s, a).reply.connection, a.peer.identity.sandbox;
            && c.id == a.newId && c.deadline == a.deadline
            && OthersKept(s, t, sb)
            && (forall now :: HoldsConnection(t, sb, a.peer, c.id, c.epoch, now) <==> now < a.deadline)
            && (forall p, id, epoch, now :: HoldsConnection(t, sb, p, id, epoch, now) ==>
                  id == c.id && epoch == c.epoch && p.certificate == a.peer.certificate)
  {
  }

  /** A registered bootstrap opens a connection with its proof, exactly while it is valid. */
  lemma RegisteredBootstrapConnects(
    s: Registry, r: Request, g: Grant, c: Issue, gate: Gate, clock: Clock,
    proof: Digest, deadline: Time, newId: Id, gate': Gate, clock': Clock)
    requires Consistent(s) && c.bootstrap && RegisterStep(s, r, g, c, gate, clock).reply.Registered?
    ensures var t, p := RegisterStep(s, r, g, c, gate, clock).registry, Peer(r.identity, c.certificate, c.expires);
            && (ConsumeStep(t, p, proof, deadline, newId, gate', clock').reply.Connected? <==>
                  c.proof == Some(proof) && c.notBefore <= clock'.db && ConnectionAllowed(p, deadline, gate', clock'))
            && ReconnectStep(t, p, deadline, newId, gate', clock').reply.Rejected?
            && NobodyConnected(t, r.identity.sandbox)
            && OthersKept(s, t, r.identity.sandbox)
  {
    assert CursorConsistent(s, r.identity.sandbox);
  }

  /** A rotated certificate reconnects, and the connection that asked for it lives on for at
      most the grace period. */
  lemma RotatedCertificateTakesOver(
    s: Registry, r: Request, g: Grant, c: Issue, gate: Gate, clock: Clock,
    deadline: Time, newId: Id, gate': Gate, clock': Clock)
    requires !c.bootstrap && RegisterStep(s, r, g, c, gate, clock).reply.Registered?
    ensures var t, p := RegisterStep(s, r, g, c, gate, clock).registry, Peer(r.identity, c.certificate, c.expires);
            && (ReconnectStep(t, p, deadline, newId, gate', clock').reply.Connected? <==>
                  c.notBefore <= clock'.db && ConnectionAllowed(p, deadline, gate', clock'))
            && OthersKept(s, t, r.identity.sandbox)
    ensures var t, before := RegisterStep(s, r, g, c, gate, clock).registry, s.cursors[r.identity.sandbox].live.value;
            forall now :: HoldsConnection(t, r.identity.sandbox, r.peer.value, r.connection, r.epoch, now) <==>
              now < before.deadline && now < clock.db + 30_000 && now < r.peer.value.expires
  {
    var t := RegisterStep(s, r, g, c, gate, clock).registry;
    assert r.peer.value.certificate in s.credentials && r.peer.value.certificate != c.certificate;
    assert t.credentials[r.peer.value.certificate] == s.credentials[r.peer.value.certificate];
  }

  /** Recovery shuts out whatever connection there was, by epoch as well. */
  lemma RecoveryDisconnects(s: Registry, r: Request, g: Grant, c: Issue, gate: Gate, clock: Clock)
    requires r.recovery && RegisterStep(s, r, g, c, gate, clock).reply.Registered?
    ensures var t := RegisterStep(s, r, g, c, gate, clock).registry;
            && NobodyConnected(t, r.identity.sandbox)
            && t.cursors[r.identity.sandbox].epoch == s.cursors[r.identity.sandbox].epoch + 1
  {
  }

  /** Closing the connection that is held leaves nobody connected, and ends every grant. */
  lemma ClosedIsGone(s: Registry, identity: Identity, p: Peer, id: Id, epoch: nat, now: Time)
    requires HoldsConnection(s, identity.sandbox, p, id, epoch, now)
    requires s.cursors[identity.sandbox].attempt == identity.attempt
    ensures var t := CloseStep(s, identity, id, epoch).registry;
            && NobodyConnected(t, identity.sandbox) && OthersKept(s, t, identity.sandbox)
            && t.credentials == s.credentials
            && t.cursors[identity.sandbox].latest == s.cursors[identity.sandbox].latest
            && t.cursors[identity.sandbox].version == s.cursors[identity.sandbox].version + 1
  {
  }

  /** Suspension disconnects every sandbox it names and leaves the others alone. */
  lemma ClearedIsGone(s: Registry, sandboxes: set<Id>, sb: Id)
    requires sb in s.cursors
    ensures sb in sandboxes ==> NobodyConnected(ClearStep(s, sandboxes).registry, sb)
    ensures sb !in sandboxes ==> ClearStep(s, sandboxes).registry.cursors[sb] == s.cursors[sb]
  {
  }

  /** The granted version is the one that a registration must name, until the row moves. */
  lemma GrantedVersionIsDemanded(
    s: Registry, identity: Identity, gate: Gate, r: Request, g: Grant, c: Issue, gate': Gate, clock: Clock)
    requires gate.admitted && r.identity.sandbox == identity.sandbox
    ensures var granted := VersionStep(s, identity, gate);
            && granted.reply.Granted?
            && (RegisterStep(granted.registry, r, g, c, gate', clock).reply.Registered? ==>
                  g.version == granted.reply.version)
            && VersionStep(granted.registry, identity, gate) == granted
  {
  }
}

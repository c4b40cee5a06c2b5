/** The registry as the store that updates its rows in place. Every method checks and
    writes in the order of its transaction; working copies stand for uncommitted rows,
    so an early return is a rollback. */
module AgentdCredentials {
  import opened Common
  import opened AgentdRegistry

  class Store {
    var cursors: map<Id, Cursor>
    var credentials: map<Digest, Credential>

    constructor ()
      ensures View() == EMPTY
    {
      cursors, credentials := map[], map[];
    }

    function View(): Registry
      reads this
    {
      Registry(cursors, credentials)
    }

    method Version(identity: Identity, gate: Gate) returns (reply: Reply)
      modifies this
      ensures Outcome(View(), reply) == VersionStep(old(View()), identity, gate)
    {
      if !gate.admitted {
        return Rejected;
      }
      if identity.sandbox !in cursors {
        cursors := cursors[identity.sandbox := Cursor(identity.attempt, 1, None, None, 0)];
      }
      return Granted(cursors[identity.sandbox].version);
    }

    method CheckConnection(sandbox: Id, p: Peer, id: Id, epoch: nat, db: Time) returns (valid: bool)
      ensures valid <==> HoldsConnection(View(), sandbox, p, id, epoch, db)
    {
      if sandbox !in cursors || cursors[sandbox].live.None? {
        return false;
      }
      var cursor := cursors[sandbox];
      var live := cursor.live.value;
      if live.certificate !in credentials || credentials[live.certificate].sandbox != sandbox {
        return false;
      }
      var expires := credentials[live.certificate].expires;
      return live.id == id && cursor.epoch == epoch && live.certificate == p.certificate && live.deadline > db
             && expires == p.expires && expires > db;
    }

    method CredentialUsed(c: Issue) returns (used: bool)
      ensures used <==> !UnusedCredential(View(), c)
    {
      var rest := credentials;
      if c.certificate in rest {
        return true;
      }
      while rest != map[]
        invariant rest.Keys <= credentials.Keys
        invariant forall d | d in rest :: rest[d] == credentials[d]
        invariant forall d | d in credentials && d !in rest :: credentials[d].id != c.id
        decreases |rest.Keys|
      {
        var d :| d in rest;
        if rest[d].id == c.id {
          return true;
        }
        assert (rest - {d}).Keys == rest.Keys - {d};
        rest := rest - {d};
      }
      return false;
    }

    method Register(r: Request, g: Grant, c: Issue, gate: Gate, clock: Clock) returns (reply: Reply)
      modifies this
      ensures Outcome(View(), reply) == RegisterStep(old(View()), r, g, c, gate, clock)
    {
      reply := Rejected;
      var ttl := SESSION_TTL;
      if c.bootstrap {
        ttl := BOOTSTRAP_TTL;
      }
      if || r.identity != g.identity || r.identity != c.identity || g.version == 0 || c.notBefore > clock.host
         || c.expires <= clock.host || c.expires - c.notBefore > ttl || c.expires <= c.notBefore
         || c.expires > g.authorityDeadline || c.expires > g.attemptDeadline {
        return;
      }
      if c.bootstrap {
        if r.epoch != 0 || r.connection != NONE || r.peer.Some? || c.proof.None? || c.expires > g.bootstrapDeadline {
          return;
        }
      } else if || r.recovery || r.peer.None? || r.peer.value.identity != r.identity || r.epoch == 0
                || r.peer.value.expires <= clock.host || c.proof.Some? {
        return;
      }
      var sb := r.identity.sandbox;
      if !gate.admitted || c.expires > gate.deadline || sb !in cursors {
        return;
      }
      var cursor := cursors[sb];
      if cursor.version != g.version || (c.bootstrap && !r.recovery && cursor.latest.Some?) {
        return;
      }
      if r.recovery {
        if cursor.latest.None? || !gate.referenced || cursor.latest.value !in credentials {
          return;
        }
        var latest := credentials[cursor.latest.value];
        var expired := latest.sandbox == sb && latest.expires <= clock.db
          && (cursor.live.None? || cursor.live.value.deadline <= clock.db);
        if !expired {
          return;
        }
        cursor := cursor.(live := None, epoch := cursor.epoch + 1);
      }
      if !c.bootstrap {
        if cursor.latest != Some(r.peer.value.certificate) {
          return;
        }
        var holds := CheckConnection(sb, r.peer.value, r.connection, r.epoch, clock.db);
        if !holds {
          return;
        }
      }
      var used := CredentialUsed(c);
      if used || c.expires <= clock.db {
        return;
      }
      if !c.bootstrap && cursor.live.Some? {
        cursor := cursor.(live := Some(cursor.live.value.(deadline :=
          Min(cursor.live.value.deadline, clock.db + ROTATION_GRACE))));
      }
      credentials := credentials[c.certificate :=
        Credential(c.id, sb, c.bootstrap, c.proof, c.notBefore, c.expires, false)];
      cursors := cursors[sb := cursor.(version := cursor.version + 1, latest := Some(c.certificate))];
      reply := Registered;
    }

    method ConsumeBootstrap(p: Peer, proof: Digest, deadline: Time, newId: Id, gate: Gate, clock: Clock)
      returns (reply: Reply)
      modifies this
      ensures Outcome(View(), reply) == ConsumeStep(old(View()), p, proof, deadline, newId, gate, clock)
    {
      reply := Rejected;
      var sb := p.identity.sandbox;
      if deadline <= clock.host || deadline > p.expires {
        return;
      }
      if !gate.admitted || deadline > gate.deadline || !gate.referenced {
        return;
      }
      if sb !in cursors || p.certificate !in credentials {
        return;
      }
      var cursor, credential := cursors[sb], credentials[p.certificate];
      if || credential.sandbox != sb || cursor.latest != Some(p.certificate) || !credential.bootstrap
         || credential.consumed || credential.notBefore > clock.db || credential.expires <= clock.db
         || credential.expires != p.expires || cursor.live.Some? {
        return;
      }
      if credential.proof != Some(proof) || deadline <= clock.db {
        return;
      }
      credentials := credentials[p.certificate := credential.(consumed := true)];
      cursor := cursor.(version := cursor.version + 1, epoch := cursor.epoch + 1);
      cursors := cursors[sb := cursor.(live := Some(Live(newId, p.certificate, deadline)))];
      reply := Connected(Connection(newId, cursor.epoch, deadline));
    }

    method CloseConnection(identity: Identity, id: Id, epoch: nat)
      modifies this
      ensures Outcome(View(), Done) == CloseStep(old(View()), identity, id, epoch)
    {
      if identity.sandbox in cursors {
        var cursor := cursors[identity.sandbox];
        if cursor.attempt == identity.attempt && cursor.live.Some?
           && cursor.live.value.id == id && cursor.epoch == epoch {
          cursors := cursors[identity.sandbox := cursor.(version := cursor.version + 1, live := None)];
        }
      }
    }

    method Reconnect(p: Peer, deadline: Time, newId: Id, gate: Gate, clock: Clock) returns (reply: Reply)
      modifies this
      ensures Outcome(View(), reply) == ReconnectStep(old(View()), p, deadline, newId, gate, clock)
    {
      reply := Rejected;
      var sb := p.identity.sandbox;
      if deadline <= clock.host || deadline > p.expires {
        return;
      }
      if !gate.admitted || !gate.referenced || deadline > gate.deadline {
        return;
      }
      if sb !in cursors || cursors[sb].latest != Some(p.certificate) || p.certificate !in credentials {
        return;
      }
      var credential := credentials[p.certificate];
      if || credential.sandbox != sb || credential.notBefore > clock.db || credential.expires <= clock.db
         || credential.expires != p.expires || (credential.bootstrap && !credential.consumed) || deadline <= clock.db {
        return;
      }
      var cursor := cursors[sb];
      cursor := cursor.(version := cursor.version + 1, epoch := cursor.epoch + 1);
      cursors := cursors[sb := cursor.(live := Some(Live(newId, p.certificate, deadline)))];
      reply := Connected(Connection(newId, cursor.epoch, deadline));
    }
  }
}

/** Frame admission as the transaction body that reads and writes the rows in order. */
module AgentdPolicy {
  import opened Common
  import opened AgentdFrames
  import AgentdCredentials

  class Policy {
    const credentials: AgentdCredentials.Store
    var claims: map<Id, Claim>
    var sequences: map<Channel, Frame>

    constructor (store: AgentdCredentials.Store)
      ensures credentials == store && claims == map[] && sequences == map[]
    {
      credentials, claims, sequences := store, map[], map[];
    }

    function View(): Transport
      reads this, credentials
    {
      Transport(credentials.View(), claims, sequences)
    }

    /** The sequence row a frame leaves behind, or nothing when the frame is out of order. */
    method NextSequence(f: Frame, direction: Direction) returns (rows: Option<map<Channel, Frame>>)
      ensures rows.Some? <==> SequenceAdmits(View(), ChannelOf(f, direction), f)
      ensures rows.Some? ==> rows.value == sequences[ChannelOf(f, direction) := f]
    {
      var ch := Channel(f.sandbox, f.connection, direction);
      var sequence := 0;
      if ch in sequences {
        sequence := sequences[ch].sequence;
        if f.sequence == sequence && sequences[ch] == f {
          assert sequences == sequences[ch := f];
          return Some(sequences);
        }
      }
      if f.sequence != sequence + 1 {
        return None;
      }
      return Some(sequences[ch := f]);
    }

    method AuthorizeFrame(f: Frame, checks: Checks, db: Time) returns (ok: bool)
      modifies this
      ensures ok <==> Admitted(old(View()), f, checks, db)
      ensures View() == AuthorizeStep(old(View()), f, checks, db)
    {
      ok := false;
      if f.sequence == 0 || f.sequence > MAX_INT64 || !checks.admitted {
        return;
      }
      if f.sandbox !in credentials.cursors {
        return;
      }
      var cursor := credentials.cursors[f.sandbox];
      if || cursor.live.None? || cursor.live.value.id != f.connection || cursor.epoch != f.epoch
         || cursor.live.value.deadline <= db {
        return;
      }
      if f.body.Heartbeat? {
        var sent := 0;
        if ChannelOf(f, FromServer) in sequences {
          sent := sequences[ChannelOf(f, FromServer)].sequence;
        }
        if f.body.lastAccepted > sent || f.body.lastProduced >= f.sequence {
          return;
        }
        if f.body.active != NONE {
          if f.body.active !in claims {
            return;
          }
          var row := claims[f.body.active];
          if row.sandbox != f.sandbox || row.connection != f.connection || row.outcome != Pending {
            return;
          }
        }
      }
      var direction := FrameDirection(f);
      if !checks.shaped || direction.None? {
        return;
      }
      if f.body.Acknowledgement? && f.operation == NONE {
        var ch := ChannelOf(f, FromAgent);
        if ch !in sequences || f.body.accepted > sequences[ch].sequence {
          return;
        }
      }
      var rows := NextSequence(f, direction.value);
      if rows.None? {
        return;
      }
      if f.body.Command? {
        if !checks.ready {
          return;
        }
        var ledger := set op | op in claims && claims[op].sandbox == f.sandbox;
        var pending := set op | op in ledger && claims[op].outcome != Acknowledged;
        assert ledger == Ledger(View(), f.sandbox) && pending == Unresolved(View(), f.sandbox);
        if |ledger| >= MAX_COMMANDS || pending != {} || f.operation in claims {
          return;
        }
        claims := claims[f.operation :=
          Claim(f.sandbox, f.digest, f.connection, f.epoch, f.message, f.sequence, Pending)];
      } else if f.operation != NONE {
        if f.operation !in claims {
          return;
        }
        var row := claims[f.operation];
        if row.sandbox != f.sandbox || row.digest != f.digest
           || row.connection != f.connection || row.epoch != f.epoch {
          return;
        }
        if f.body.Thread? {
          if (row.outcome != Pending && row.outcome != Acknowledged) || !checks.saved {
            return;
          }
        } else {
          var next := Unknown;
          if f.body.Acknowledgement? {
            if || f.body.message != row.message || f.body.digest != row.digest || f.body.accepted != row.sequence
               || f.body.credit != 0 || !checks.started {
              return;
            }
            next := Acknowledged;
          }
          if row.outcome != Pending && row.outcome != next {
            return;
          }
          claims := claims[f.operation := row.(outcome := next)];
        }
      }
      sequences := rows.value;
      ok := true;
    }
  }
}

/** Generation publication as the transaction that reads and writes the rows in order. */
module WorkspaceStore {
  import opened Common
  import opened WorkspaceGenerations

  class Checkpoints {
    var workspaces: map<Id, Workspace>
    var generations: map<(Id, int), Generation>
    var operations: map<Id, Operation>

    constructor ()
      ensures View() == EMPTY
    {
      workspaces, generations, operations := map[], map[], map[];
    }

    function View(): Store
      reads this
    {
      Store(workspaces, generations, operations)
    }

    method Change(m: Move, r: Request, proof: Digest, k: Checks) returns (reply: Reply)
      modifies this
      ensures Outcome(View(), reply) == ChangeStep(old(View()), m, r, proof, k)
    {
      if !Valid(r) {
        return Refused(Invalid);
      }
      if r.workspace !in workspaces || workspaces[r.workspace].session != r.session {
        return Refused(Missing);
      }
      var w := workspaces[r.workspace];
      if !k.owned {
        return Refused(Conflict);
      }
      if !k.access {
        return Refused(Unavailable);
      }
      var known := r.operation in operations;
      if known {
        var saved := operations[r.operation];
        if saved.request != r {
          return Refused(Conflict);
        }
        if saved.state == Committed {
          if m == Abort {
            return Refused(Conflict);
          }
          if m == Publish && saved.proof != Some(proof) {
            return Refused(Conflict);
          }
          return Is(ResultOf(r, Committed));
        }
        if saved.state == Aborted {
          if m == Abort {
            return Is(ResultOf(r, Aborted));
          }
          return Refused(Conflict);
        }
      }
      if m == Abort {
        if !known {
          return Refused(Missing);
        }
        operations := operations[r.operation := operations[r.operation].(state := Aborted)];
        if w.state == Snapshotting {
          workspaces := workspaces[r.workspace := w.(state := Degraded, version := w.version + 1)];
        }
        return Is(ResultOf(r, Aborted));
      }
      if || w.head.None? || w.head.value.id != r.parent || w.head.value.generation != r.parentGeneration
         || k.epoch != r.sessionGeneration {
        return Refused(Conflict);
      }
      if r.execution == NONE {
        if !k.resting || w.attachment != NONE {
          return Refused(Conflict);
        }
      } else if !k.running || w.attachment != r.attachment {
        return Refused(Conflict);
      }
      if !known {
        if m != Prepare || (w.state != Ready && w.state != Attached) || (w.state == Attached) != (r.execution != NONE) {
          return Refused(Conflict);
        }
        if !k.verified {
          return Refused(Integrity);
        }
        operations := operations[r.operation := Operation(r, w.state, Prepared, None)];
        workspaces := workspaces[r.workspace := w.(state := Snapshotting, version := w.version + 1)];
        return Is(ResultOf(r, Prepared));
      }
      if w.state != Snapshotting {
        return Refused(Conflict);
      }
      if m == Prepare {
        return Is(ResultOf(r, Prepared));
      }
      if !k.verified {
        return Refused(Integrity);
      }
      if GenerationIdUsed(View(), r.operation) || (r.workspace, r.parentGeneration + 1) in generations {
        return Refused(Conflict);
      }
      var op := operations[r.operation];
      generations := generations[(r.workspace, r.parentGeneration + 1) :=
        Generation(r.operation, Some(Head(r.parent, r.parentGeneration)), proof)];
      workspaces := workspaces[r.workspace :=
        w.(state := op.prior, version := w.version + 1, head := Some(Head(r.operation, r.parentGeneration + 1)))];
      operations := operations[r.operation := op.(state := Committed, proof := Some(proof))];
      return Is(ResultOf(r, Committed));
    }

    method PublishEmpty(x: Id, operation: Id, proof: Digest)
      modifies this
      ensures View() == EmptyStep(old(View()), x, operation, proof)
    {
      if x !in workspaces || GenerationIdUsed(View(), operation) || (x, 0) in generations {
        return;
      }
      generations := generations[(x, 0) := Generation(operation, None, proof)];
      var w := workspaces[x];
      if w.state == Provisioning {
        workspaces := workspaces[x := w.(state := Ready, version := w.version + 1, head := Some(Head(operation, 0)))];
      }
    }
  }
}

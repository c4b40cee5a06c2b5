/** The supervisor's command ledger (ProcessControl.execute in
    internal/app/agentd/control_linux.go). A process action is one opaque step whose
    outcome is arbitrary; what matters is which operation may cause one, and when. */
module AgentdControl {
  import opened Common
  import opened AgentdFrames

  const MAX_OPERATIONS: nat := 128

  datatype Request = Request(operation: Id, digest: Digest, kind: Kind, handle: Id)

  /** commandResult: the retained answer to one operation. */
  datatype Result = Result(digest: Digest, failed: bool, status: nat, thread: Option<Id>)

  datatype Performed = Performed(operation: Id, kind: Kind, handle: Id)

  datatype Supervisor = Supervisor(handle: Id, operations: map<Id, Result>, log: seq<Performed>)

  /** What one call finds outside the ledger: whether the operation gate is taken, the
      command check, the turn payload, the current process, and what the action did. */
  datatype World = World(
    busy: bool, valid: bool, decodes: bool, process: Id, succeeded: bool, status: nat, thread: Option<Id>)

  datatype Reply = Reply(supervisor: Supervisor, result: Result)

  const REFUSED := Result(NONE, true, NONE, None)

  // ---------------------------------------------------------------- step function

  function HandleAfter(s: Supervisor, r: Request): Id {
    if r.kind.Start? && s.handle == NONE then r.handle else s.handle
  }

  /** The command reaches the process manager. */
  predicate Acts(s: Supervisor, r: Request, w: World) {
    match r.kind
    case Start => s.handle == NONE
    case Execute => s.handle == r.handle && w.decodes
    case Status => false
    case Stop => s.handle == r.handle && w.process != NONE
    case Interrupt => s.handle == r.handle && w.process != NONE
    case Restart => s.handle == r.handle && w.process != NONE
  }

  predicate Succeeds(s: Supervisor, r: Request, w: World) {
    if r.kind.Status? then s.handle == NONE || s.handle == r.handle else Acts(s, r, w) && w.succeeded
  }

  /** The answer to a new operation. A foreign handle keeps the bare reservation. */
  function FirstResult(s: Supervisor, r: Request, w: World): Result {
    if HandleAfter(s, r) != r.handle && !r.kind.Status? then Result(r.digest, true, NONE, None)
    else
      var ok := Succeeds(s, r, w);
      Result(r.digest, !ok, w.status, if ok && r.kind.Start? then w.thread else None)
  }

  /** checkCommand: operation and handle are identifiers, and the rest of the command is in order. */
  predicate CommandOk(r: Request, w: World) {
    w.valid && r.operation != NONE && r.handle != NONE
  }

  function ExecuteStep(s: Supervisor, r: Request, w: World): Reply {
    if w.busy || !CommandOk(r, w) then Reply(s, REFUSED)
    else if r.operation in s.operations then
      if s.operations[r.operation].digest == r.digest then Reply(s, s.operations[r.operation]) else Reply(s, REFUSED)
    else if |s.operations| >= MAX_OPERATIONS then Reply(s, REFUSED)
    else
      var result := FirstResult(s, r, w);
      Reply(
        Supervisor(
          HandleAfter(s, r), s.operations[r.operation := result],
          if Acts(s, r, w) then s.log + [Performed(r.operation, r.kind, r.handle)] else s.log),
        result)
  }

  // ---------------------------------------------------------------- invariant and progress

  const IDLE := Supervisor(NONE, map[], [])

  /** Each action belongs to its own recorded operation and to the fixed handle. */
  ghost predicate Sound(s: Supervisor) {
    && |s.operations| <= MAX_OPERATIONS
    && (s.handle == NONE ==> s.log == [])
    && (forall i | 0 <= i < |s.log| :: s.log[i].operation in s.operations && s.log[i].handle == s.handle)
    && (forall i, j | 0 <= i < j < |s.log| :: s.log[i].operation != s.log[j].operation)
  }

  lemma ExecuteKeepsSound(s: Supervisor, r: Request, w: World)
    requires Sound(s)
    ensures Sound(ExecuteStep(s, r, w).supervisor)
  {
  }

  /** Answers, actions and the handle are never revised. */
  ghost predicate Advanced(s: Supervisor, t: Supervisor) {
    && s.log <= t.log
    && (s.handle != NONE ==> t.handle == s.handle)
    && s.operations.Keys <= t.operations.Keys
    && forall op | op in s.operations :: t.operations[op] == s.operations[op]
  }

  // ---------------------------------------------------------------- whole runs

  /** A supervisor's life: any sequence of calls, each meeting any world. */
  ghost predicate IsRun(states: seq<Supervisor>, calls: seq<(Request, World)>) {
    && |states| == |calls| + 1
    && states[0] == IDLE
    && forall i | 0 <= i < |calls| :: states[i + 1] == ExecuteStep(states[i], calls[i].0, calls[i].1).supervisor
  }

  function ResultAt(states: seq<Supervisor>, calls: seq<(Request, World)>, i: nat): Result
    requires i < |calls| && i < |states|
  {
    ExecuteStep(states[i], calls[i].0, calls[i].1).result
  }

  lemma {:induction false} RunSound(states: seq<Supervisor>, calls: seq<(Request, World)>, i: nat)
    requires IsRun(states, calls) && i < |states|
    ensures Sound(states[i])
  {
    if i > 0 {
      RunSound(states, calls, i - 1);
      ExecuteKeepsSound(states[i - 1], calls[i - 1].0, calls[i - 1].1);
    }
  }

  lemma {:induction false} RunAdvances(states: seq<Supervisor>, calls: seq<(Request, World)>, i: nat, j: nat)
    requires IsRun(states, calls) && i <= j < |states|
    ensures Advanced(states[i], states[j])
  {
    if i < j {
      RunAdvances(states, calls, i, j - 1);
      assert Advanced(states[j - 1], states[j]);
    }
  }

  /** Each operation drives at most one process action, every action carries the handle
      fixed by the first START, and the ledger stays within its bound. */
  lemma OneActionPerOperation(states: seq<Supervisor>, calls: seq<(Request, World)>, i: nat)
    requires IsRun(states, calls) && i < |states|
    ensures |states[i].operations| <= MAX_OPERATIONS
    ensures forall j, k | 0 <= j < k < |states[i].log| :: states[i].log[j].operation != states[i].log[k].operation
    ensures forall j | 0 <= j < |states[i].log| :: states[i].log[j].handle == states[i].handle
  {
    RunSound(states, calls, i);
  }

  /** Once a call has been recorded, a repeat returns its result and acts on nothing, and
      the same operation under another digest is always refused. */
  lemma RepeatsAreAnsweredFromTheLedger(states: seq<Supervisor>, calls: seq<(Request, World)>, i: nat, j: nat)
    requires IsRun(states, calls) && i < j < |calls|
    requires calls[i].0.operation == calls[j].0.operation
    requires calls[i].0.operation in states[i + 1].operations
    ensures states[j + 1] == states[j]
    ensures if calls[j].1.busy || !CommandOk(calls[j].0, calls[j].1)
               || calls[j].0.digest != states[i + 1].operations[calls[i].0.operation].digest
            then ResultAt(states, calls, j) == REFUSED
            else ResultAt(states, calls, j) == states[i + 1].operations[calls[i].0.operation]
  {
    RunAdvances(states, calls, i + 1, j);
  }

  /** The handle is empty until the first START that is executed, and never changes after it. */
  lemma HandleFixedByFirstStart(states: seq<Supervisor>, calls: seq<(Request, World)>, i: nat, j: nat)
    requires IsRun(states, calls) && i <= j < |states|
    ensures states[i].handle != NONE ==> states[j].handle == states[i].handle
    ensures states[i].handle == NONE && states[j].handle != NONE ==>
              exists k :: i <= k < j && calls[k].0.kind.Start? && calls[k].0.handle == states[j].handle
                          && calls[k].0.operation in states[j].operations
  {
    RunAdvances(states, calls, i, j);
    if states[i].handle == NONE && states[j].handle != NONE {
      var k := FirstHandled(states, calls, i, j);
      RunAdvances(states, calls, k + 1, j);
    }
  }

  lemma {:induction false} FirstHandled(states: seq<Supervisor>, calls: seq<(Request, World)>, i: nat, j: nat)
    returns (k: nat)
    requires IsRun(states, calls) && i < j < |states|
    requires states[i].handle == NONE && states[j].handle != NONE
    ensures i <= k < j && states[k].handle == NONE && states[k + 1].handle != NONE
    decreases j - i
  {
    if states[i + 1].handle != NONE {
      k := i;
    } else {
      k := FirstHandled(states, calls, i + 1, j);
    }
  }

  // ---------------------------------------------------------------- the updating form

  // ---------------------------------------------------------------- what an answer means

  /** Call k is the one that was recorded for its operation. */
  ghost predicate Records(states: seq<Supervisor>, calls: seq<(Request, World)>, k: nat, op: Id)
    requires |states| == |calls| + 1 && k < |calls|
  {
    calls[k].0.operation == op && op !in states[k].operations && op in states[k + 1].operations
  }

  /** The call reached the process manager: its action is the next entry of the log. */
  ghost predicate Performs(states: seq<Supervisor>, calls: seq<(Request, World)>, k: nat)
    requires |states| == |calls| + 1 && k < |calls|
  {
    var r := calls[k].0;
    states[k + 1].log == states[k].log + [Performed(r.operation, r.kind, r.handle)]
  }

  /** A recorded answer says success if and only if the command's one action was performed
      and succeeded, or it only asked for the status under no other handle. */
  ghost predicate Truthful(states: seq<Supervisor>, calls: seq<(Request, World)>, k: nat, result: Result)
    requires |states| == |calls| + 1 && k < |calls|
  {
    var r, w := calls[k].0, calls[k].1;
    && result.digest == r.digest
    && (!result.failed <==>
          if r.kind == Status then states[k].handle == NONE || states[k].handle == r.handle
          else Performs(states, calls, k) && w.succeeded)
    && (!result.failed ==> result.status == w.status)
    && result.thread == if r.kind == Start && !result.failed then w.thread else None
  }

  /** START acts once, on an empty handle; every other action needs that handle, and a
      decodable turn or a running process. Nothing else is logged. */
  lemma ActionGrounds(states: seq<Supervisor>, calls: seq<(Request, World)>, k: nat)
    requires IsRun(states, calls) && k < |calls|
    ensures states[k + 1].log == states[k].log || Performs(states, calls, k)
    ensures Records(states, calls, k, calls[k].0.operation) ==>
              var r, w, h := calls[k].0, calls[k].1, states[k].handle;
              Performs(states, calls, k) <==>
                || (r.kind == Start && h == NONE)
                || (r.kind == Execute && h == r.handle && w.decodes)
                || (r.kind in {Stop, Interrupt, Restart} && h == r.handle && w.process != NONE)
  {
    var s, t := states[k], states[k + 1];
    assert t.log == s.log ==> |t.log| == |s.log|;
  }

  /** Over a supervisor's whole life, every retained answer is the truth about the first call
      of its operation. */
  lemma {:induction false} AnswersAreTruthful(states: seq<Supervisor>, calls: seq<(Request, World)>, i: nat, op: Id)
    returns (k: nat)
    requires IsRun(states, calls) && i < |states| && op in states[i].operations
    ensures k < i && Records(states, calls, k, op) && Truthful(states, calls, k, states[i].operations[op])
  {
    assert i > 0;
    if op in states[i - 1].operations {
      k := AnswersAreTruthful(states, calls, i - 1, op);
      RunAdvances(states, calls, i - 1, i);
    } else {
      k := i - 1;
      ActionGrounds(states, calls, k);
      FirstAnswer(states[k], calls[k].0, calls[k].1);
    }
  }

  lemma FirstAnswer(s: Supervisor, r: Request, w: World)
    requires r.operation !in s.operations && r.operation in ExecuteStep(s, r, w).supervisor.operations
    ensures var t := ExecuteStep(s, r, w).supervisor;
            var result := t.operations[r.operation];
            && result == ExecuteStep(s, r, w).result
            && result.digest == r.digest
            && (!result.failed <==>
                  if r.kind == Status then s.handle == NONE || s.handle == r.handle
                  else t.log != s.log && w.succeeded)
            && (!result.failed ==> result.status == w.status)
            && result.thread == if r.kind == Start && !result.failed then w.thread else None
  {
    assert |(s.log + [Performed(r.operation, r.kind, r.handle)])| == |s.log| + 1;
  }

  class ProcessControl {
    var handle: Id
    var operations: map<Id, Result>
    ghost var log: seq<Performed>

    constructor ()
      ensures View() == IDLE
    {
      handle, operations, log := NONE, map[], [];
    }

    ghost function View(): Supervisor
      reads this
    {
      Supervisor(handle, operations, log)
    }

    /** The operation is reserved as failed before its action is attempted. */
    method Execute(r: Request, w: World) returns (result: Result)
      modifies this
      ensures Reply(View(), result) == ExecuteStep(old(View()), r, w)
    {
      if w.busy || !CommandOk(r, w) {
        return REFUSED;
      }
      if r.operation in operations {
        if operations[r.operation].digest != r.digest {
          return REFUSED;
        }
        return operations[r.operation];
      }
      if |operations| >= MAX_OPERATIONS {
        return REFUSED;
      }
      result := Result(r.digest, true, NONE, None);
      operations := operations[r.operation := result];
      var acted, ok := false, false;
      match r.kind {
        case Start =>
          if handle == NONE {
            handle := r.handle;
            acted := true;
          }
        case Execute =>
          acted := handle == r.handle && w.decodes;
        case Status =>
          ok := handle == NONE || handle == r.handle;
        case Stop =>
          acted := handle == r.handle && w.process != NONE;
        case Interrupt =>
          acted := handle == r.handle && w.process != NONE;
        case Restart =>
          acted := handle == r.handle && w.process != NONE;
      }
      if acted {
        log := log + [Performed(r.operation, r.kind, r.handle)];
        ok := w.succeeded;
      }
      if handle != r.handle && r.kind != Status {
        assert old(operations)[r.operation := result] == operations;
        return;
      }
      result := result.(failed := !ok, status := w.status);
      if ok && r.kind == Start {
        result := result.(thread := w.thread);
      }
      operations := operations[r.operation := result];
      assert operations == old(operations)[r.operation := result];
    }
  }
}

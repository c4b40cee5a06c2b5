/** Frame admission and the compute store as one system. AuthorizeFrame runs inside the
    credential transaction, whose fence is the compute store's; its command rows are the
    ones that replacement looks at. So both ledgers are one, and each protocol's theorems
    hold of the other's rows. */
module AgentdLedger {
  import opened Common
  import C = SandboxCompute
  import F = AgentdFrames
  import J = SandboxJournal
  import L = SandboxLineage
  import R = AgentdRegistry

  datatype System = System(store: C.Store, transport: F.Transport)

  const NEW := System(C.EMPTY, F.EMPTY)

  datatype Event =
    | Receive(frame: F.Frame, checks: F.Checks, now: Time)
    | Register(action: R.Action)
    | Transact(step: C.Action)

  /** A frame is admitted only behind the fence; commands enter the ledger as frames only. */
  predicate Possible(s: System, e: Event) {
    match e
    case Receive(f, checks, now) => checks.admitted ==> C.Talking(s.store, f.sandbox, now)
    case Register(_) => true
    case Transact(a) => C.Enabled(s.store, a) && !a.DoDispatch?
  }

  predicate Commands(s: System, e: Event) {
    e.Receive? && e.frame.body.Command? && F.Admitted(s.transport, e.frame, e.checks, e.now)
  }

  /** What the compute store sees of an event. */
  function StoreAction(s: System, e: Event): C.Action {
    if e.Transact? then e.step
    else if Commands(s, e) then C.DoDispatch(e.frame.sandbox, e.frame.operation, e.now)
    else C.Elsewhere(C.Outside(s.store.sessions, s.store.executions))
  }

  /** A frame without a number, which is never admitted. */
  const NOTHING := F.Authorize(
    F.Frame(NONE, NONE, 0, 0, NONE, NONE, 0, F.Observation, 0), F.Checks(false, false, false, false, false), 0)

  /** What the frame ledger sees of an event. */
  function FrameAction(e: Event): F.Action {
    match e
    case Receive(f, checks, now) => F.Authorize(f, checks, now)
    case Register(action) => F.OnRegistry(action)
    case Transact(_) => NOTHING
  }

  function Next(s: System, e: Event): System {
    System(C.Step(s.store, StoreAction(s, e)).store, F.Step(s.transport, FrameAction(e)))
  }

  // ---------------------------------------------------------------- one ledger

  ghost predicate Agree(s: System) {
    && s.store.commands.Keys == s.transport.claims.Keys
    && forall op | op in s.store.commands :: s.store.commands[op] == s.transport.claims[op].sandbox
  }

  lemma TransactKeepsCommands(s: C.Store, a: C.Action)
    requires !a.DoDispatch?
    ensures C.Step(s, a).store.commands == s.commands
  {
    match a
    case DoReplace(lost, n, quiet, approved, claimable, now) =>
      assert C.ReplaceDeleted(s, lost, n, quiet, approved, claimable, now).store.commands == s.commands;
    case DoStoreHarness(id, harness, now) => assert C.StoreHarness(s, id, harness, now).store.commands == s.commands;
    case Elsewhere(e) => assert C.Happen(s, e).commands == s.commands;
    case _ =>
  }

  /** An accepted command frame is an accepted dispatch of the same operation and sandbox. */
  lemma CommandIsDispatch(s: System, e: Event)
    requires Agree(s) && Possible(s, e) && Commands(s, e)
    ensures C.Dispatch(s.store, e.frame.sandbox, e.frame.operation, e.now).reply.Accepted?
    ensures Next(s, e).store == s.store.(commands := s.store.commands[e.frame.operation := e.frame.sandbox])
    ensures e.frame.operation in Next(s, e).transport.claims
    ensures Next(s, e).transport.claims == s.transport.claims[e.frame.operation := F.NewClaim(e.frame)]
  {
    assert e.frame.operation !in s.transport.claims;
  }

  lemma FrameKeepsClaims(s: F.Transport, f: F.Frame, checks: F.Checks, now: Time)
    requires !(f.body.Command? && F.Admitted(s, f, checks, now))
    ensures var t := F.AuthorizeStep(s, f, checks, now);
            t.claims.Keys == s.claims.Keys && forall op | op in s.claims :: t.claims[op].sandbox == s.claims[op].sandbox
  {
  }

  lemma StepKeepsAgree(s: System, e: Event)
    requires Agree(s) && Possible(s, e)
    ensures Agree(Next(s, e))
  {
    if Commands(s, e) {
      CommandIsDispatch(s, e);
    } else {
      TransactKeepsCommands(s.store, StoreAction(s, e));
      if e.Receive? {
        FrameKeepsClaims(s.transport, e.frame, e.checks, e.now);
      }
    }
  }

  // ---------------------------------------------------------------- runs

  ghost predicate IsRun(states: seq<System>, events: seq<Event>) {
    && |states| == |events| + 1
    && states[0] == NEW
    && forall i | 0 <= i < |events| :: Possible(states[i], events[i]) && states[i + 1] == Next(states[i], events[i])
  }

  /** In every reachable state the two ledgers hold the same operations for the same sandboxes. */
  lemma {:induction false} RunAgrees(states: seq<System>, events: seq<Event>, i: nat)
    requires IsRun(states, events) && i < |states|
    ensures Agree(states[i])
  {
    if i > 0 {
      RunAgrees(states, events, i - 1);
      StepKeepsAgree(states[i - 1], events[i - 1]);
    }
  }

  function Stores(states: seq<System>): (stores: seq<C.Store>)
    ensures |stores| == |states| && forall i | 0 <= i < |states| :: stores[i] == states[i].store
  {
    seq(|states|, i requires 0 <= i < |states| => states[i].store)
  }

  function Transports(states: seq<System>): (transports: seq<F.Transport>)
    ensures |transports| == |states| && forall i | 0 <= i < |states| :: transports[i] == states[i].transport
  {
    seq(|states|, i requires 0 <= i < |states| => states[i].transport)
  }

  /** Each half of a run is a run of its own protocol. */
  lemma StoresRun(states: seq<System>, events: seq<Event>) returns (actions: seq<C.Action>)
    requires IsRun(states, events)
    ensures J.IsRun(Stores(states), actions) && |actions| == |events|
  {
    actions := seq(|events|, i requires 0 <= i < |events| => StoreAction(states[i], events[i]));
    forall i | 0 <= i < |actions|
      ensures C.Enabled(Stores(states)[i], actions[i])
      ensures Stores(states)[i + 1] == C.Step(Stores(states)[i], actions[i]).store
    {
      assert Possible(states[i], events[i]) && states[i + 1] == Next(states[i], events[i]);
    }
  }

  lemma TransportsRun(states: seq<System>, events: seq<Event>) returns (actions: seq<F.Action>)
    requires IsRun(states, events)
    ensures F.IsRun(Transports(states), actions) && |actions| == |events|
    ensures forall i | 0 <= i < |events| :: actions[i] == FrameAction(events[i])
  {
    actions := seq(|events|, i requires 0 <= i < |events| => FrameAction(events[i]));
    forall i | 0 <= i < |actions| ensures Transports(states)[i + 1] == F.Step(Transports(states)[i], actions[i]) {
      assert states[i + 1] == Next(states[i], events[i]);
    }
  }

  // ---------------------------------------------------------------- theorems

  ghost predicate Claimed(s: System, op: Id, execution: Id) {
    && op in s.transport.claims && s.transport.claims[op].sandbox in s.store.bindings
    && L.ExecutionOf(s.store, s.transport.claims[op].sandbox) == execution
  }

  /** Two commands of one Execution, claimed by frames at any two moments, are for one sandbox. */
  lemma OneSandboxEverClaimed(states: seq<System>, events: seq<Event>, i: nat, j: nat, op: Id, op': Id, execution: Id)
    requires IsRun(states, events) && i <= j < |states|
    requires Claimed(states[i], op, execution) && Claimed(states[j], op', execution)
    ensures states[i].transport.claims[op].sandbox == states[j].transport.claims[op'].sandbox
  {
    RunAgrees(states, events, i);
    RunAgrees(states, events, j);
    var actions := StoresRun(states, events);
    L.OneSandboxEverDispatches(Stores(states), actions, i, j, op, op');
  }

  /** What replacement asks of the store is whether any frame ever claimed a command. */
  lemma ReplacementSeesClaims(states: seq<System>, events: seq<Event>, i: nat, execution: Id)
    requires IsRun(states, events) && i < |states|
    ensures C.CommandDispatched(states[i].store, execution) <==> exists op :: Claimed(states[i], op, execution)
  {
    RunAgrees(states, events, i);
    var s := states[i];
    if C.CommandDispatched(s.store, execution) {
      var op :| op in s.store.commands && s.store.commands[op] in s.store.bindings
                && s.store.bindings[s.store.commands[op]].request.scope.execution == execution;
      assert Claimed(s, op, execution);
    }
    if op :| Claimed(s, op, execution) {
      assert s.store.commands[op] in s.store.bindings;
    }
  }

  /** A replaced sandbox is silent: no frame of it, in either direction, is admitted again. */
  lemma ReplacedIsSilent(states: seq<System>, events: seq<Event>, i: nat, j: nat, lost: Id)
    requires IsRun(states, events) && i <= j < |events| && lost in states[i].store.replacements
    requires events[j].Receive? && events[j].frame.sandbox == lost
    ensures !F.Admitted(states[j].transport, events[j].frame, events[j].checks, events[j].now)
  {
    var actions := StoresRun(states, events);
    L.RunLineage(Stores(states), actions, i);
    J.RunAdvances(Stores(states), actions, i, j);
    var s, t := states[i].store, states[j].store;
    assert L.ReplacementLinked(s, lost);
    assert J.BindingAdvanced(s.bindings[lost], t.bindings[lost]);
    L.ReplacedNeverPasses(
      Stores(states), actions, i, j, s.bindings[lost].request.scope.attempt, t.bindings[lost].request, events[j].now);
    assert Possible(states[j], events[j]);
  }

  /** At most once, and for one sandbox per Execution: no two command frames of a run claim
      the same operation, and those of one Execution all go to one sandbox. */
  lemma CommandsOnceAndTogether(states: seq<System>, events: seq<Event>, i: nat, j: nat)
    requires IsRun(states, events) && i < j < |events|
    requires Commands(states[i], events[i]) && Commands(states[j], events[j])
    ensures events[i].frame.operation != events[j].frame.operation
    ensures events[i].frame.sandbox in states[j].store.bindings && events[j].frame.sandbox in states[j].store.bindings
    ensures L.ExecutionOf(states[j].store, events[i].frame.sandbox)
            == L.ExecutionOf(states[j].store, events[j].frame.sandbox) ==>
              events[i].frame.sandbox == events[j].frame.sandbox
  {
    var frames := TransportsRun(states, events);
    F.DispatchedAtMostOnce(Transports(states), frames, i, j);
    SandboxStays(states, events, i, j);
    SandboxStays(states, events, j, j);
    ClaimStays(states, events, i, j + 1);
    ClaimStays(states, events, j, j + 1);
    if L.ExecutionOf(states[j].store, events[i].frame.sandbox)
       == L.ExecutionOf(states[j].store, events[j].frame.sandbox) {
      var x := L.ExecutionOf(states[j].store, events[j].frame.sandbox);
      RunAgrees(states, events, j);
      CommandIsDispatch(states[j], events[j]);
      assert Claimed(states[j + 1], events[i].frame.operation, x);
      assert Claimed(states[j + 1], events[j].frame.operation, x);
      OneSandboxEverClaimed(
        states, events, j + 1, j + 1, events[i].frame.operation, events[j].frame.operation, x);
    }
  }

  /** A command's sandbox has its binding, then and later. */
  lemma SandboxStays(states: seq<System>, events: seq<Event>, i: nat, j: nat)
    requires IsRun(states, events) && i <= j < |events| && Commands(states[i], events[i])
    ensures events[i].frame.sandbox in states[j].store.bindings
  {
    var actions := StoresRun(states, events);
    J.RunAdvances(Stores(states), actions, i, j);
    assert Possible(states[i], events[i]);
  }

  /** A claimed command stays claimed, for the sandbox of its frame. */
  lemma ClaimStays(states: seq<System>, events: seq<Event>, i: nat, j: nat)
    requires IsRun(states, events) && i < j < |states| && Commands(states[i], events[i])
    ensures events[i].frame.operation in states[j].transport.claims
    ensures states[j].transport.claims[events[i].frame.operation].sandbox == events[i].frame.sandbox
  {
    var frames := TransportsRun(states, events);
    RunAgrees(states, events, i);
    CommandIsDispatch(states[i], events[i]);
    F.RunAdvances(Transports(states), frames, i + 1, j);
  }
}

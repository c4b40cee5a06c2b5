/** Attempts, replacement and dispatch over whole runs: a lost sandbox is replaced at most
    once and only before anything was dispatched, so at most one sandbox of an Execution
    ever receives a command, and a replaced Attempt never acts again. */
module SandboxLineage {
  import opened Common
  import opened SandboxCompute
  import J = SandboxJournal

  function ExecutionOf(s: Store, id: Id): Id
    requires id in s.bindings
  {
    s.bindings[id].request.scope.execution
  }

  // ---------------------------------------------------------------- invariant

  /** Attempts of one Execution have distinct ordinals, and at most one is current. */
  ghost predicate OrdinalsApart(m: map<Id, Attempt>) {
    forall x, y | x in m && y in m && x != y && m[x].execution == m[y].execution ::
      m[x].ordinal != m[y].ordinal && !(m[x].current && m[y].current)
  }

  /** The current Attempt is the last one of its Execution. */
  ghost predicate CurrentLast(m: map<Id, Attempt>) {
    forall x, y | x in m && y in m && m[x].execution == m[y].execution && m[x].current :: m[y].ordinal <= m[x].ordinal
  }

  ghost predicate AttemptsOrdered(m: map<Id, Attempt>) {
    && OrdinalsApart(m)
    && CurrentLast(m)
    && (forall x | x in m && m[x].state.Replaced? :: !m[x].current)
  }

  ghost predicate Placed(s: Store) {
    forall id | id in s.bindings :: BindingPlaced(s, id)
  }

  ghost predicate BindingPlaced(s: Store, id: Id)
    requires id in s.bindings
  {
    var scope := s.bindings[id].request.scope;
    && scope.attempt in s.attempts
    && s.attempts[scope.attempt].execution == scope.execution
    && s.attempts[scope.attempt].ordinal == scope.ordinal
  }

  ghost predicate CommandsBound(s: Store) {
    forall op | op in s.commands :: s.commands[op] in s.bindings
  }

  ghost predicate CommandsShare(s: Store)
    requires CommandsBound(s)
  {
    forall op, op' | op in s.commands && op' in s.commands
                     && ExecutionOf(s, s.commands[op]) == ExecutionOf(s, s.commands[op']) ::
      s.commands[op] == s.commands[op']
  }

  ghost predicate CommandsCurrent(s: Store)
    requires CommandsBound(s)
  {
    forall op, a | op in s.commands && a in s.attempts && s.attempts[a].current
                   && s.attempts[a].execution == ExecutionOf(s, s.commands[op]) ::
      a == s.bindings[s.commands[op]].request.scope.attempt
  }

  /** Commands of an Execution share one sandbox, and no other Attempt of it is current. */
  ghost predicate CommandsTogether(s: Store) {
    CommandsBound(s) && CommandsShare(s) && CommandsCurrent(s)
  }

  /** A decision links a replaced Attempt to the next ordinal of the same Execution. */
  ghost predicate ReplacementLinked(s: Store, lost: Id)
    requires lost in s.replacements
  {
    && lost in s.bindings && s.replacements[lost] in s.bindings
    && var was, next := s.bindings[lost].request.scope, s.bindings[s.replacements[lost]].request.scope;
    && next.execution == was.execution && next.ordinal == was.ordinal + 1
    && was.attempt in s.attempts && s.attempts[was.attempt].state.Replaced?
  }

  ghost predicate Links(s: Store) {
    forall lost | lost in s.replacements :: ReplacementLinked(s, lost)
  }

  ghost predicate Lineage(s: Store) {
    AttemptsOrdered(s.attempts) && Placed(s) && CommandsTogether(s) && Links(s)
  }

  // ---------------------------------------------------------------- preservation

  ghost predicate AttemptAdvanced(a: Attempt, b: Attempt) {
    && b.execution == a.execution && b.ordinal == a.ordinal && b.generation == a.generation
    && (!a.current ==> b == a)
  }

  ghost predicate AttemptsAdvanced(m: map<Id, Attempt>, n: map<Id, Attempt>) {
    m.Keys <= n.Keys && forall a | a in m :: AttemptAdvanced(m[a], n[a])
  }

  /** Attempts, decisions and commands keep their identity; what is no longer current stays as it is. */
  ghost predicate Advanced(s: Store, t: Store) {
    && AttemptsAdvanced(s.attempts, t.attempts)
    && s.replacements.Keys <= t.replacements.Keys
    && (forall lost | lost in s.replacements :: t.replacements[lost] == s.replacements[lost])
    && s.commands.Keys <= t.commands.Keys
    && (forall op | op in s.commands :: t.commands[op] == s.commands[op])
  }

  /** Attempt rows may change in place, but none is added and none becomes current. */
  ghost predicate AttemptsSettle(m: map<Id, Attempt>, n: map<Id, Attempt>) {
    && n.Keys == m.Keys
    && AttemptsAdvanced(m, n)
    && forall a | a in m ::
         (n[a].current ==> m[a].current) && (n[a].state.Replaced? ==> !n[a].current)
  }

  lemma SettleOne(m: map<Id, Attempt>, a: Id, x: Attempt)
    requires AttemptsOrdered(m) && a in m && AttemptAdvanced(m[a], x) && (x.current ==> m[a].current)
    requires x.state.Replaced? ==> !x.current
    ensures AttemptsSettle(m, m[a := x])
  {
  }

  lemma SettleKeepsOrder(m: map<Id, Attempt>, n: map<Id, Attempt>)
    requires AttemptsOrdered(m) && AttemptsSettle(m, n)
    ensures AttemptsOrdered(n)
  {
    assert forall a | a in m :: AttemptAdvanced(m[a], n[a]);
  }

  ghost predicate BindingsExtend(s: Store, t: Store) {
    && s.bindings.Keys <= t.bindings.Keys
    && forall id | id in s.bindings :: t.bindings[id].request == s.bindings[id].request
  }

  /** Commands stay together as long as bindings keep their requests and no Attempt
      becomes current in an Execution that has commands. */
  lemma CommandsStay(s: Store, t: Store)
    requires CommandsTogether(s) && BindingsExtend(s, t) && t.commands == s.commands
    requires forall op, a | op in s.commands && a in t.attempts && t.attempts[a].current
                            && t.attempts[a].execution == ExecutionOf(s, s.commands[op]) ::
               a in s.attempts && s.attempts[a].current && s.attempts[a].execution == t.attempts[a].execution
    ensures CommandsTogether(t)
  {
    forall op | op in t.commands
      ensures t.commands[op] in t.bindings && ExecutionOf(t, t.commands[op]) == ExecutionOf(s, s.commands[op])
    {
    }
  }

  lemma SettleKeepsCommands(s: Store, t: Store)
    requires CommandsTogether(s) && AttemptsSettle(s.attempts, t.attempts) && BindingsExtend(s, t)
    requires t.commands == s.commands
    ensures CommandsTogether(t)
  {
    assert forall a | a in s.attempts :: AttemptAdvanced(s.attempts[a], t.attempts[a]);
    CommandsStay(s, t);
  }

  lemma SettleKeepsPlaces(s: Store, t: Store)
    requires Placed(s) && AttemptsSettle(s.attempts, t.attempts) && BindingsExtend(s, t)
    requires forall id | id in t.bindings && id !in s.bindings :: BindingPlaced(t, id)
    ensures Placed(t)
  {
    forall id | id in t.bindings ensures BindingPlaced(t, id) {
      if id in s.bindings {
        assert BindingPlaced(s, id);
        var a := s.bindings[id].request.scope.attempt;
        assert AttemptAdvanced(s.attempts[a], t.attempts[a]);
      }
    }
  }

  lemma SettleKeepsLinks(s: Store, t: Store)
    requires Links(s) && AttemptsOrdered(s.attempts) && AttemptsSettle(s.attempts, t.attempts) && BindingsExtend(s, t)
    requires t.replacements == s.replacements
    ensures Links(t)
  {
    forall lost | lost in t.replacements ensures ReplacementLinked(t, lost) {
      assert ReplacementLinked(s, lost);
      var a := s.bindings[lost].request.scope.attempt;
      assert AttemptAdvanced(s.attempts[a], t.attempts[a]);
    }
  }

  lemma SettleKeepsLineage(s: Store, t: Store)
    requires Lineage(s) && AttemptsSettle(s.attempts, t.attempts) && BindingsExtend(s, t)
    requires t.commands == s.commands && t.replacements == s.replacements
    requires forall id | id in t.bindings && id !in s.bindings :: BindingPlaced(t, id)
    ensures Lineage(t)
  {
    SettleKeepsOrder(s.attempts, t.attempts);
    SettleKeepsCommands(s, t);
    SettleKeepsPlaces(s, t);
    SettleKeepsLinks(s, t);
  }

  lemma BindingsKeepRequests(s: Store, t: Store)
    requires J.Advanced(s, t)
    ensures BindingsExtend(s, t)
  {
    assert forall id | id in s.bindings :: J.BindingAdvanced(s.bindings[id], t.bindings[id]);
  }

  lemma ReserveKeepsLineage(s: Store, r: Request, matches: bool, reference: Id, now: Time)
    requires Lineage(s)
    ensures Lineage(Reserve(s, r, matches, reference, now).store)
  {
    var t := Reserve(s, r, matches, reference, now).store;
    if t != s {
      assert AttemptsSettle(s.attempts, t.attempts);
      assert BindingPlaced(t, r.scope.sandbox);
      SettleKeepsLineage(s, t);
    }
  }

  /** Steps that leave the lineage columns alone and add no binding. */
  lemma QuietKeepsLineage(s: Store, a: Action)
    requires Lineage(s) && J.Journalled(s) && Enabled(s, a)
    requires !a.DoReserve? && !a.DoReplace? && !a.DoDispatch? && !a.DoStoreHarness? && !a.Elsewhere?
    ensures Lineage(Step(s, a).store)
  {
    J.StepAdvances(s, a);
    BindingsKeepRequests(s, Step(s, a).store);
    SettleKeepsLineage(s, Step(s, a).store);
  }

  /** One Attempt row moves: its harness is stored, or it is settled. */
  lemma MoveKeepsLineage(s: Store, a: Id, x: Attempt)
    requires Lineage(s) && a in s.attempts && AttemptAdvanced(s.attempts[a], x)
    requires (x.current ==> s.attempts[a].current) && (x.state.Replaced? ==> !x.current)
    ensures Lineage(s.(attempts := s.attempts[a := x]))
  {
    SettleOne(s.attempts, a, x);
    SettleKeepsLineage(s, s.(attempts := s.attempts[a := x]));
  }

  lemma HarnessKeepsLineage(s: Store, id: Id, harness: Id, now: Time)
    requires Lineage(s)
    ensures Lineage(StoreHarness(s, id, harness, now).store)
  {
    if Talking(s, id, now) {
      var a := s.bindings[id].request.scope.attempt;
      MoveKeepsLineage(s, a, s.attempts[a].(harness := Some(harness)));
    }
  }

  lemma AdmitKeepsOrder(m: map<Id, Attempt>, a: Id, x: Attempt)
    requires AttemptsOrdered(m) && a !in m && !x.state.Replaced?
    requires forall y | y in m :: m[y].execution != x.execution
    ensures AttemptsOrdered(m[a := x])
  {
  }

  lemma AdmitKeepsPlaces(s: Store, a: Id, x: Attempt)
    requires Placed(s) && a !in s.attempts
    ensures Placed(s.(attempts := s.attempts[a := x]))
  {
    var t := s.(attempts := s.attempts[a := x]);
    forall id | id in t.bindings ensures BindingPlaced(t, id) {
      assert BindingPlaced(s, id);
    }
  }

  lemma AdmitKeepsCommands(s: Store, a: Id, x: Attempt)
    requires Placed(s) && CommandsTogether(s) && a !in s.attempts
    requires forall y | y in s.attempts :: s.attempts[y].execution != x.execution
    ensures CommandsTogether(s.(attempts := s.attempts[a := x]))
  {
    forall op | op in s.commands ensures ExecutionOf(s, s.commands[op]) != x.execution {
      assert BindingPlaced(s, s.commands[op]);
    }
    CommandsStay(s, s.(attempts := s.attempts[a := x]));
  }

  lemma AdmitKeepsLineage(s: Store, a: Id, x: Attempt)
    requires Lineage(s) && a !in s.attempts && !x.state.Replaced?
    requires forall y | y in s.attempts :: s.attempts[y].execution != x.execution
    ensures Lineage(s.(attempts := s.attempts[a := x]))
  {
    AdmitKeepsOrder(s.attempts, a, x);
    AdmitKeepsPlaces(s, a, x);
    AdmitKeepsCommands(s, a, x);
    LinksStay(s, s.(attempts := s.attempts[a := x]));
  }

  lemma LinksStay(s: Store, t: Store)
    requires Links(s) && t.bindings == s.bindings && t.replacements == s.replacements
    requires forall a | a in s.attempts :: a in t.attempts && t.attempts[a] == s.attempts[a]
    ensures Links(t)
  {
    forall lost | lost in t.replacements ensures ReplacementLinked(t, lost) {
      assert ReplacementLinked(s, lost);
    }
  }

  lemma EventKeepsLineage(s: Store, e: Event)
    requires Lineage(s)
    ensures Lineage(Happen(s, e))
  {
    var t := Happen(s, e);
    if t.attempts == s.attempts {
      assert AttemptsSettle(s.attempts, t.attempts);
      SettleKeepsLineage(s, t);
    } else if e.Admit? {
      AdmitKeepsLineage(s, e.attempt, t.attempts[e.attempt]);
    } else {
      MoveKeepsLineage(s, e.attempt, t.attempts[e.attempt]);
    }
  }

  /** The fence admits a command only for the one Attempt that may still have any. */
  lemma OnlyCurrentSandbox(s: Store, id: Id, now: Time, op: Id)
    requires CommandsTogether(s) && J.IdentifiersDistinct(s) && Talking(s, id, now)
    requires op in s.commands && ExecutionOf(s, s.commands[op]) == ExecutionOf(s, id)
    ensures s.commands[op] == id
  {
    var a := s.bindings[id].request.scope.attempt;
    assert a in s.attempts && s.attempts[a].current && s.attempts[a].execution == ExecutionOf(s, id);
    assert a == s.bindings[s.commands[op]].request.scope.attempt;
  }

  lemma DispatchKeepsShare(s: Store, t: Store, id: Id, op: Id, now: Time)
    requires CommandsTogether(s) && J.IdentifiersDistinct(s) && Talking(s, id, now)
    requires op !in s.commands && t == s.(commands := s.commands[op := id])
    ensures CommandsBound(t) && CommandsShare(t)
  {
    forall x | x in s.commands && ExecutionOf(s, s.commands[x]) == ExecutionOf(s, id) ensures s.commands[x] == id {
      OnlyCurrentSandbox(s, id, now, x);
    }
  }

  lemma DispatchKeepsCurrent(s: Store, t: Store, id: Id, op: Id, now: Time)
    requires OrdinalsApart(s.attempts) && CommandsTogether(s) && Talking(s, id, now)
    requires op !in s.commands && t == s.(commands := s.commands[op := id])
    ensures CommandsBound(t) && CommandsCurrent(t)
  {
    var b := s.bindings[id].request.scope.attempt;
    forall a | a in s.attempts && s.attempts[a].current && s.attempts[a].execution == ExecutionOf(s, id)
      ensures a == b {
      assert s.attempts[b].current && s.attempts[b].execution == s.attempts[a].execution;
    }
  }

  lemma DispatchKeepsLineage(s: Store, id: Id, op: Id, now: Time)
    requires Lineage(s) && J.Journalled(s)
    ensures Lineage(Dispatch(s, id, op, now).store)
  {
    var t := Dispatch(s, id, op, now).store;
    if t != s {
      DispatchKeepsShare(s, t, id, op, now);
      DispatchKeepsCurrent(s, t, id, op, now);
      assert Placed(t) by {
        assert forall x | x in t.bindings :: BindingPlaced(s, x);
      }
      LinksStay(s, t);
    }
  }

  ghost predicate Replaceable(s: Store, lost: Id, n: Resources) {
    && lost in s.bindings && lost in s.recoveries
    && var was := s.bindings[lost].request.scope;
    && Joined(s, was)
    && s.attempts[was.attempt].current && s.attempts[was.attempt].ordinal == was.ordinal
    && ResourcesFresh(s, s.bindings[lost].request, n)
    && !CommandDispatched(s, was.execution)
  }

  /** The successor is above every Attempt of its Execution, and none of those is current. */
  lemma SuccessorOnTop(m: map<Id, Attempt>, was: Id, a: Id, x: Attempt, n: map<Id, Attempt>, y: Id)
    requires OrdinalsApart(m) && CurrentLast(m) && was in m && m[was].current && a !in m
    requires x.execution == m[was].execution && x.ordinal == m[was].ordinal + 1
    requires n == m[was := m[was].(state := Replaced, current := false)][a := x]
    requires y in n && y != a && n[y].execution == x.execution
    ensures !n[y].current && n[y].ordinal < x.ordinal
  {
    assert y in m && m[y].execution == m[was].execution && m[y].ordinal <= m[was].ordinal;
  }

  lemma ReplaceKeepsApart(m: map<Id, Attempt>, was: Id, a: Id, x: Attempt, n: map<Id, Attempt>)
    requires OrdinalsApart(m) && CurrentLast(m) && was in m && m[was].current && a !in m
    requires x.execution == m[was].execution && x.ordinal == m[was].ordinal + 1
    requires n == m[was := m[was].(state := Replaced, current := false)][a := x]
    ensures OrdinalsApart(n)
  {
    forall y, z | y in n && z in n && y != z && n[y].execution == n[z].execution
      ensures n[y].ordinal != n[z].ordinal && !(n[y].current && n[z].current)
    {
      if y == a {
        SuccessorOnTop(m, was, a, x, n, z);
      } else if z == a {
        SuccessorOnTop(m, was, a, x, n, y);
      } else {
        assert m[y].execution == m[z].execution;
      }
    }
  }

  lemma ReplaceKeepsLast(m: map<Id, Attempt>, was: Id, a: Id, x: Attempt, n: map<Id, Attempt>)
    requires OrdinalsApart(m) && CurrentLast(m) && was in m && m[was].current && a !in m
    requires x.execution == m[was].execution && x.ordinal == m[was].ordinal + 1
    requires n == m[was := m[was].(state := Replaced, current := false)][a := x]
    ensures CurrentLast(n)
  {
    forall y, z | y in n && z in n && n[y].execution == n[z].execution && n[y].current
      ensures n[z].ordinal <= n[y].ordinal
    {
      if y == a && z != a {
        SuccessorOnTop(m, was, a, x, n, z);
      } else if y != a {
        assert y in m && y != was;
      }
    }
  }

  lemma ReplaceKeepsOrder(m: map<Id, Attempt>, was: Id, a: Id, x: Attempt)
    requires AttemptsOrdered(m) && was in m && m[was].current && a !in m && !x.state.Replaced?
    requires x.execution == m[was].execution && x.ordinal == m[was].ordinal + 1
    ensures AttemptsOrdered(m[was := m[was].(state := Replaced, current := false)][a := x])
  {
    var n := m[was := m[was].(state := Replaced, current := false)][a := x];
    ReplaceKeepsApart(m, was, a, x, n);
    ReplaceKeepsLast(m, was, a, x, n);
  }

  lemma ReplaceKeepsAttempts(s: Store, lost: Id, n: Resources)
    requires AttemptsOrdered(s.attempts) && Replaceable(s, lost, n)
    ensures AttemptsOrdered(ReplaceRows(s, lost, n).attempts)
  {
    var was := s.bindings[lost].request.scope;
    var x := Attempt(was.execution, was.generation, was.ordinal + 1, true, Pending, None);
    assert n.attempt !in s.attempts;
    ReplaceKeepsOrder(s.attempts, was.attempt, n.attempt, x);
    assert ReplaceRows(s, lost, n).attempts
        == s.attempts[was.attempt := s.attempts[was.attempt].(state := Replaced, current := false)][n.attempt := x];
  }

  lemma ReplaceKeepsCommands(s: Store, lost: Id, n: Resources)
    requires CommandsTogether(s) && Replaceable(s, lost, n)
    ensures CommandsTogether(ReplaceRows(s, lost, n))
  {
    var t := ReplaceRows(s, lost, n);
    assert CommandsBound(t);
    assert forall op | op in s.commands :: s.commands[op] in s.bindings && s.commands[op] != n.sandbox;
    forall op, a | op in t.commands && a in t.attempts && t.attempts[a].current
                   && t.attempts[a].execution == ExecutionOf(t, t.commands[op])
      ensures a == t.bindings[t.commands[op]].request.scope.attempt
    {
      assert ExecutionOf(s, s.commands[op]) != s.bindings[lost].request.scope.execution;
    }
  }

  lemma ReplaceKeepsPlaces(s: Store, lost: Id, n: Resources)
    requires Replaceable(s, lost, n) && Placed(s)
    ensures Placed(ReplaceRows(s, lost, n))
  {
    var t := ReplaceRows(s, lost, n);
    forall id | id in t.bindings ensures BindingPlaced(t, id) {
      if id in s.bindings {
        assert BindingPlaced(s, id);
      }
    }
  }

  lemma ReplaceKeepsLinks(s: Store, lost: Id, n: Resources)
    requires Replaceable(s, lost, n) && lost !in s.replacements && Links(s)
    ensures Links(ReplaceRows(s, lost, n))
  {
    var t := ReplaceRows(s, lost, n);
    forall x | x in t.replacements ensures ReplacementLinked(t, x) {
      if x != lost {
        assert ReplacementLinked(s, x);
      }
    }
  }

  lemma ReplaceKeepsLineage(s: Store, lost: Id, n: Resources, quiet: bool, approved: bool, claimable: bool, now: Time)
    requires Lineage(s)
    ensures Lineage(ReplaceDeleted(s, lost, n, quiet, approved, claimable, now).store)
  {
    if ReplaceDeleted(s, lost, n, quiet, approved, claimable, now).reply.Accepted? {
      ReplaceKeepsAttempts(s, lost, n);
      ReplaceKeepsCommands(s, lost, n);
      ReplaceKeepsPlaces(s, lost, n);
      ReplaceKeepsLinks(s, lost, n);
    }
  }

  lemma StepKeepsLineage(s: Store, a: Action)
    requires Lineage(s) && J.Journalled(s) && Enabled(s, a)
    ensures Lineage(Step(s, a).store)
  {
    match a
    case DoReserve(r, matches, reference, now) => ReserveKeepsLineage(s, r, matches, reference, now);
    case DoReplace(lost, n, quiet, approved, claimable, now) =>
      ReplaceKeepsLineage(s, lost, n, quiet, approved, claimable, now);
    case DoDispatch(id, op, now) => DispatchKeepsLineage(s, id, op, now);
    case DoStoreHarness(id, harness, now) => HarnessKeepsLineage(s, id, harness, now);
    case Elsewhere(e) => EventKeepsLineage(s, e);
    case _ => QuietKeepsLineage(s, a);
  }

  lemma AdvanceOne(m: map<Id, Attempt>, a: Id, x: Attempt)
    requires a in m ==> AttemptAdvanced(m[a], x)
    ensures AttemptsAdvanced(m, m[a := x])
  {
  }

  lemma ReplaceAdvances(s: Store, lost: Id, n: Resources)
    requires Replaceable(s, lost, n) && lost !in s.replacements
    ensures Advanced(s, ReplaceRows(s, lost, n))
  {
    var was := s.bindings[lost].request.scope.attempt;
    var m := s.attempts[was := s.attempts[was].(state := Replaced, current := false)];
    AdvanceOne(s.attempts, was, m[was]);
    AdvanceOne(m, n.attempt, ReplaceRows(s, lost, n).attempts[n.attempt]);
  }

  lemma EventAdvances(s: Store, e: Event)
    ensures Advanced(s, Happen(s, e))
  {
    var t := Happen(s, e);
    if t.attempts != s.attempts {
      AdvanceOne(s.attempts, e.attempt, t.attempts[e.attempt]);
    }
  }

  lemma StepAdvances(s: Store, a: Action)
    ensures Advanced(s, Step(s, a).store)
  {
    var t := Step(s, a).store;
    match a
    case DoReplace(lost, n, _, _, _, _) =>
      if t != s {
        ReplaceAdvances(s, lost, n);
      }
    case DoDispatch(_, _, _) => assert t.attempts == s.attempts && t.replacements == s.replacements;
    case DoStoreHarness(id, _, _) =>
      if t != s {
        var x := s.bindings[id].request.scope.attempt;
        AdvanceOne(s.attempts, x, t.attempts[x]);
      }
    case Elsewhere(e) => EventAdvances(s, e);
    case _ => assert SameLineage(s, t);
  }

  lemma AdvancedTransitive(s: Store, t: Store, u: Store)
    requires Advanced(s, t) && Advanced(t, u)
    ensures Advanced(s, u)
  {
    forall a | a in s.attempts ensures AttemptAdvanced(s.attempts[a], u.attempts[a]) {
      assert AttemptAdvanced(s.attempts[a], t.attempts[a]) && AttemptAdvanced(t.attempts[a], u.attempts[a]);
    }
  }

  // ---------------------------------------------------------------- whole runs

  lemma {:induction false} RunLineage(states: seq<Store>, actions: seq<Action>, i: nat)
    requires J.IsRun(states, actions) && i < |states|
    ensures Lineage(states[i])
  {
    if i > 0 {
      RunLineage(states, actions, i - 1);
      J.RunJournalled(states, actions, i - 1);
      StepKeepsLineage(states[i - 1], actions[i - 1]);
    }
  }

  lemma {:induction false} AdvancesChain(states: seq<Store>, i: nat, j: nat)
    requires i <= j < |states|
    requires forall k | i <= k < j :: Advanced(states[k], states[k + 1])
    ensures Advanced(states[i], states[j])
  {
    if i < j {
      AdvancesChain(states, i, j - 1);
      assert Advanced(states[j - 1], states[j - 1 + 1]);
      AdvancedTransitive(states[i], states[j - 1], states[j]);
    }
  }

  lemma RunAdvances(states: seq<Store>, actions: seq<Action>, i: nat, j: nat)
    requires J.IsRun(states, actions) && i <= j < |states|
    ensures Advanced(states[i], states[j])
  {
    forall k | i <= k < j ensures Advanced(states[k], states[k + 1]) {
      StepAdvances(states[k], actions[k]);
    }
    AdvancesChain(states, i, j);
  }

  /** At most one sandbox of an Execution ever has a command, in the whole run. */
  lemma OneSandboxEverDispatches(
    states: seq<Store>, actions: seq<Action>, i: nat, j: nat, op: Id, op': Id)
    requires J.IsRun(states, actions) && i <= j < |states|
    requires op in states[i].commands && op' in states[j].commands
    requires states[i].commands[op] in states[i].bindings && states[j].commands[op'] in states[j].bindings
    requires ExecutionOf(states[i], states[i].commands[op]) == ExecutionOf(states[j], states[j].commands[op'])
    ensures states[i].commands[op] == states[j].commands[op']
  {
    RunLineage(states, actions, j);
    J.RunAdvances(states, actions, i, j);
    RunAdvances(states, actions, i, j);
    assert J.BindingAdvanced(
      states[i].bindings[states[i].commands[op]], states[j].bindings[states[i].commands[op]]);
  }

  lemma ReplaceEffect(s: Store, lost: Id, n: Resources, quiet: bool, approved: bool, claimable: bool, now: Time)
    requires ReplaceDeleted(s, lost, n, quiet, approved, claimable, now).reply.Accepted?
    ensures var t := ReplaceDeleted(s, lost, n, quiet, approved, claimable, now).store;
            && Replaceable(s, lost, n) && t == ReplaceRows(s, lost, n)
  {
  }

  /** The new Attempt, with its ordinal and its place as the only current one. */
  ghost predicate Succeeded(t: Store, was: Scope, attempt: Id) {
    && attempt in t.attempts && t.attempts[attempt].current
    && t.attempts[attempt].execution == was.execution && t.attempts[attempt].ordinal == was.ordinal + 1
    && forall x | x in t.attempts && t.attempts[x].execution == was.execution && t.attempts[x].current :: x == attempt
  }

  /** A replacement commits with the new Attempt as the only current one of its Execution,
      one ordinal above the one it replaces, and with nothing dispatched so far. */
  lemma ReplacementLeavesOneCurrent(states: seq<Store>, actions: seq<Action>, i: nat)
    requires J.IsRun(states, actions) && i < |actions|
    requires actions[i].DoReplace? && Step(states[i], actions[i]).reply.Accepted?
    ensures var a, t := actions[i], states[i + 1];
            && a.id in states[i].bindings
            && Succeeded(t, states[i].bindings[a.id].request.scope, a.resources.attempt)
            && a.id in t.replacements && t.replacements[a.id] == a.resources.sandbox
            && !CommandDispatched(states[i], states[i].bindings[a.id].request.scope.execution)
  {
    var a := actions[i];
    ReplaceEffect(states[i], a.id, a.resources, a.quiet, a.approved, a.claimable, a.now);
    RunLineage(states, actions, i + 1);
    assert OrdinalsApart(states[i + 1].attempts);
  }

  /** A replaced Attempt never passes the fence again, whatever request names it. */
  lemma ReplacedNeverPasses(
    states: seq<Store>, actions: seq<Action>, i: nat, j: nat, attempt: Id, r: Request, now: Time)
    requires J.IsRun(states, actions) && i <= j < |states|
    requires attempt in states[i].attempts && states[i].attempts[attempt].state.Replaced?
    requires r.scope.attempt == attempt
    ensures attempt in states[j].attempts && states[j].attempts[attempt] == states[i].attempts[attempt]
    ensures !Fence(states[j], r, now)
  {
    RunLineage(states, actions, i);
    RunAdvances(states, actions, i, j);
    assert AttemptAdvanced(states[i].attempts[attempt], states[j].attempts[attempt]);
  }

  /** Two losses that share a replacement are one: the Attempt one ordinal below it is unique. */
  lemma LinksInjective(s: Store, lost: Id, lost': Id)
    requires Lineage(s) && J.IdentifiersDistinct(s) && lost in s.replacements && lost' in s.replacements
    requires s.replacements[lost'] == s.replacements[lost]
    ensures lost' == lost
  {
    assert ReplacementLinked(s, lost) && ReplacementLinked(s, lost');
    assert BindingPlaced(s, lost) && BindingPlaced(s, lost');
    assert s.bindings[lost].request.scope.attempt == s.bindings[lost'].request.scope.attempt;
  }

  /** A lost sandbox has at most one replacement, and no other loss shares it. */
  lemma OneReplacementPerLoss(states: seq<Store>, actions: seq<Action>, i: nat, j: nat, lost: Id, lost': Id)
    requires J.IsRun(states, actions) && i <= j < |states|
    requires lost in states[i].replacements
    ensures lost in states[j].replacements && states[j].replacements[lost] == states[i].replacements[lost]
    ensures lost' in states[j].replacements && states[j].replacements[lost'] == states[j].replacements[lost] ==>
              lost' == lost
  {
    RunAdvances(states, actions, i, j);
    RunLineage(states, actions, j);
    J.RunJournalled(states, actions, j);
    if lost' in states[j].replacements && states[j].replacements[lost'] == states[j].replacements[lost] {
      LinksInjective(states[j], lost, lost');
    }
  }
}

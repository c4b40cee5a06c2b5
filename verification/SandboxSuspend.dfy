/** The release of all retained compute inside one suspend transaction
    (internal/adapters/postgres/session_suspend.go): every intent is loaded and checked
    before the first release row is written, and all of it commits or none. */
module SandboxSuspend {
  import opened Common
  import opened SandboxCompute
  import J = SandboxJournal
  import SandboxStore

  const MAX_RETAINED := 64

  /** The check that the first loop makes of a retained binding. */
  predicate Retirable(s: Store, id: Id, now: Time) {
    && Load(s, id, now).Intended?
    && var i := Load(s, id, now).intent;
    && s.sessions[i.request.scope.session].state in {Ready, Idle}
    && !i.current && i.reference != NONE && (i.desired.MakeReleased? ==> i.authorized)
  }

  /** One binding after the other, each by its own step; None when any is refused. */
  function SuspendAll(s: Store, ids: seq<Id>, newIds: seq<Id>, now: Time): Option<Store>
    requires |ids| == |newIds|
    decreases |ids|
  {
    if ids == [] then Some(s)
    else
      var first := SuspendRelease(s, ids[0], newIds[0], now);
      if first.reply.Rejected? then None else SuspendAll(first.store, ids[1..], newIds[1..], now)
  }

  /** Releasing one binding leaves the intent of every other as it was. */
  lemma LoadElsewhere(s: Store, i: Intent, newId: Id, id: Id, now: Time)
    requires i.sandbox in s.bindings && i.reference !in s.cleanups && id != i.sandbox
    ensures Load(InsertRelease(s, i, newId), id, now) == Load(s, id, now)
  {
    var t := InsertRelease(s, i, newId);
    if id in s.bindings {
      assert t.bindings[id] == s.bindings[id];
      assert OwnsCleanup(t, id) == OwnsCleanup(s, id);
      assert forall op :: ReleaseAuthorized(t, id, op) == ReleaseAuthorized(s, id, op);
    }
  }

  lemma ReleaseElsewhere(s: Store, id: Id, newId: Id, other: Id, now: Time)
    requires !SuspendRelease(s, id, newId, now).reply.Rejected? && other != id
    ensures var t := SuspendRelease(s, id, newId, now).store;
            && t.sessions == s.sessions
            && Load(t, other, now) == Load(s, other, now) && Retirable(t, other, now) == Retirable(s, other, now)
  {
    var t := SuspendRelease(s, id, newId, now).store;
    if t != s {
      var i := Load(s, id, now).intent;
      LoadElsewhere(s, i, newId, other, now);
    }
  }

  ghost predicate Distinct(ids: seq<Id>) {
    forall j, k | 0 <= j < k < |ids| :: ids[j] != ids[k]
  }

  /** A binding that could not be released at the outset spoils the whole transaction. */
  lemma {:induction false} OneRefusalRefusesAll(s: Store, ids: seq<Id>, newIds: seq<Id>, now: Time, m: nat)
    requires |ids| == |newIds| && Distinct(ids) && m < |ids| && !Retirable(s, ids[m], now)
    ensures SuspendAll(s, ids, newIds, now).None?
    decreases m
  {
    if m > 0 && !SuspendRelease(s, ids[0], newIds[0], now).reply.Rejected? {
      ReleaseElsewhere(s, ids[0], newIds[0], ids[m], now);
      OneRefusalRefusesAll(SuspendRelease(s, ids[0], newIds[0], now).store, ids[1..], newIds[1..], now, m - 1);
    }
  }

  /** The first loop: load and check every retained binding, writing nothing. */
  method CheckRetained(store: SandboxStore.Bindings, ids: seq<Id>, now: Time) returns (refused: Option<nat>)
    ensures refused.None? <==> forall m | 0 <= m < |ids| :: Retirable(store.View(), ids[m], now)
    ensures refused.Some? ==> refused.value < |ids| && !Retirable(store.View(), ids[refused.value], now)
  {
    var k := 0;
    while k < |ids|
      invariant k <= |ids|
      invariant forall m | 0 <= m < k :: Retirable(store.View(), ids[m], now)
    {
      var loaded := store.LoadCompute(ids[k], now);
      if !loaded.Intended? {
        return Some(k);
      }
      var i := loaded.intent;
      var state := store.sessions[i.request.scope.session].state;
      if || (state != Ready && state != Idle) || i.current || i.reference == NONE
         || (i.desired.MakeReleased? && !i.authorized) {
        return Some(k);
      }
      k := k + 1;
    }
    return None;
  }

  /** Checking everything first and then writing everything is releasing one after the other. */
  method ReleaseRetained(store: SandboxStore.Bindings, ids: seq<Id>, newIds: seq<Id>, verified: bool, now: Time)
    returns (ok: bool)
    requires |ids| == |newIds| && Distinct(ids)
    modifies store
    ensures var all := SuspendAll(old(store.View()), ids, newIds, now);
            && (ok <==> |ids| <= MAX_RETAINED && verified && all.Some?)
            && store.View() == if ok then all.value else old(store.View())
  {
    if |ids| > MAX_RETAINED {
      return false;
    }
    var rows := store.View();
    var refused := CheckRetained(store, ids, now);
    if refused.Some? {
      OneRefusalRefusesAll(rows, ids, newIds, now, refused.value);
      return false;
    }
    if !verified {
      return false;
    }
    var k := 0;
    while k < |ids|
      invariant k <= |ids|
      invariant SuspendAll(store.View(), ids[k..], newIds[k..], now) == SuspendAll(rows, ids, newIds, now)
    {
      SuspendNext(store.View(), ids, newIds, now, k);
      var reply := store.SuspendRelease(ids[k], newIds[k], now);
      if reply.Rejected? {
        store.Restore(rows);
        return false;
      }
      k := k + 1;
    }
    return true;
  }

  lemma SuspendNext(s: Store, ids: seq<Id>, newIds: seq<Id>, now: Time, k: nat)
    requires |ids| == |newIds| && k < |ids|
    ensures var first := SuspendRelease(s, ids[k], newIds[k], now);
            SuspendAll(s, ids[k..], newIds[k..], now)
            == if first.reply.Rejected? then None else SuspendAll(first.store, ids[k + 1..], newIds[k + 1..], now)
  {
    assert ids[k..][1..] == ids[k + 1..] && newIds[k..][1..] == newIds[k + 1..];
  }

  ghost predicate AllFresh(s: Store, newIds: seq<Id>) {
    Distinct(newIds) && forall k | 0 <= k < |newIds| :: Fresh(s, newIds[k])
  }

  /** The identifiers still to be used stay new after one release. */
  lemma FreshAfterRelease(s: Store, id: Id, newId: Id, now: Time, other: Id)
    requires Fresh(s, other) && other != newId
    ensures Fresh(SuspendRelease(s, id, newId, now).store, other)
  {
  }

  predicate WillRelease(s: Store, id: Id, now: Time) {
    var loaded := Load(s, id, now);
    loaded.Intended? && loaded.intent.desired.MakeReleased? && loaded.intent.authorized
  }

  lemma ReleasedNow(s: Store, id: Id, newId: Id, now: Time)
    requires !SuspendRelease(s, id, newId, now).reply.Rejected?
    ensures WillRelease(SuspendRelease(s, id, newId, now).store, id, now)
  {
    var i := Load(s, id, now).intent;
    if i.desired.KeepRunning? {
      var t := InsertRelease(s, i, newId);
      assert t.bindings[id].request == s.bindings[id].request && t.bindings[id].reference == i.reference;
      assert ReleaseAuthorized(t, id, newId);
    }
  }

  lemma OneKeepsJournal(s: Store, id: Id, newId: Id, now: Time)
    requires J.Journalled(s) && Fresh(s, newId)
    ensures J.Journalled(SuspendRelease(s, id, newId, now).store)
    ensures J.Advanced(s, SuspendRelease(s, id, newId, now).store)
  {
    J.StepKeepsJournalled(s, DoSuspendRelease(id, newId, now));
    J.StepAdvances(s, DoSuspendRelease(id, newId, now));
  }

  lemma RestStaysFresh(s: Store, id: Id, newIds: seq<Id>, now: Time)
    requires newIds != [] && AllFresh(s, newIds)
    ensures AllFresh(SuspendRelease(s, id, newIds[0], now).store, newIds[1..])
  {
    forall k | 0 <= k < |newIds[1..]| ensures Fresh(SuspendRelease(s, id, newIds[0], now).store, newIds[1..][k]) {
      FreshAfterRelease(s, id, newIds[0], now, newIds[k + 1]);
    }
  }

  /** A committed suspend keeps the journal in order. */
  lemma {:induction false} SuspendAllKeepsJournal(s: Store, ids: seq<Id>, newIds: seq<Id>, now: Time)
    requires |ids| == |newIds| && AllFresh(s, newIds) && J.Journalled(s) && SuspendAll(s, ids, newIds, now).Some?
    ensures J.Journalled(SuspendAll(s, ids, newIds, now).value)
    ensures J.Advanced(s, SuspendAll(s, ids, newIds, now).value)
    decreases |ids|
  {
    if ids != [] {
      var u := SuspendRelease(s, ids[0], newIds[0], now).store;
      OneKeepsJournal(s, ids[0], newIds[0], now);
      RestStaysFresh(s, ids[0], newIds, now);
      SuspendAllKeepsJournal(u, ids[1..], newIds[1..], now);
      J.AdvancedTransitive(s, u, SuspendAll(s, ids, newIds, now).value);
    }
  }

  lemma {:induction false} SuspendAllElsewhere(s: Store, ids: seq<Id>, newIds: seq<Id>, now: Time, id: Id)
    requires |ids| == |newIds| && id !in ids && SuspendAll(s, ids, newIds, now).Some?
    ensures Load(SuspendAll(s, ids, newIds, now).value, id, now) == Load(s, id, now)
    decreases |ids|
  {
    if ids != [] {
      ReleaseElsewhere(s, ids[0], newIds[0], id, now);
      SuspendAllElsewhere(SuspendRelease(s, ids[0], newIds[0], now).store, ids[1..], newIds[1..], now, id);
    }
  }

  /** It leaves every retained binding with an authorized release on record. */
  lemma {:induction false} SuspendAllReleases(s: Store, ids: seq<Id>, newIds: seq<Id>, now: Time, k: nat)
    requires |ids| == |newIds| && Distinct(ids) && SuspendAll(s, ids, newIds, now).Some? && k < |ids|
    ensures WillRelease(SuspendAll(s, ids, newIds, now).value, ids[k], now)
    decreases |ids|
  {
    var u := SuspendRelease(s, ids[0], newIds[0], now).store;
    if k == 0 {
      ReleasedNow(s, ids[0], newIds[0], now);
      SuspendAllElsewhere(u, ids[1..], newIds[1..], now, ids[0]);
    } else {
      SuspendAllReleases(u, ids[1..], newIds[1..], now, k - 1);
    }
  }
}

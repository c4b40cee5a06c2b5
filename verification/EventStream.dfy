/** Gap-free event replay (internal/app/eventstream/read.go, event_reads.go under
    internal/adapters/postgres, and the stream loop of internal/adapters/http/session_events.go). */
module EventStream {
  import opened Common

  /** Events of one Session; retention may drop or expire any of them at any time. */
  datatype Event = Event(sequence: nat, execution: Id, until: Option<Time>, body: nat)

  datatype Log = Log(latest: nat, events: map<nat, Event>)

  /** A log is a snapshot of a history: events keep their numbers and content, and any of
      them may be missing. */
  ghost predicate Snapshot(log: Log, history: seq<Event>) {
    && log.latest <= |history| && log.latest <= MAX_INT64
    && forall k | k in log.events :: 1 <= k <= log.latest && log.events[k] == history[k - 1]
  }

  /** Numbers are allocated 1, 2, 3, ... by the append trigger. */
  ghost predicate Numbered(history: seq<Event>) {
    forall k | 0 <= k < |history| :: history[k].sequence == k + 1
  }

  predicate Alive(e: Event, now: Time) {
    e.until.None? || e.until.value > now
  }

  predicate Retained(log: Log, k: nat, now: Time) {
    k in log.events && Alive(log.events[k], now)
  }

  // ---------------------------------------------------------------- ReadNext

  /** The least retained number from k on. */
  function First(log: Log, k: nat, now: Time): (n: Option<nat>)
    ensures n.Some? ==> k <= n.value <= log.latest && Retained(log, n.value, now)
    ensures n.Some? ==> forall j | k <= j < n.value :: !Retained(log, j, now)
    ensures n.None? ==> forall j | k <= j <= log.latest :: !Retained(log, j, now)
    decreases log.latest + 1 - k
  {
    if k > log.latest then None
    else if Retained(log, k, now) then Some(k)
    else First(log, k + 1, now)
  }

  datatype Read = Read(earliest: nat, latest: nat, event: Option<Event>)

  function ReadNext(log: Log, after: nat, now: Time): Read {
    var first, next := First(log, 1, now), First(log, after + 1, now);
    Read(if first.Some? then first.value else log.latest + 1, log.latest,
         if next.Some? then Some(log.events[next.value]) else None)
  }

  // ---------------------------------------------------------------- Next

  datatype Error = ErrInvalid | ErrGap | ErrNotFound | ErrUnavailable

  /** sequence 0 is no event; a number without data is another Execution's event. */
  datatype Result = Result(earliest: nat, latest: nat, sequence: nat, data: Option<Event>)

  const NOTHING := Result(0, 0, 0, None)

  /** What one Next finds: a snapshot, three readings of the clock, and access decisions. */
  datatype World = World(
    log: Log, readAt: Time, checkedAt: Time, sentAt: Time, access: bool, eventAccess: bool, fits: bool)

  ghost predicate Orderly(x: World) {
    x.readAt <= x.checkedAt <= x.sentAt
  }

  /** What an answer must be when access is granted: idle exactly at the latest number,
      invalid exactly beyond it, event after+1 exactly if it is still retained (delivered, or
      passed over as another Execution's), and a gap in every other case. */
  ghost predicate Exact(
    x: World, execution: Option<Id>, after: nat, history: seq<Event>, out: Result, err: Option<Error>)
    requires Snapshot(x.log, history)
  {
    var other := after < x.log.latest && execution.Some? && history[after].execution != execution.value;
    var kept := after < x.log.latest && Retained(x.log, after + 1, if other then x.checkedAt else x.sentAt);
    && (err == Some(ErrInvalid) <==> after > x.log.latest)
    && (err == None && out.sequence == 0 <==> after == x.log.latest)
    && (err == None && out.sequence != 0 <==> kept)
    && (kept ==> out.sequence == after + 1 && out.data == if other then None else Some(history[after]))
    && (err == Some(ErrGap) <==> after < x.log.latest && !kept)
    && (err == Some(ErrGap) ==>
          out.latest == x.log.latest && out.earliest == ReadNext(x.log, after, x.readAt).earliest)
  }

  ghost predicate Granted(x: World, after: nat) {
    Orderly(x) && x.access && x.eventAccess && x.fits && after <= MAX_INT64
  }

  method Next(x: World, execution: Option<Id>, after: nat, ghost history: seq<Event>)
    returns (out: Result, err: Option<Error>)
    requires Snapshot(x.log, history) && Numbered(history)
    ensures (out, err) == NextAnswer(x, execution, after)
    ensures Granted(x, after) ==> Exact(x, execution, after, history, out, err)
    ensures err.None? && out.sequence != 0 ==> out.sequence == after + 1 && after < |history|
  {
    if Granted(x, after) {
      NextExact(x, execution, after, history);
    }
    NextNeverSkips(x, execution, after, history);
    out := NOTHING;
    if after > MAX_INT64 {
      return NOTHING, Some(ErrInvalid);
    }
    if !x.access {
      return NOTHING, Some(ErrNotFound);
    }
    var read := ReadNext(x.log, after, x.readAt);
    out := out.(earliest := read.earliest, latest := read.latest);
    if after > read.latest {
      return NOTHING, Some(ErrInvalid);
    }
    if after + 1 < read.earliest || (read.event.None? && after < read.latest) {
      return out, Some(ErrGap);
    }
    if read.event.None? {
      return out, None;
    }
    var e := read.event.value;
    if e.sequence != after + 1 {
      return out, Some(ErrGap);
    }
    if e.until.Some? && e.until.value <= x.checkedAt {
      return out, Some(ErrGap);
    }
    if execution.Some? && e.execution != execution.value {
      out := out.(sequence := e.sequence);
      return out, None;
    }
    if !x.eventAccess {
      return NOTHING, Some(ErrNotFound);
    }
    if e.until.Some? && e.until.value <= x.sentAt {
      return out, Some(ErrGap);
    }
    out := out.(sequence := e.sequence);
    if !x.fits {
      return NOTHING, Some(ErrUnavailable);
    }
    out := out.(data := Some(e));
    return out, None;
  }

  function NextAnswer(x: World, execution: Option<Id>, after: nat): (Result, Option<Error>) {
    var read := ReadNext(x.log, after, x.readAt);
    var out := Result(read.earliest, read.latest, 0, None);
    if after > MAX_INT64 then (NOTHING, Some(ErrInvalid))
    else if !x.access then (NOTHING, Some(ErrNotFound))
    else if after > read.latest then (NOTHING, Some(ErrInvalid))
    else if after + 1 < read.earliest || (read.event.None? && after < read.latest) then (out, Some(ErrGap))
    else if read.event.None? then (out, None)
    else
      var e := read.event.value;
      if e.sequence != after + 1 || !Alive(e, x.checkedAt) then (out, Some(ErrGap))
      else if execution.Some? && e.execution != execution.value then (out.(sequence := e.sequence), None)
      else if !x.eventAccess then (NOTHING, Some(ErrNotFound))
      else if !Alive(e, x.sentAt) then (out, Some(ErrGap))
      else if !x.fits then (NOTHING, Some(ErrUnavailable))
      else (out.(sequence := e.sequence, data := Some(e)), None)
  }

  lemma NextExact(x: World, execution: Option<Id>, after: nat, history: seq<Event>)
    requires Snapshot(x.log, history) && Numbered(history) && Granted(x, after)
    ensures var (out, err) := NextAnswer(x, execution, after); Exact(x, execution, after, history, out, err)
  {
    var first, next := First(x.log, 1, x.readAt), First(x.log, after + 1, x.readAt);
    if after < x.log.latest {
      if Retained(x.log, after + 1, x.readAt) {
        assert next == Some(after + 1);
        assert first.Some? && first.value <= after + 1;
      } else if next.Some? {
        assert next.value != after + 1;
      }
    }
  }

  /** Whatever Next answers, a number it gives is the next one, and data is that event's. */
  lemma NextNeverSkips(x: World, execution: Option<Id>, after: nat, history: seq<Event>)
    requires Snapshot(x.log, history) && Numbered(history)
    ensures var (out, err) := NextAnswer(x, execution, after);
            err.None? && out.sequence != 0 ==>
              && out.sequence == after + 1 && after < |history|
              && var own := execution.None? || history[after].execution == execution.value;
              && out.data == if own then Some(history[after]) else None
  {
  }

  // ---------------------------------------------------------------- the stream

  /** The events a subscriber of this Execution, or of the whole Session, should see. */
  function Own(events: seq<Event>, execution: Option<Id>): seq<Event> {
    if events == [] then []
    else
      var last := events[|events| - 1];
      var front := Own(events[..|events| - 1], execution);
      if execution.None? || last.execution == execution.value then front + [last] else front
  }

  lemma {:induction false} OwnOfSession(events: seq<Event>)
    ensures Own(events, None) == events
  {
    if events != [] {
      OwnOfSession(events[..|events| - 1]);
    }
  }

  /** One turn of the loop: whether the context ended, what the read finds, and whether
      writing the frame works. */
  datatype Turn = Turn(world: World, cancelled: bool, writes: bool)

  datatype Ending = Cancelled | WriteFailed | Refused(error: Error) | Exhausted

  /** The stream loop over any turns. What was delivered is exactly the subscriber's own
      events between the start and the cursor, in order and complete; it ends in an
      error only where Next answered one at that cursor. */
  method Stream(turns: seq<Turn>, execution: Option<Id>, start: nat, ghost history: seq<Event>)
    returns (delivered: seq<Event>, after: nat, ending: Ending)
    requires Numbered(history) && forall k | 0 <= k < |turns| :: Snapshot(turns[k].world.log, history)
    ensures start <= after && (after == start || after <= |history|)
    ensures after <= |history| ==> delivered == Own(history[start..after], execution)
    ensures after > |history| ==> delivered == []
    ensures ending.Refused? ==> exists k | 0 <= k < |turns| ::
              NextAnswer(turns[k].world, execution, after).1 == Some(ending.error)
  {
    delivered, after := [], start;
    assert start <= |history| ==> history[start..start] == [];
    var i := 0;
    while i < |turns|
      invariant i <= |turns|
      invariant start <= after && (after == start || after <= |history|)
      invariant after <= |history| ==> delivered == Own(history[start..after], execution)
      invariant after > |history| ==> delivered == []
    {
      var turn := turns[i];
      var result, err := Next(turn.world, execution, after, history);
      if err.Some? {
        return delivered, after, Refused(err.value);
      }
      if turn.cancelled {
        return delivered, after, Cancelled;
      }
      if result.sequence != 0 {
        NextNeverSkips(turn.world, execution, after, history);
        OwnGrows(history, start, after, execution);
        if result.data.Some? {
          if !turn.writes {
            return delivered, after, WriteFailed;
          }
          delivered := delivered + [result.data.value];
        }
        after := result.sequence;
      }
      i := i + 1;
    }
    ending := Exhausted;
  }

  lemma OwnGrows(history: seq<Event>, start: nat, after: nat, execution: Option<Id>)
    requires start <= after < |history|
    ensures Own(history[start..after + 1], execution)
            == if execution.None? || history[after].execution == execution.value
               then Own(history[start..after], execution) + [history[after]]
               else Own(history[start..after], execution)
  {
    var longer := history[start..after + 1];
    assert longer[..|longer| - 1] == history[start..after];
    assert longer[|longer| - 1] == history[after];
  }

  /** A whole-Session stream delivers consecutive numbers. */
  lemma SessionNumbers(history: seq<Event>, start: nat, after: nat, k: nat)
    requires start <= after <= |history| && Numbered(history) && k < after - start
    ensures |Own(history[start..after], None)| == after - start
    ensures Own(history[start..after], None)[k].sequence == start + 1 + k
  {
    OwnOfSession(history[start..after]);
  }

  /** An Execution's stream delivers an event exactly if it is the Execution's own. */
  lemma {:induction false} OwnExact(events: seq<Event>, execution: Id, e: Event)
    ensures e in Own(events, Some(execution)) <==> e in events && e.execution == execution
  {
    if events != [] {
      var front, last := events[..|events| - 1], events[|events| - 1];
      OwnExact(front, execution, e);
      assert events == front + [last];
    }
  }

  /** And in the order of their numbers, each once. */
  lemma {:induction false} OwnIncreasing(
    history: seq<Event>, start: nat, after: nat, execution: Option<Id>, j: nat, k: nat)
    requires start <= after <= |history| && Numbered(history)
    requires j < k < |Own(history[start..after], execution)|
    ensures start < Own(history[start..after], execution)[j].sequence
    ensures Own(history[start..after], execution)[j].sequence
            < Own(history[start..after], execution)[k].sequence <= after
    decreases after, k
  {
    if after > start {
      OwnGrows(history, start, after - 1, execution);
      var before := Own(history[start..after - 1], execution);
      if k < |before| {
        OwnIncreasing(history, start, after - 1, execution, j, k);
      } else {
        OwnWithin(history, start, after - 1, execution, j);
      }
    }
  }

  lemma {:induction false} OwnWithin(history: seq<Event>, start: nat, after: nat, execution: Option<Id>, j: nat)
    requires start <= after <= |history| && Numbered(history) && j < |Own(history[start..after], execution)|
    ensures start < Own(history[start..after], execution)[j].sequence <= after
  {
    if after > start {
      OwnGrows(history, start, after - 1, execution);
      if j < |Own(history[start..after - 1], execution)| {
        OwnWithin(history, start, after - 1, execution, j);
      }
    }
  }
}

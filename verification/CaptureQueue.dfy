/** The bounded output queue (internal/app/agentd/capture.go). Every stretch that holds the
    mutex is one step, so producers, the consumer, failures and finish interleave freely. */
module CaptureQueue {
  import opened Common
  import opened CaptureLines

  datatype Source = Stdout | Stderr | Adapter

  datatype Output = Output(sequence: nat, source: Source, data: Bytes)

  datatype Error = Limit | Backpressure | Redaction | ClosedByConsumer | Broken

  datatype Limits = Limits(events: nat, bytes: nat, event: nat, diagnostic: nat)

  datatype State = State(queue: seq<Output>, bytes: int, sequence: nat, closed: bool, err: Option<Error>)

  const NEW := State([], 0, 0, false, None)

  function Size(queue: seq<Output>): nat {
    if queue == [] then 0 else |queue[0].data| + Size(queue[1..])
  }

  lemma {:induction false} SizeAppend(queue: seq<Output>, out: Output)
    ensures Size(queue + [out]) == Size(queue) + |out.data|
  {
    if queue == [] {
      assert queue + [out] == [out];
    } else {
      assert (queue + [out])[1..] == queue[1..] + [out];
      SizeAppend(queue[1..], out);
    }
  }

  // ---------------------------------------------------------------- steps

  predicate Room(s: State, l: Limits, data: Bytes) {
    |s.queue| < l.events && s.bytes + |data| <= l.bytes
  }

  /** One attempt of emit under the lock; a record without room waits and changes nothing. */
  function OfferStep(s: State, l: Limits, source: Source, data: Bytes): State {
    if s.closed || !Room(s, l, data) then s
    else s.(queue := s.queue + [Output(s.sequence + 1, source, data)],
            bytes := s.bytes + |data|, sequence := s.sequence + 1)
  }

  function TakeStep(s: State): State {
    if s.err.Some? || s.queue == [] then s
    else s.(queue := s.queue[1..], bytes := s.bytes - |s.queue[0].data|)
  }

  function FailStep(s: State, e: Error): State {
    if s.err.Some? then s else s.(queue := [], bytes := 0, closed := true, err := Some(e))
  }

  function FinishStep(s: State): State {
    s.(closed := true)
  }

  datatype Action =
    | Offer(source: Source, data: Bytes)
    | Take
    | Fail(error: Error)
    | Finish

  function Step(s: State, l: Limits, a: Action): State {
    match a
    case Offer(source, data) => OfferStep(s, l, source, data)
    case Take => TakeStep(s)
    case Fail(e) => FailStep(s, e)
    case Finish => FinishStep(s)
  }

  predicate Accepts(s: State, l: Limits, a: Action) {
    a.Offer? && !s.closed && Room(s, l, a.data)
  }

  predicate Delivers(s: State, a: Action) {
    a.Take? && s.err.None? && s.queue != []
  }

  // ---------------------------------------------------------------- runs

  ghost predicate IsRun(states: seq<State>, actions: seq<Action>, l: Limits) {
    && |states| == |actions| + 1
    && states[0] == NEW
    && forall i | 0 <= i < |actions| :: states[i + 1] == Step(states[i], l, actions[i])
  }

  /** The records that producers got into the queue in the first i steps, in order. */
  function Accepted(states: seq<State>, actions: seq<Action>, l: Limits, i: nat): (out: seq<Output>)
    requires |states| == |actions| + 1 && i <= |actions|
  {
    if i == 0 then []
    else
      var before := Accepted(states, actions, l, i - 1);
      if Accepts(states[i - 1], l, actions[i - 1])
      then before + [Output(states[i - 1].sequence + 1, actions[i - 1].source, actions[i - 1].data)]
      else before
  }

  /** What the consumer has been handed in the first i steps, in order. */
  function Delivered(states: seq<State>, actions: seq<Action>, i: nat): seq<Output>
    requires |states| == |actions| + 1 && i <= |actions|
  {
    if i == 0 then []
    else
      var before := Delivered(states, actions, i - 1);
      if Delivers(states[i - 1], actions[i - 1]) then before + [states[i - 1].queue[0]] else before
  }

  ghost predicate Bounded(s: State, l: Limits) {
    && s.bytes == Size(s.queue)
    && |s.queue| <= l.events && s.bytes <= l.bytes
    && (s.err.Some? ==> s.closed && s.queue == [])
    && |s.queue| <= s.sequence
    && forall k | 0 <= k < |s.queue| :: s.queue[k].sequence == s.sequence - |s.queue| + 1 + k
  }

  lemma StepKeepsBounded(s: State, l: Limits, a: Action)
    requires Bounded(s, l)
    ensures Bounded(Step(s, l, a), l)
  {
    if Accepts(s, l, a) {
      SizeAppend(s.queue, Output(s.sequence + 1, a.source, a.data));
    }
  }

  /** In every interleaving the byte count is the sum of the queued records, both budgets
      hold, and queued numbers are consecutive up to the counter. */
  lemma {:induction false} RunBounded(states: seq<State>, actions: seq<Action>, l: Limits, i: nat)
    requires IsRun(states, actions, l) && i < |states|
    ensures Bounded(states[i], l)
  {
    if i > 0 {
      RunBounded(states, actions, l, i - 1);
      StepKeepsBounded(states[i - 1], l, actions[i - 1]);
    }
  }

  lemma {:induction false} AcceptedNumbers(states: seq<State>, actions: seq<Action>, l: Limits, i: nat)
    requires IsRun(states, actions, l) && i < |states|
    ensures |Accepted(states, actions, l, i)| == states[i].sequence
    ensures forall k | 0 <= k < states[i].sequence :: Accepted(states, actions, l, i)[k].sequence == k + 1
  {
    if i > 0 {
      AcceptedNumbers(states, actions, l, i - 1);
    }
  }

  /** Conservation: until a failure, every accepted record is delivered or still queued, in
      the order of acceptance; a failure discards the queue and nothing else. */
  lemma {:induction false} NothingLostOrReordered(states: seq<State>, actions: seq<Action>, l: Limits, i: nat)
    requires IsRun(states, actions, l) && i < |states|
    ensures states[i].err.None? ==>
              Delivered(states, actions, i) + states[i].queue == Accepted(states, actions, l, i)
    ensures Delivered(states, actions, i) <= Accepted(states, actions, l, i)
  {
    if i > 0 {
      NothingLostOrReordered(states, actions, l, i - 1);
      RunBounded(states, actions, l, i - 1);
      var s := states[i - 1];
      var before := Delivered(states, actions, i - 1);
      if Delivers(s, actions[i - 1]) {
        assert before + s.queue == (before + [s.queue[0]]) + s.queue[1..];
      } else if Accepts(s, l, actions[i - 1]) {
        var out := Output(s.sequence + 1, actions[i - 1].source, actions[i - 1].data);
        assert before + (s.queue + [out]) == (before + s.queue) + [out];
      }
    }
  }

  /** The consumer sees 1, 2, 3, ... with no number skipped or repeated. */
  lemma DeliveredInOrder(states: seq<State>, actions: seq<Action>, l: Limits, i: nat, k: nat)
    requires IsRun(states, actions, l) && i < |states| && k < |Delivered(states, actions, i)|
    ensures Delivered(states, actions, i)[k].sequence == k + 1
  {
    NothingLostOrReordered(states, actions, l, i);
    AcceptedNumbers(states, actions, l, i);
  }

  /** After a failure nothing is accepted or delivered any more, and the first error stays. */
  lemma {:induction false} NothingAfterFailure(states: seq<State>, actions: seq<Action>, l: Limits, i: nat, j: nat)
    requires IsRun(states, actions, l) && i <= j < |states| && states[i].err.Some?
    ensures states[j].err == states[i].err
    ensures Delivered(states, actions, j) == Delivered(states, actions, i)
    ensures Accepted(states, actions, l, j) == Accepted(states, actions, l, i)
  {
    if i < j {
      NothingAfterFailure(states, actions, l, i, j - 1);
      RunBounded(states, actions, l, j - 1);
    }
  }

  /** After Finish nothing is accepted any more, and without a failure each Take hands over
      the next of what was accepted before, to the last. */
  lemma {:induction false} FinishDrains(states: seq<State>, actions: seq<Action>, l: Limits, i: nat, j: nat)
    requires IsRun(states, actions, l) && i < j < |states| && actions[i].Finish?
    ensures states[j].closed && Accepted(states, actions, l, j) == Accepted(states, actions, l, i)
    ensures states[j].err.None? ==>
              Delivered(states, actions, j) + states[j].queue == Accepted(states, actions, l, i)
  {
    NothingLostOrReordered(states, actions, l, j);
    if i + 1 < j {
      FinishDrains(states, actions, l, i, j - 1);
    }
  }

  // ---------------------------------------------------------------- the queue itself

  datatype Received = Got(output: Output) | Failed(error: Error) | End | Empty

  class Capture {
    const limits: Limits
    var queue: seq<Output>
    var bytes: int
    var sequence: nat
    var closed: bool
    var err: Option<Error>

    constructor (l: Limits)
      ensures limits == l && View() == NEW
    {
      limits, queue, bytes, sequence, closed, err := l, [], 0, 0, false, None;
    }

    function View(): State
      reads this
    {
      State(queue, bytes, sequence, closed, err)
    }

    method Fail(e: Error)
      modifies this
      ensures View() == FailStep(old(View()), e)
    {
      if err.Some? {
        return;
      }
      err, closed, queue, bytes := Some(e), true, [], 0;
    }

    method Finish() returns (problem: Option<Error>)
      modifies this
      ensures View() == FinishStep(old(View())) && problem == err
    {
      closed := true;
      return err;
    }

    /** One pass of Receive; Empty is where it waits for a change. */
    method Receive() returns (r: Received)
      modifies this
      ensures View() == TakeStep(old(View()))
      ensures r == if old(err).Some? then Failed(old(err).value)
                   else if old(queue) != [] then Got(old(queue)[0])
                   else if old(closed) then End else Empty
    {
      if err.Some? {
        return Failed(err.value);
      }
      if |queue| > 0 {
        var out := queue[0];
        queue := queue[1..];
        bytes := bytes - |out.data|;
        return Got(out);
      }
      if closed {
        return End;
      }
      return Empty;
    }

    /** One attempt of emit under the lock; None is where it waits for a change. */
    method TryAppend(source: Source, data: Bytes) returns (problem: Option<Error>, waits: bool)
      modifies this
      ensures View() == OfferStep(old(View()), limits, source, data)
      ensures waits <==> !old(closed) && !Room(old(View()), limits, data)
      ensures problem.Some? <==> old(closed)
    {
      waits := false;
      if closed {
        return if err.Some? then err else Some(ClosedByConsumer), waits;
      }
      if |queue| < limits.events && bytes + |data| <= limits.bytes {
        sequence := sequence + 1;
        queue := queue + [Output(sequence, source, data)];
        bytes := bytes + |data|;
        return None, waits;
      }
      return None, true;
    }

    /** emit, for a consumer that takes nothing while it waits: the record is queued, or the
        capture fails for one of emit's own reasons, or it was closed already. */
    method Emit(source: Source, raw: Bytes, safe: Option<Bytes>) returns (problem: Option<Error>)
      modifies this
      ensures var max := if source.Adapter? then limits.event else limits.diagnostic;
              var s := old(View());
              View() ==
              if |raw| > max then FailStep(s, Limit)
              else if s.closed then s
              else if safe.None? then FailStep(s, Redaction)
              else if |safe.value| > max || |safe.value| > limits.bytes then FailStep(s, Limit)
              else if Room(s, limits, safe.value) then OfferStep(s, limits, source, safe.value)
              else FailStep(s, Backpressure)
      ensures problem.None? ==> sequence == old(sequence) + 1 && |queue| == old(|queue|) + 1
    {
      var max := limits.diagnostic;
      if source == Adapter {
        max := limits.event;
      }
      if |raw| > max {
        Fail(Limit);
        return Some(Limit);
      }
      if closed {
        return if err.Some? then err else Some(ClosedByConsumer);
      }
      if safe.None? {
        Fail(Redaction);
        return Some(Redaction);
      }
      var data := safe.value;
      if |data| > max || |data| > limits.bytes {
        Fail(Limit);
        return Some(Limit);
      }
      var waits;
      problem, waits := TryAppend(source, data);
      if waits {
        Fail(Backpressure);
        return Some(Backpressure);
      }
    }
  }
}

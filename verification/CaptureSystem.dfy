/** Two line writers, adapter events and one consumer over one bounded queue
    (internal/app/agentd/capture.go), with a sanitizer that passes lines on as they are. Every
    stretch that holds the mutex, and every stretch of bytes taken from a pipe, is one step. */
module CaptureSystem {
  import opened Common
  import opened CaptureLines
  import Q = CaptureQueue
  import W = CaptureWriter

  /** Reads cuts its pipe anywhere; Emits holds a complete line, or the open one at the end. */
  datatype Phase = Reads | Emits(last: bool) | Done | Dead

  datatype Writer = Writer(consumed: Bytes, pending: Bytes, phase: Phase)

  /** accepted and delivered are the records queued and handed out so far. */
  datatype System = System(
    capture: Q.State, stdout: Writer, stderr: Writer, accepted: seq<Q.Output>, delivered: seq<Q.Output>)

  const IDLE := Writer([], [], Reads)

  const NEW := System(Q.NEW, IDLE, IDLE, [], [])

  /** The whole contents of the two pipes, however they will be cut. */
  datatype Pipes = Pipes(stdout: Bytes, stderr: Bytes)

  /** The pipe of a writer; adapter events are no stream of lines. */
  datatype Side = Out | Err

  function Source(side: Side): Q.Source {
    if side.Out? then Q.Stdout else Q.Stderr
  }

  function Pipe(p: Pipes, side: Side): Bytes {
    if side.Out? then p.stdout else p.stderr
  }

  function Of(s: System, side: Side): Writer {
    if side.Out? then s.stdout else s.stderr
  }

  function With(s: System, side: Side, w: Writer): System {
    if side.Out? then s.(stdout := w) else s.(stderr := w)
  }

  // ---------------------------------------------------------------- steps

  datatype Move =
    | Read(side: Side, line: Bytes, end: bool)
    | Attempt(side: Side)
    | Timeout(side: Side)
    | End(side: Side)
    | Event(data: Bytes)
    | Abort(error: Q.Error)
    | Finish
    | Take

  function Stretch(line: Bytes, end: bool): Bytes {
    if end then line + [NEWLINE] else line
  }

  function Fail(s: System, side: Side, e: Q.Error): System {
    With(s.(capture := Q.FailStep(s.capture, e)), side, Of(s, side).(pending := [], phase := Dead))
  }

  /** The next bytes of the pipe, up to a newline or to wherever this Write ends. */
  function ReadStep(s: System, l: Q.Limits, p: Pipes, side: Side, line: Bytes, end: bool): System {
    var w := Of(s, side);
    if !w.phase.Reads? || NEWLINE in line || !(w.consumed + Stretch(line, end) <= Pipe(p, side)) then s
    else if |w.pending| + |line| > l.diagnostic then Fail(s, side, Q.Limit)
    else With(s, side, Writer(w.consumed + Stretch(line, end), w.pending + line, if end then Emits(false) else Reads))
  }

  function Queue(s: System, l: Q.Limits, source: Q.Source, data: Bytes): System {
    s.(capture := Q.OfferStep(s.capture, l, source, data),
       accepted := s.accepted + [Q.Output(s.capture.sequence + 1, source, data)])
  }

  /** The line that a writer holds goes into the queue now. */
  predicate Queues(s: System, l: Q.Limits, side: Side) {
    && Of(s, side).phase.Emits? && !s.capture.closed
    && |Of(s, side).pending| <= l.bytes && Q.Room(s.capture, l, Of(s, side).pending)
  }

  /** One attempt of emit; without room it waits, and changes nothing. */
  function AttemptStep(s: System, l: Q.Limits, side: Side): System {
    var w := Of(s, side);
    if Queues(s, l, side) then
      With(Queue(s, l, Source(side), w.pending), side, w.(pending := [], phase := if w.phase.last then Done else Reads))
    else if !w.phase.Emits? then s
    else if s.capture.closed then With(s, side, w.(pending := [], phase := Dead))
    else if |w.pending| > l.bytes then Fail(s, side, Q.Limit)
    else s
  }

  function EndStep(s: System, p: Pipes, side: Side): System {
    var w := Of(s, side);
    if !w.phase.Reads? || w.consumed != Pipe(p, side) then s
    else With(s, side, w.(phase := if w.pending == [] then Done else Emits(true)))
  }

  function EventStep(s: System, l: Q.Limits, data: Bytes): System {
    if s.capture.closed || !Q.Room(s.capture, l, data) then s else Queue(s, l, Q.Adapter, data)
  }

  function TakeStep(s: System): System {
    if s.capture.err.Some? || s.capture.queue == [] then s
    else s.(capture := Q.TakeStep(s.capture), delivered := s.delivered + [s.capture.queue[0]])
  }

  function Step(s: System, l: Q.Limits, p: Pipes, m: Move): System {
    match m
    case Read(side, line, end) => ReadStep(s, l, p, side, line, end)
    case Attempt(side) => AttemptStep(s, l, side)
    case Timeout(side) => if Of(s, side).phase.Emits? then Fail(s, side, Q.Backpressure) else s
    case End(side) => EndStep(s, p, side)
    case Event(data) => EventStep(s, l, data)
    case Abort(e) => s.(capture := Q.FailStep(s.capture, e))
    case Finish => s.(capture := Q.FinishStep(s.capture))
    case Take => TakeStep(s)
  }

  // ---------------------------------------------------------------- records of one source

  /** The data of one source's records, in order. */
  function Lines(outputs: seq<Q.Output>, source: Q.Source): seq<Bytes> {
    if outputs == [] then []
    else
      var front, last := outputs[..|outputs| - 1], outputs[|outputs| - 1];
      if last.source == source then Lines(front, source) + [last.data] else Lines(front, source)
  }

  lemma LinesAppend(outputs: seq<Q.Output>, out: Q.Output, source: Q.Source)
    ensures Lines(outputs + [out], source)
            == if out.source == source then Lines(outputs, source) + [out.data] else Lines(outputs, source)
  {
    assert (outputs + [out])[..|outputs|] == outputs;
  }

  lemma {:induction false} LinesPrefix(a: seq<Q.Output>, b: seq<Q.Output>, source: Q.Source)
    requires a <= b
    ensures Lines(a, source) <= Lines(b, source)
  {
    if a != b {
      var front := b[..|b| - 1];
      assert a <= front;
      LinesPrefix(a, front, source);
    } else {
      assert a == b;
    }
  }

  // ---------------------------------------------------------------- invariant

  ghost predicate Cut(pieces: seq<Bytes>, s: Bytes, max: nat) {
    Split(s) == pieces && !Overlong(pieces, max)
  }

  /** Where a writer stands in its pipe, given the lines it has got into the queue. */
  ghost predicate WriterSound(w: Writer, pipe: Bytes, max: nat, lines: seq<Bytes>) {
    && lines <= Records(pipe, max)
    && match w.phase
       case Reads => w.consumed <= pipe && Cut(lines + [w.pending], w.consumed, max)
       case Emits(last) =>
         if last then w.consumed == pipe && w.pending != [] && Cut(lines + [w.pending], pipe, max)
         else w.consumed <= pipe && Cut(lines + [w.pending, []], w.consumed, max)
       case Done => lines == Records(pipe, max) && !Overlong(Split(pipe), max)
       case Dead => true
  }

  ghost predicate Conserved(s: System) {
    && s.delivered <= s.accepted
    && (s.capture.err.None? ==> s.delivered + s.capture.queue == s.accepted)
  }

  ghost predicate SideSound(s: System, l: Q.Limits, p: Pipes, side: Side) {
    WriterSound(Of(s, side), Pipe(p, side), l.diagnostic, Lines(s.accepted, Source(side)))
  }

  ghost predicate Sound(s: System, l: Q.Limits, p: Pipes) {
    && Q.Bounded(s.capture, l)
    && Conserved(s)
    && SideSound(s, l, p, Out) && SideSound(s, l, p, Err)
  }

  // ---------------------------------------------------------------- lines and records

  /** Complete lines of a part of the pipe are records of the whole. */
  lemma CompleteLinesAreRecords(lines: seq<Bytes>, open: Bytes, consumed: Bytes, pipe: Bytes, max: nat)
    requires consumed <= pipe && Cut(lines + [open], consumed, max)
    ensures lines <= Records(pipe, max)
  {
    var rest := pipe[|consumed|..];
    assert consumed + rest == pipe;
    SplitConcat(consumed, rest);
    var n := |lines|;
    W.PrefixOfMerge(lines + [open], Split(rest), n);
    assert (lines + [open])[..n] == lines;
    assert !Overlong(lines, max) by {
      assert forall k | 0 <= k < |lines| :: lines[k] == (lines + [open])[k];
    }
    W.WithinRecords(lines, pipe, max);
  }

  lemma WholePipe(lines: seq<Bytes>, open: Bytes, pipe: Bytes, max: nat)
    requires Cut(lines + [open], pipe, max)
    ensures Records(pipe, max) == if open == [] then lines else lines + [open]
  {
    assert Last(lines + [open]) == open && Front(lines + [open]) == lines;
  }

  lemma ReadMore(lines: seq<Bytes>, pending: Bytes, consumed: Bytes, line: Bytes, max: nat)
    requires Cut(lines + [pending], consumed, max) && NEWLINE !in line && |pending| + |line| <= max
    ensures Cut(lines + [pending + line], consumed + line, max)
    ensures Cut(lines + [pending + line, []], consumed + line + [NEWLINE], max)
  {
    SplitAppend(consumed, line);
    assert Front(lines + [pending]) == lines && Last(lines + [pending]) == pending;
    SplitNewline(consumed + line);
    assert lines + [pending + line] + [[]] == lines + [pending + line, []];
    var pieces := lines + [pending + line, []];
    forall k | 0 <= k < |pieces| ensures |pieces[k]| <= max {
      assert k < |lines| ==> pieces[k] == (lines + [pending])[k];
    }
    assert forall k | 0 <= k < |lines| + 1 :: (lines + [pending + line])[k] == pieces[k];
  }

  // ---------------------------------------------------------------- preservation

  lemma ReadKeepsSide(s: System, l: Q.Limits, p: Pipes, side: Side, line: Bytes, end: bool)
    requires SideSound(s, l, p, side)
    ensures SideSound(ReadStep(s, l, p, side, line, end), l, p, side)
  {
    var w, t := Of(s, side), ReadStep(s, l, p, side, line, end);
    if t != s && |w.pending| + |line| <= l.diagnostic {
      var lines := Lines(s.accepted, Source(side));
      ReadMore(lines, w.pending, w.consumed, line, l.diagnostic);
      assert w.consumed + (line + [NEWLINE]) == w.consumed + line + [NEWLINE];
    }
  }

  lemma EndKeepsSide(s: System, l: Q.Limits, p: Pipes, side: Side)
    requires SideSound(s, l, p, side)
    ensures SideSound(EndStep(s, p, side), l, p, side)
  {
    var w := Of(s, side);
    if w.phase.Reads? && w.consumed == Pipe(p, side) {
      WholePipe(Lines(s.accepted, Source(side)), w.pending, w.consumed, l.diagnostic);
    }
  }

  /** A line that the queue takes is the writer's next record. */
  lemma QueuedLine(w: Writer, pipe: Bytes, max: nat, lines: seq<Bytes>)
    requires WriterSound(w, pipe, max, lines) && w.phase.Emits?
    ensures WriterSound(
      w.(pending := [], phase := if w.phase.last then Done else Reads), pipe, max, lines + [w.pending])
  {
    if w.phase.last {
      WholePipe(lines, w.pending, pipe, max);
    } else {
      assert (lines + [w.pending]) + [[]] == lines + [w.pending, []];
      CompleteLinesAreRecords(lines + [w.pending], [], w.consumed, pipe, max);
    }
  }

  lemma AttemptKeepsSide(s: System, l: Q.Limits, p: Pipes, side: Side)
    requires SideSound(s, l, p, side)
    ensures SideSound(AttemptStep(s, l, side), l, p, side)
  {
    var w := Of(s, side);
    var out := Q.Output(s.capture.sequence + 1, Source(side), w.pending);
    LinesAppend(s.accepted, out, Source(side));
    if w.phase.Emits? {
      QueuedLine(w, Pipe(p, side), l.diagnostic, Lines(s.accepted, Source(side)));
    }
  }

  /** A step on one side leaves the other side's writer and lines alone. */
  lemma OtherSide(s: System, t: System, l: Q.Limits, p: Pipes, side: Side, out: Option<Q.Output>)
    requires SideSound(s, l, p, side) && Of(t, side) == Of(s, side)
    requires out.None? ==> t.accepted == s.accepted
    requires out.Some? ==> t.accepted == s.accepted + [out.value] && out.value.source != Source(side)
    ensures SideSound(t, l, p, side)
  {
    if out.Some? {
      LinesAppend(s.accepted, out.value, Source(side));
    }
  }

  /** Queueing keeps the books: accepted is still delivered followed by queued. */
  lemma QueueKeepsBooks(s: System, l: Q.Limits, source: Q.Source, data: Bytes)
    requires Q.Bounded(s.capture, l) && Conserved(s) && !s.capture.closed && Q.Room(s.capture, l, data)
    ensures Q.Bounded(Queue(s, l, source, data).capture, l) && Conserved(Queue(s, l, source, data))
  {
    Q.StepKeepsBounded(s.capture, l, Q.Offer(source, data));
    var out := Q.Output(s.capture.sequence + 1, source, data);
    assert s.delivered + (s.capture.queue + [out]) == (s.delivered + s.capture.queue) + [out];
  }

  ghost predicate Books(s: System, l: Q.Limits) {
    Q.Bounded(s.capture, l) && Conserved(s)
  }

  lemma AttemptKeepsBooks(s: System, l: Q.Limits, side: Side)
    requires Books(s, l)
    ensures Books(AttemptStep(s, l, side), l)
  {
    if Queues(s, l, side) {
      QueueKeepsBooks(s, l, Source(side), Of(s, side).pending);
    }
  }

  lemma TakeKeepsBooks(s: System, l: Q.Limits)
    requires Books(s, l)
    ensures Books(TakeStep(s), l)
  {
    Q.StepKeepsBounded(s.capture, l, Q.Take);
    var q := s.capture.queue;
    if s.capture.err.None? && q != [] {
      assert s.delivered + q == (s.delivered + [q[0]]) + q[1..];
    }
  }

  lemma StepKeepsBooks(s: System, l: Q.Limits, p: Pipes, m: Move)
    requires Books(s, l)
    ensures Books(Step(s, l, p, m), l)
  {
    match m
    case Attempt(side) => AttemptKeepsBooks(s, l, side);
    case Event(data) =>
      if !s.capture.closed && Q.Room(s.capture, l, data) {
        QueueKeepsBooks(s, l, Q.Adapter, data);
      }
    case Take => TakeKeepsBooks(s, l);
    case _ =>
  }

  function Other(side: Side): Side {
    if side.Out? then Err else Out
  }

  lemma ReadKeepsSides(s: System, l: Q.Limits, p: Pipes, side: Side, line: Bytes, end: bool)
    requires SideSound(s, l, p, Out) && SideSound(s, l, p, Err)
    ensures var t := ReadStep(s, l, p, side, line, end); SideSound(t, l, p, Out) && SideSound(t, l, p, Err)
  {
    ReadKeepsSide(s, l, p, side, line, end);
    OtherSide(s, ReadStep(s, l, p, side, line, end), l, p, Other(side), None);
  }

  lemma AttemptElsewhere(s: System, l: Q.Limits, side: Side)
    ensures var t := AttemptStep(s, l, side);
            && Of(t, Other(side)) == Of(s, Other(side))
            && t.accepted == if Queues(s, l, side)
                             then s.accepted + [Q.Output(s.capture.sequence + 1, Source(side), Of(s, side).pending)]
                             else s.accepted
  {
  }

  lemma AttemptKeepsSides(s: System, l: Q.Limits, p: Pipes, side: Side)
    requires SideSound(s, l, p, Out) && SideSound(s, l, p, Err)
    ensures var t := AttemptStep(s, l, side); SideSound(t, l, p, Out) && SideSound(t, l, p, Err)
  {
    AttemptKeepsSide(s, l, p, side);
    AttemptElsewhere(s, l, side);
    var out := Q.Output(s.capture.sequence + 1, Source(side), Of(s, side).pending);
    OtherSide(s, AttemptStep(s, l, side), l, p, Other(side), if Queues(s, l, side) then Some(out) else None);
  }

  lemma EventKeepsSide(s: System, l: Q.Limits, p: Pipes, data: Bytes, side: Side)
    requires SideSound(s, l, p, side)
    ensures SideSound(EventStep(s, l, data), l, p, side)
  {
    var out := Q.Output(s.capture.sequence + 1, Q.Adapter, data);
    var queued := !s.capture.closed && Q.Room(s.capture, l, data);
    OtherSide(s, EventStep(s, l, data), l, p, side, if queued then Some(out) else None);
  }

  lemma StepKeepsSides(s: System, l: Q.Limits, p: Pipes, m: Move)
    requires SideSound(s, l, p, Out) && SideSound(s, l, p, Err)
    ensures SideSound(Step(s, l, p, m), l, p, Out) && SideSound(Step(s, l, p, m), l, p, Err)
  {
    var t := Step(s, l, p, m);
    match m
    case Read(side, line, end) => ReadKeepsSides(s, l, p, side, line, end);
    case Attempt(side) => AttemptKeepsSides(s, l, p, side);
    case End(side) =>
      EndKeepsSide(s, l, p, side);
      OtherSide(s, t, l, p, Other(side), None);
    case Event(data) =>
      EventKeepsSide(s, l, p, data, Out);
      EventKeepsSide(s, l, p, data, Err);
    case _ =>
  }

  // ---------------------------------------------------------------- runs

  ghost predicate IsRun(states: seq<System>, moves: seq<Move>, l: Q.Limits, p: Pipes) {
    && |states| == |moves| + 1
    && states[0] == NEW
    && forall i | 0 <= i < |moves| :: states[i + 1] == Step(states[i], l, p, moves[i])
  }

  lemma {:induction false} RunSound(states: seq<System>, moves: seq<Move>, l: Q.Limits, p: Pipes, i: nat)
    requires IsRun(states, moves, l, p) && i < |states|
    ensures Sound(states[i], l, p)
  {
    if i == 0 {
      StartSound(l, p, Out);
      StartSound(l, p, Err);
    } else {
      RunSound(states, moves, l, p, i - 1);
      StepKeepsBooks(states[i - 1], l, p, moves[i - 1]);
      StepKeepsSides(states[i - 1], l, p, moves[i - 1]);
    }
  }

  lemma StartSound(l: Q.Limits, p: Pipes, side: Side)
    ensures SideSound(NEW, l, p, side)
  {
    assert [] + [[]] == Split([]);
    assert Cut([] + [[]], [], l.diagnostic);
  }

  /** In every interleaving of both writers, adapter events, the consumer, failures and finish,
      what the consumer has been handed from one source is a prefix of that pipe's own lines. */
  lemma DeliveredLines(states: seq<System>, moves: seq<Move>, l: Q.Limits, p: Pipes, i: nat, side: Side)
    requires IsRun(states, moves, l, p) && i < |states|
    ensures Lines(states[i].delivered, Source(side)) <= Records(Pipe(p, side), l.diagnostic)
  {
    RunSound(states, moves, l, p, i);
    LinesPrefix(states[i].delivered, states[i].accepted, Source(side));
  }

  /** Once a writer is done, nothing has failed and the queue is drained, the consumer has
      every line of its pipe, and none of them was over the bound. */
  lemma AllLinesDelivered(states: seq<System>, moves: seq<Move>, l: Q.Limits, p: Pipes, i: nat, side: Side)
    requires IsRun(states, moves, l, p) && i < |states|
    requires Of(states[i], side).phase.Done? && states[i].capture.err.None? && states[i].capture.queue == []
    ensures Lines(states[i].delivered, Source(side)) == Records(Pipe(p, side), l.diagnostic)
    ensures !Overlong(Split(Pipe(p, side)), l.diagnostic)
  {
    RunSound(states, moves, l, p, i);
    assert states[i].delivered + [] == states[i].delivered;
  }

  /** A pipe with a line over the bound never ends well, whatever the other source does. */
  lemma OverlongNeverDone(states: seq<System>, moves: seq<Move>, l: Q.Limits, p: Pipes, i: nat, side: Side)
    requires IsRun(states, moves, l, p) && i < |states| && Overlong(Split(Pipe(p, side)), l.diagnostic)
    ensures !Of(states[i], side).phase.Done?
  {
    RunSound(states, moves, l, p, i);
  }
}

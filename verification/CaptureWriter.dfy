/** captureWriter (internal/app/agentd/capture.go): the writer that cuts arbitrary Write
    calls back into lines, whatever the cuts. */
module CaptureWriter {
  import opened CaptureLines

  /** Where finished lines go. Whether the n-th one is taken is the queue's business; the
      first refusal is final. */
  class Sink {
    var records: seq<Bytes>
    var refused: bool
    const accepts: nat -> bool

    constructor (verdicts: nat -> bool)
      ensures records == [] && !refused && accepts == verdicts
    {
      records, refused, accepts := [], false, verdicts;
    }

    method Emit(line: Bytes) returns (ok: bool)
      modifies this
      ensures ok <==> !old(refused) && accepts(old(|records|))
      ensures records == if ok then old(records) + [line] else old(records)
      ensures refused == !ok
    {
      ok := !refused && accepts(|records|);
      if ok {
        records := records + [line];
      }
      refused := !ok;
    }
  }

  datatype Status = Written | TooLong | Turned

  /** The records are the first of the stream's own lines, and the sink took each of them. */
  ghost predicate Prefix(records: seq<Bytes>, lines: seq<Bytes>, accepts: nat -> bool) {
    && |records| <= |lines| && records == lines[..|records|]
    && forall k | 0 <= k < |records| :: accepts(k)
  }

  /** All complete lines so far are recorded, each was taken, and the open one is pending. */
  ghost predicate UpToDate(records: seq<Bytes>, pending: Bytes, stream: Bytes, max: nat, accepts: nat -> bool) {
    && Split(stream) == records + [pending]
    && !Overlong(Split(stream), max)
    && forall k | 0 <= k < |records| :: accepts(k)
  }

  lemma MoreOpen(records: seq<Bytes>, pending: Bytes, stream: Bytes, max: nat, accepts: nat -> bool, line: Bytes)
    requires UpToDate(records, pending, stream, max, accepts) && NEWLINE !in line && |pending| + |line| <= max
    ensures UpToDate(records, pending + line, stream + line, max, accepts)
  {
    SplitAppend(stream, line);
    assert forall k | 0 <= k < |records| :: records[k] == Split(stream)[k];
  }

  lemma LineDone(records: seq<Bytes>, pending: Bytes, stream: Bytes, max: nat, accepts: nat -> bool)
    requires UpToDate(records, pending, stream, max, accepts)
    ensures accepts(|records|) ==> UpToDate(records + [pending], [], stream + [NEWLINE], max, accepts)
  {
    SplitNewline(stream);
  }

  lemma Recut(before: Bytes, raw: Bytes, n: nat)
    requires n <= |raw|
    ensures before + raw[..n] + raw[n..] == before + raw
  {
  }

  lemma RecutLine(before: Bytes, raw: Bytes, n: nat)
    requires n < |raw| && raw[n] == NEWLINE
    ensures before + raw[..n] + [NEWLINE] + raw[n + 1..] == before + raw
    ensures raw[n..][1..] == raw[n + 1..]
  {
  }

  class Writer {
    const sink: Sink
    const max: nat
    var pending: Bytes
    ghost var stream: Bytes

    constructor (target: Sink, bound: nat)
      requires target.records == [] && !target.refused
      ensures Valid() && sink == target && max == bound && stream == []
    {
      sink, max, pending, stream := target, bound, [], [];
    }

    ghost predicate Valid()
      reads this, sink
    {
      !sink.refused && UpToDate(sink.records, pending, stream, max, sink.accepts)
    }

    method IndexByte(raw: Bytes) returns (n: nat, found: bool)
      ensures n <= |raw| && NEWLINE !in raw[..n]
      ensures found <==> n < |raw|
      ensures found ==> raw[n] == NEWLINE
    {
      n := 0;
      while n < |raw|
        invariant n <= |raw| && NEWLINE !in raw[..n]
      {
        if raw[n] == NEWLINE {
          return n, true;
        }
        n := n + 1;
      }
      return n, false;
    }

    /** One turn of the loop: a stretch without newline, and whether a newline ends it. */
    method Take(line: Bytes, end: bool) returns (status: Status)
      requires Valid() && NEWLINE !in line
      modifies this, sink
      ensures status.Written? ==> Valid() && stream == old(stream) + line + (if end then [NEWLINE] else [])
      ensures status.TooLong? <==> |old(pending)| + |line| > max
      ensures status.Turned? ==> end && !sink.accepts(|sink.records|)
      ensures !status.Written? ==> sink.records == old(sink.records) && pending == []
    {
      if |pending| + |line| > max {
        pending := [];
        return TooLong;
      }
      MoreOpen(sink.records, pending, stream, max, sink.accepts, line);
      pending := pending + line;
      stream := stream + line;
      if end {
        LineDone(sink.records, pending, stream, max, sink.accepts);
        var ok := sink.Emit(pending);
        pending := [];
        if !ok {
          return Turned;
        }
        stream := stream + [NEWLINE];
      }
      return Written;
    }

    /** One Write. On success the writer is up to date with the longer stream; otherwise the
        stream has a line over the bound, or the sink turned a line away. */
    method Write(chunk: Bytes) returns (status: Status)
      requires Valid()
      modifies this, sink
      ensures status.Written? ==> Valid() && stream == old(stream) + chunk
      ensures status.TooLong? ==>
                && Overlong(Split(old(stream) + chunk), max) && sink.records == Records(old(stream) + chunk, max)
                && Prefix(sink.records, sink.records, sink.accepts)
      ensures status.Turned? ==> TurnedAway(sink.records, old(stream) + chunk, max, sink.accepts)
      ensures !status.Written? ==> pending == []
    {
      var raw := chunk;
      while raw != []
        invariant Valid() && stream + raw == old(stream) + chunk
        decreases |raw|
      {
        var n, end := IndexByte(raw);
        ghost var before, open := stream, pending;
        status := Take(raw[..n], end);
        if status.TooLong? {
          Recut(before, raw, n);
          LineTooLong(before, raw[..n], raw[n..], max, sink.records, open, sink.accepts);
          return;
        }
        if status.Turned? {
          RecutLine(before, raw, n);
          LineTurned(before, raw[..n], raw[n + 1..], max, sink.records, open, sink.accepts);
          return;
        }
        if end {
          RecutLine(before, raw, n);
        } else {
          Recut(before, raw, n);
        }
        raw := raw[n..];
        if end {
          raw := raw[1..];
        }
      }
      return Written;
    }

    method Finish() returns (status: Status)
      requires Valid()
      modifies this, sink
      ensures Prefix(sink.records, Records(stream, max), sink.accepts) && stream == old(stream)
      ensures status.Written? ==> sink.records == Records(stream, max)
      ensures !status.Written? ==> |sink.records| < |Records(stream, max)| && !sink.accepts(|sink.records|)
      ensures !status.TooLong?
    {
      status := Written;
      if pending != [] {
        var ok := sink.Emit(pending);
        if !ok {
          status := Turned;
        }
      }
      pending := [];
    }
  }

  lemma LineTooLong(
    stream: Bytes, line: Bytes, rest: Bytes, max: nat, records: seq<Bytes>, open: Bytes, accepts: nat -> bool)
    requires UpToDate(records, open, stream, max, accepts) && NEWLINE !in line && |open| + |line| > max
    ensures Overlong(Split(stream + line + rest), max)
    ensures Records(stream + line + rest, max) == records
  {
    SplitAppend(stream, line);
    var now := Split(stream + line);
    assert now == records + [open + line] && |now[|now| - 1]| > max;
    assert forall k | 0 <= k < |records| :: records[k] == Split(stream)[k];
    FittingPrefix(records, [open + line], max);
    OverlongStays(stream + line, rest, max);
  }

  /** The sink turned away a complete line that was within the bound, and took all before it. */
  ghost predicate TurnedAway(records: seq<Bytes>, s: Bytes, max: nat, accepts: nat -> bool) {
    && Prefix(records, Front(Split(s)), accepts)
    && |records| < |Front(Split(s))| && |records| < |Fitting(Split(s), max)|
    && !accepts(|records|)
  }

  lemma LineTurned(
    stream: Bytes, line: Bytes, rest: Bytes, max: nat, records: seq<Bytes>, open: Bytes, accepts: nat -> bool)
    requires UpToDate(records, open, stream, max, accepts) && NEWLINE !in line
    requires |open| + |line| <= max && !accepts(|records|)
    ensures TurnedAway(records, stream + line + [NEWLINE] + rest, max, accepts)
  {
    MoreOpen(records, open, stream, max, accepts, line);
    LineStays(stream + line, rest);
    FittingKeeps(Split(stream + line), Split(stream + line + [NEWLINE] + rest), max);
  }

  /** A complete line is a piece of every longer stream. */
  lemma LineStays(stream: Bytes, rest: Bytes)
    ensures Split(stream) < Split(stream + [NEWLINE] + rest)
    ensures Split(stream) <= Front(Split(stream + [NEWLINE] + rest))
  {
    SplitNewline(stream);
    SplitConcat(stream + [NEWLINE], rest);
    var upto := Split(stream + [NEWLINE]);
    assert Front(upto) == Split(stream);
    assert Merge(upto, Split(rest))[..|upto| - 1] == Front(upto);
  }

  lemma FittingKeeps(pieces: seq<Bytes>, all: seq<Bytes>, max: nat)
    requires pieces <= all && !Overlong(pieces, max)
    ensures |pieces| <= |Fitting(all, max)|
  {
    assert all[..|pieces|] == pieces;
  }

  /** A line that was turned away is still one of the lines of the whole stream. */
  lemma TurnedStays(records: seq<Bytes>, s: Bytes, rest: Bytes, max: nat, accepts: nat -> bool)
    requires TurnedAway(records, s, max, accepts)
    ensures Prefix(records, Records(s + rest, max), accepts) && |records| < |Records(s + rest, max)|
  {
    SplitConcat(s, rest);
    PrefixOfMerge(Split(s), Split(rest), |records| + 1);
    var taken := Split(s)[..|records| + 1];
    assert taken == Fitting(Split(s), max)[..|records| + 1];
    WithinRecords(taken, s + rest, max);
    assert records == taken[..|records|];
  }

  lemma PrefixOfMerge(a: seq<Bytes>, b: seq<Bytes>, n: nat)
    requires |a| > 0 && |b| > 0 && n < |a|
    ensures a[..n] <= Merge(a, b) && n < |Merge(a, b)|
  {
    assert Front(a)[..n] == a[..n];
  }

  /** Complete lines within the bound are records. */
  lemma WithinRecords(taken: seq<Bytes>, s: Bytes, max: nat)
    requires taken <= Split(s) && |taken| < |Split(s)| && !Overlong(taken, max)
    ensures taken <= Records(s, max)
  {
    FittingKeeps(taken, Split(s), max);
  }

  /** What a capture of a stream ends in, and what it records: the longest prefix of the
      stream's lines that the sink takes, up to a line over the bound. */
  ghost predicate Captured(s: Bytes, max: nat, records: seq<Bytes>, accepts: nat -> bool, status: Status) {
    var lines := Records(s, max);
    && Prefix(records, lines, accepts)
    && (|records| < |lines| ==> !accepts(|records|))
    && (status.Turned? <==> |records| < |lines|)
    && (status.TooLong? <==> records == lines && Overlong(Split(s), max))
  }

  /** Any number of Writes, then finish. Nothing in the outcome depends on the cuts. */
  method WriteAll(chunks: seq<Bytes>, sink: Sink, max: nat) returns (status: Status)
    requires sink.records == [] && !sink.refused
    modifies sink
    ensures Captured(Concat(chunks), max, sink.records, sink.accepts, status)
  {
    var writer := new Writer(sink, max);
    var n := 0;
    while n < |chunks|
      invariant n <= |chunks| && writer.sink == sink && writer.max == max && fresh(writer)
      invariant writer.Valid() && writer.stream == Concat(chunks[..n])
    {
      ConcatSnoc(chunks, n);
      ConcatSplit(chunks, n + 1);
      status := writer.Write(chunks[n]);
      if status.TooLong? {
        OverlongStays(Concat(chunks[..n + 1]), Concat(chunks[n + 1..]), max);
        return;
      }
      if status.Turned? {
        TurnedStays(sink.records, Concat(chunks[..n + 1]), Concat(chunks[n + 1..]), max, sink.accepts);
        return;
      }
      n := n + 1;
    }
    assert chunks[..n] == chunks;
    status := writer.Finish();
  }

  /** The same stream cut in two ways gives the same records and the same verdict. */
  lemma CutsDoNotMatter(
    a: seq<Bytes>, b: seq<Bytes>, max: nat, accepts: nat -> bool,
    records: seq<Bytes>, records': seq<Bytes>, status: Status, status': Status)
    requires Concat(a) == Concat(b)
    requires Captured(Concat(a), max, records, accepts, status)
    requires Captured(Concat(b), max, records', accepts, status')
    ensures records == records' && status == status'
  {
    assert |records| >= |records'| && |records'| >= |records|;
  }

  /** With every line taken, the records are the whole stream's lines without an empty last
      one, and the only failure is a line over the bound. */
  lemma AllTaken(s: Bytes, max: nat, records: seq<Bytes>, accepts: nat -> bool, status: Status)
    requires Captured(s, max, records, accepts, status) && forall n :: accepts(n)
    ensures records == Records(s, max)
    ensures status == if Overlong(Split(s), max) then TooLong else Written
  {
  }
}

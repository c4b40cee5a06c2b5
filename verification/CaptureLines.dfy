/** The reference for output capture: a byte stream split at newlines. */
module CaptureLines {
  import opened Common

  type Bytes = seq<Byte>

  const NEWLINE: Byte := 10

  /** The pieces between newlines; there is always one more piece than there are newlines. */
  function Split(s: Bytes): (pieces: seq<Bytes>)
    ensures |pieces| > 0
  {
    if s == [] then [[]]
    else
      var rest := Split(s[1..]);
      if s[0] == NEWLINE then [[]] + rest else [[s[0]] + rest[0]] + rest[1..]
  }

  function Front(pieces: seq<Bytes>): seq<Bytes>
    requires |pieces| > 0
  {
    pieces[..|pieces| - 1]
  }

  function Last(pieces: seq<Bytes>): Bytes
    requires |pieces| > 0
  {
    pieces[|pieces| - 1]
  }

  /** Putting the newlines back gives the stream: nothing is lost, moved or invented. */
  function Join(pieces: seq<Bytes>): Bytes
    requires |pieces| > 0
  {
    if |pieces| == 1 then pieces[0] else pieces[0] + [NEWLINE] + Join(pieces[1..])
  }

  lemma {:induction false} SplitJoins(s: Bytes)
    ensures Join(Split(s)) == s
    ensures forall k | 0 <= k < |Split(s)| :: NEWLINE !in Split(s)[k]
  {
    if s != [] {
      SplitJoins(s[1..]);
      var rest := Split(s[1..]);
      if s[0] == NEWLINE {
        assert Split(s)[1..] == rest;
      } else {
        assert Split(s)[1..] == rest[1..];
        assert Join(Split(s)) == [s[0]] + Join(rest);
      }
      assert s == [s[0]] + s[1..];
    }
  }

  /** And only one list of newline-free pieces does so. */
  lemma {:induction false} JoinSplits(pieces: seq<Bytes>)
    requires |pieces| > 0 && forall k | 0 <= k < |pieces| :: NEWLINE !in pieces[k]
    ensures Split(Join(pieces)) == pieces
    decreases |pieces|
  {
    SplitPlain(pieces[0]);
    if |pieces| == 1 {
      assert pieces == [pieces[0]];
    } else {
      JoinSplits(pieces[1..]);
      SplitNewline(pieces[0]);
      SplitConcat(pieces[0] + [NEWLINE], Join(pieces[1..]));
      assert Front([pieces[0], []]) == [pieces[0]] && [] + pieces[1..][0] == pieces[1];
      assert pieces == [pieces[0]] + [pieces[1]] + pieces[1..][1..];
    }
  }

  function Prepend(b: Byte, pieces: seq<Bytes>): seq<Bytes>
    requires |pieces| > 0
  {
    [[b] + pieces[0]] + pieces[1..]
  }

  /** Only the open last piece of a meets the first piece of b. */
  function Merge(a: seq<Bytes>, b: seq<Bytes>): seq<Bytes>
    requires |a| > 0 && |b| > 0
  {
    Front(a) + [Last(a) + b[0]] + b[1..]
  }

  lemma MergePrepend(c: Byte, a: seq<Bytes>, b: seq<Bytes>)
    requires |a| > 0 && |b| > 0
    ensures Merge(Prepend(c, a), b) == Prepend(c, Merge(a, b))
  {
    if |a| == 1 {
      assert ([c] + a[0]) + b[0] == [c] + (a[0] + b[0]);
      assert Merge(Prepend(c, a), b) == [([c] + a[0]) + b[0]] + b[1..];
      assert Merge(a, b) == [a[0] + b[0]] + b[1..];
    } else {
      assert Front(Prepend(c, a)) == [[c] + a[0]] + a[1..|a| - 1];
      assert Front(a) == [a[0]] + a[1..|a| - 1];
      assert Last(Prepend(c, a)) == Last(a);
    }
  }

  lemma MergeEmpty(a: seq<Bytes>, b: seq<Bytes>)
    requires |a| > 0 && |b| > 0
    ensures Merge([[]] + a, b) == [[]] + Merge(a, b)
  {
    assert Front([[]] + a) == [[]] + Front(a);
  }

  /** Splitting goes on where it left off. */
  lemma {:induction false} SplitConcat(s: Bytes, t: Bytes)
    ensures Split(s + t) == Merge(Split(s), Split(t))
  {
    if s == [] {
      assert s + t == t;
      assert [] + Split(t)[0] == Split(t)[0];
      assert Split(t) == [Split(t)[0]] + Split(t)[1..];
    } else {
      SplitConcat(s[1..], t);
      assert (s + t)[1..] == s[1..] + t;
      if s[0] == NEWLINE {
        MergeEmpty(Split(s[1..]), Split(t));
      } else {
        MergePrepend(s[0], Split(s[1..]), Split(t));
      }
    }
  }

  lemma {:induction false} SplitPlain(t: Bytes)
    requires NEWLINE !in t
    ensures Split(t) == [t]
  {
    if t != [] {
      assert t[1..] <= t[1..] && forall b | b in t[1..] :: b in t;
      SplitPlain(t[1..]);
      assert [t[0]] + t[1..] == t;
    }
  }

  lemma SplitAppend(s: Bytes, t: Bytes)
    requires NEWLINE !in t
    ensures Split(s + t) == Front(Split(s)) + [Last(Split(s)) + t]
  {
    SplitPlain(t);
    SplitConcat(s, t);
  }

  lemma SplitNewline(s: Bytes)
    ensures Split(s + [NEWLINE]) == Split(s) + [[]]
  {
    SplitConcat(s, [NEWLINE]);
    assert Split([NEWLINE]) == [[], []];
    assert Last(Split(s)) + [] == Last(Split(s));
  }

  // ---------------------------------------------------------------- what is recorded

  predicate Overlong(pieces: seq<Bytes>, max: nat) {
    exists k | 0 <= k < |pieces| :: |pieces[k]| > max
  }

  /** The pieces before the first that is too long. */
  function Fitting(pieces: seq<Bytes>, max: nat): (fit: seq<Bytes>)
    ensures |fit| <= |pieces| && fit == pieces[..|fit|]
    ensures forall k | 0 <= k < |fit| :: |fit[k]| <= max
    ensures |fit| < |pieces| ==> |pieces[|fit|]| > max
    ensures |fit| == |pieces| <==> !Overlong(pieces, max)
  {
    if pieces == [] || |pieces[0]| > max then [] else [pieces[0]] + Fitting(pieces[1..], max)
  }

  /** Every piece as one record, except an empty last one; up to the first too long piece. */
  function Records(s: Bytes, max: nat): seq<Bytes> {
    var pieces := Split(s);
    if Overlong(pieces, max) then Fitting(pieces, max)
    else if Last(pieces) == [] then Front(pieces)
    else pieces
  }

  lemma {:induction false} FittingPrefix(a: seq<Bytes>, b: seq<Bytes>, max: nat)
    requires forall k | 0 <= k < |a| :: |a[k]| <= max
    requires |b| > 0 && |b[0]| > max
    ensures Fitting(a + b, max) == a
  {
    if a == [] {
      assert a + b == b;
    } else {
      assert (a + b)[1..] == a[1..] + b;
      FittingPrefix(a[1..], b, max);
    }
  }

  /** A stream that goes on after a too long piece records what it did at that point. */
  lemma OverlongStays(s: Bytes, t: Bytes, max: nat)
    requires Overlong(Split(s), max)
    ensures Overlong(Split(s + t), max) && Records(s + t, max) == Records(s, max)
  {
    SplitConcat(s, t);
    MergeOverlong(Split(s), Split(t), max);
  }

  lemma MergeOverlong(a: seq<Bytes>, b: seq<Bytes>, max: nat)
    requires |a| > 0 && |b| > 0 && Overlong(a, max)
    ensures Overlong(Merge(a, b), max) && Fitting(Merge(a, b), max) == Fitting(a, max)
  {
    var fit, all := Fitting(a, max), Merge(a, b);
    var n := |fit|;
    assert |all[n]| >= |a[n]|;
    assert all[..n] == a[..n];
    assert all == all[..n] + all[n..];
    FittingPrefix(fit, all[n..], max);
  }

  function Concat(chunks: seq<Bytes>): Bytes {
    if chunks == [] then [] else chunks[0] + Concat(chunks[1..])
  }

  lemma {:induction false} ConcatSnoc(chunks: seq<Bytes>, n: nat)
    requires n < |chunks|
    ensures Concat(chunks[..n + 1]) == Concat(chunks[..n]) + chunks[n]
  {
    if n == 0 {
      assert chunks[..1] == [chunks[0]];
      assert Concat(chunks[..1]) == chunks[0] + Concat([]);
    } else {
      ConcatSnoc(chunks[1..], n - 1);
      assert chunks[..n + 1][1..] == chunks[1..][..n];
      assert chunks[..n][1..] == chunks[1..][..n - 1];
    }
  }

  lemma {:induction false} ConcatSplit(chunks: seq<Bytes>, n: nat)
    requires n <= |chunks|
    ensures Concat(chunks) == Concat(chunks[..n]) + Concat(chunks[n..])
  {
    if n == 0 {
      assert chunks[..0] == [] && chunks[0..] == chunks;
    } else {
      ConcatSplit(chunks[1..], n - 1);
      assert chunks[..n][1..] == chunks[1..][..n - 1];
      assert chunks[n..] == chunks[1..][n - 1..];
    }
  }
}

/** The UUIDv7 printer and parser (internal/primitives/id.go), after section 5.7 of RFC 9562. */
module Identifiers {
  import opened Common
  import opened Text

  // ---------------------------------------------------------------- hexadecimal

  function Digit(n: int): char
    requires 0 <= n < 16
  {
    if n < 10 then '0' + n as char else 'a' + (n - 10) as char
  }

  /** hex.Decode reads either case. */
  function Value(c: char): (n: int)
    ensures -1 <= n < 16
  {
    if '0' <= c <= '9' then c as int - '0' as int
    else if 'a' <= c <= 'f' then c as int - 'a' as int + 10
    else if 'A' <= c <= 'F' then c as int - 'A' as int + 10
    else -1
  }

  lemma DigitValue(n: int)
    requires 0 <= n < 16
    ensures Value(Digit(n)) == n
  {
  }

  lemma DigitOrder(a: int, b: int)
    requires 0 <= a < b < 16
    ensures Digit(a) < Digit(b)
  {
  }

  // ---------------------------------------------------------------- the printed form

  const LENGTH := 36

  predicate Dash(p: int) {
    p == 8 || p == 13 || p == 18 || p == 23
  }

  /** Where hex digit q of the 32 stands: after the dashes of the groups before it. */
  function At(q: int): int {
    if q < 8 then q else if q < 12 then q + 1 else if q < 16 then q + 2 else if q < 20 then q + 3 else q + 4
  }

  /** The hex digit that stands at p. */
  function DigitAt(p: int): int {
    if p < 8 then p else if p < 13 then p - 1 else if p < 18 then p - 2 else if p < 23 then p - 3 else p - 4
  }

  function Nibble(raw: seq<Byte>, q: int): int
    requires |raw| == 16 && 0 <= q < 32
  {
    if q % 2 == 0 then raw[q / 2] as int / 16 else raw[q / 2] as int % 16
  }

  function CharAt(raw: seq<Byte>, p: int): char
    requires |raw| == 16 && 0 <= p < LENGTH
  {
    if Dash(p) then '-' else Digit(Nibble(raw, DigitAt(p)))
  }

  function Format(raw: seq<Byte>): (s: string)
    requires |raw| == 16
    ensures |s| == LENGTH && forall p | 0 <= p < LENGTH :: s[p] == CharAt(raw, p)
  {
    seq(LENGTH, p requires 0 <= p < LENGTH => CharAt(raw, p))
  }

  predicate IsVersion7(raw: seq<Byte>)
    requires |raw| == 16
  {
    raw[6] as int / 16 == 7 && raw[8] as int / 64 == 2
  }

  // ---------------------------------------------------------------- the printer

  /** hex.Encode of bytes from..to into out at `at`. */
  method Encode(out: array<char>, at: nat, raw: array<Byte>, from: nat, to: nat)
    requires raw.Length == 16 && from <= to <= 16 && at + 2 * (to - from) <= out.Length
    modifies out
    ensures forall p | at <= p < at + 2 * (to - from) :: out[p] == Digit(Nibble(raw[..], 2 * from + p - at))
    ensures forall p | 0 <= p < out.Length && !(at <= p < at + 2 * (to - from)) :: out[p] == old(out[p])
  {
    var k := 0;
    while k < to - from
      invariant 0 <= k <= to - from
      invariant forall p | at <= p < at + 2 * k :: out[p] == Digit(Nibble(raw[..], 2 * from + p - at))
      invariant forall p | 0 <= p < out.Length && !(at <= p < at + 2 * k) :: out[p] == old(out[p])
    {
      var b := raw[from + k] as int;
      assert Nibble(raw[..], 2 * (from + k)) == b / 16 && Nibble(raw[..], 2 * (from + k) + 1) == b % 16;
      out[at + 2 * k] := Digit(b / 16);
      out[at + 2 * k + 1] := Digit(b % 16);
      k := k + 1;
    }
  }

  method FormatID(raw: array<Byte>) returns (id: string)
    requires raw.Length == 16
    ensures id == Format(raw[..])
  {
    var out := new char[36];
    Encode(out, 0, raw, 0, 4);
    out[8] := '-';
    Encode(out, 9, raw, 4, 6);
    out[13] := '-';
    Encode(out, 14, raw, 6, 8);
    out[18] := '-';
    Encode(out, 19, raw, 8, 10);
    out[23] := '-';
    Encode(out, 24, raw, 10, 16);
    id := out[..];
    assert forall p | 0 <= p < LENGTH :: id[p] == CharAt(raw[..], p);
  }

  // ---------------------------------------------------------------- new identifiers

  const MAX_MILLIS := 0xFFFF_FFFF_FFFF

  datatype Made = Made(id: string) | NoSource | OutOfRange | ShortRead

  /** The n low bytes of m, most significant first. */
  function BigEndian(m: nat, n: nat): (bytes: seq<Byte>)
    ensures |bytes| == n
  {
    if n == 0 then [] else BigEndian(m / 256, n - 1) + [(m % 256) as Byte]
  }

  /** Timestamp, version, entropy, variant and entropy again. */
  function Stamped(millis: nat, entropy: seq<Byte>): (raw: seq<Byte>)
    requires |entropy| == 16
    ensures |raw| == 16
  {
    BigEndian(millis, 6)
    + [(entropy[6] as int % 16 + 0x70) as Byte, entropy[7], (entropy[8] as int % 64 + 0x80) as Byte] + entropy[9..]
  }

  /** NewIDFrom; the source's 16 bytes, or None when the read fails. */
  method NewIDFrom(millis: int, source: bool, entropy: Option<seq<Byte>>) returns (r: Made)
    requires entropy.Some? ==> |entropy.value| == 16
    ensures r == if !source then NoSource
                 else if millis < 0 || millis > MAX_MILLIS then OutOfRange
                 else if entropy.None? then ShortRead
                 else Made(Format(Stamped(millis, entropy.value)))
  {
    if !source {
      return NoSource;
    }
    if millis < 0 || millis > MAX_MILLIS {
      return OutOfRange;
    }
    if entropy.None? {
      return ShortRead;
    }
    var raw := Stamp(millis, entropy.value);
    var id := FormatID(raw);
    return Made(id);
  }

  method PutTimestamp(raw: array<Byte>, millis: nat)
    requires raw.Length == 16
    modifies raw
    ensures raw[..6] == BigEndian(millis, 6) && raw[6..] == old(raw[6..])
  {
    raw[0] := (millis / 0x100_0000_0000 % 256) as Byte;
    raw[1] := (millis / 0x1_0000_0000 % 256) as Byte;
    raw[2] := (millis / 0x100_0000 % 256) as Byte;
    raw[3] := (millis / 0x1_0000 % 256) as Byte;
    raw[4] := (millis / 0x100 % 256) as Byte;
    raw[5] := (millis % 256) as Byte;
    SixBytes(millis);
  }

  method Stamp(millis: nat, entropy: seq<Byte>) returns (raw: array<Byte>)
    requires |entropy| == 16
    ensures fresh(raw) && raw[..] == Stamped(millis, entropy)
  {
    raw := new Byte[16](k requires 0 <= k < 16 => entropy[k]);
    assert raw[6..] == entropy[6..];
    PutTimestamp(raw, millis);
    assert forall k | 6 <= k < 16 :: raw[k] == raw[6..][k - 6] == entropy[6..][k - 6] == entropy[k];
    raw[6] := (raw[6] as int % 16 + 0x70) as Byte;
    raw[8] := (raw[8] as int % 64 + 0x80) as Byte;
    assert raw[..] == raw[..6] + [raw[6], raw[7], raw[8]] + raw[9..];
    assert raw[9..] == entropy[9..];
  }

  lemma SixBytes(m: nat)
    ensures BigEndian(m, 6) == [
      (m / 0x100_0000_0000 % 256) as Byte, (m / 0x1_0000_0000 % 256) as Byte, (m / 0x100_0000 % 256) as Byte,
      (m / 0x1_0000 % 256) as Byte, (m / 0x100 % 256) as Byte, (m % 256) as Byte]
  {
    assert m / 256 / 256 == m / 0x1_0000;
    assert m / 0x1_0000 / 256 == m / 0x100_0000;
    assert m / 0x100_0000 / 256 == m / 0x1_0000_0000;
    assert m / 0x1_0000_0000 / 256 == m / 0x100_0000_0000;
    assert BigEndian(m / 0x100_0000_0000, 1) == [] + [(m / 0x100_0000_0000 % 256) as Byte];
    assert BigEndian(m / 0x1_0000_0000, 2) == BigEndian(m / 0x100_0000_0000, 1) + [(m / 0x1_0000_0000 % 256) as Byte];
    assert BigEndian(m / 0x100_0000, 3) == BigEndian(m / 0x1_0000_0000, 2) + [(m / 0x100_0000 % 256) as Byte];
    assert BigEndian(m / 0x1_0000, 4) == BigEndian(m / 0x100_0000, 3) + [(m / 0x1_0000 % 256) as Byte];
    assert BigEndian(m / 0x100, 5) == BigEndian(m / 0x1_0000, 4) + [(m / 0x100 % 256) as Byte];
  }

  // ---------------------------------------------------------------- the parser

  function Compact(value: string): (s: string)
    requires |value| == LENGTH
    ensures |s| == 32 && forall q | 0 <= q < 32 :: s[q] == value[At(q)]
  {
    value[0..8] + value[9..13] + value[14..18] + value[19..23] + value[24..36]
  }

  /** The bytes that 32 hex digits spell. */
  predicate Spells(compact: string, raw: seq<Byte>)
    requires |compact| == 32 && |raw| == 16
  {
    forall q | 0 <= q < 32 :: Value(compact[q]) == Nibble(raw, q)
  }

  /** hex.Decode into raw; false at the first character that is no digit. */
  method Decode(raw: array<Byte>, compact: string) returns (ok: bool)
    requires raw.Length == 16 && |compact| == 32
    modifies raw
    ensures ok <==> forall q | 0 <= q < 32 :: Value(compact[q]) >= 0
    ensures ok ==> Spells(compact, raw[..])
  {
    var k := 0;
    while k < 16
      invariant 0 <= k <= 16
      invariant forall q | 0 <= q < 2 * k :: Value(compact[q]) >= 0 && Value(compact[q]) == Nibble(raw[..], q)
    {
      var hi, lo := Value(compact[2 * k]), Value(compact[2 * k + 1]);
      if hi < 0 || lo < 0 {
        return false;
      }
      ghost var before := raw[..];
      raw[k] := (hi * 16 + lo) as Byte;
      assert forall q | 0 <= q < 2 * k :: Nibble(raw[..], q) == Nibble(before, q);
      assert Nibble(raw[..], 2 * k) == hi && Nibble(raw[..], 2 * k + 1) == lo;
      k := k + 1;
    }
    return true;
  }

  /** ParseID accepts exactly what Format prints for version 7, variant 10. */
  method ParseID(value: string) returns (r: Option<string>)
    ensures r == if exists raw: seq<Byte> :: Prints(raw, value) then Some(value) else None
  {
    if |value| != 36 || value[8] != '-' || value[13] != '-' || value[18] != '-' || value[23] != '-' {
      return None;
    }
    var compact := value[0..8] + value[9..13] + value[14..18] + value[19..23] + value[24..36];
    assert compact == Compact(value);
    var raw := new Byte[16];
    var ok := Decode(raw, compact);
    if !ok {
      NothingPrinted(value);
      return None;
    }
    OnlyPrint(value, raw[..]);
    var printed := FormatID(raw);
    if printed != value {
      return None;
    }
    if raw[6] as int / 16 != 7 || raw[8] as int / 64 != 2 {
      return None;
    }
    assert Prints(raw[..], value);
    return Some(value);
  }

  predicate Prints(raw: seq<Byte>, value: string) {
    |raw| == 16 && IsVersion7(raw) && Format(raw) == value
  }

  /** Printing loses nothing: the digits of a printed value spell its bytes again. */
  lemma FormatSpells(raw: seq<Byte>)
    requires |raw| == 16
    ensures Spells(Compact(Format(raw)), raw)
  {
    forall q | 0 <= q < 32 ensures Value(Compact(Format(raw))[q]) == Nibble(raw, q) {
      assert !Dash(At(q)) && DigitAt(At(q)) == q;
      DigitValue(Nibble(raw, q));
    }
  }

  /** Digits spell only one value. */
  lemma SpellsOnce(compact: string, a: seq<Byte>, b: seq<Byte>)
    requires |compact| == 32 && |a| == 16 && |b| == 16 && Spells(compact, a) && Spells(compact, b)
    ensures a == b
  {
    forall k | 0 <= k < 16 ensures a[k] == b[k] {
      assert Nibble(a, 2 * k) == Nibble(b, 2 * k) && Nibble(a, 2 * k + 1) == Nibble(b, 2 * k + 1);
      assert Nibble(a, 2 * k) == a[k] as int / 16 && Nibble(a, 2 * k + 1) == a[k] as int % 16;
      assert Nibble(b, 2 * k) == b[k] as int / 16 && Nibble(b, 2 * k + 1) == b[k] as int % 16;
    }
  }

  lemma NothingPrinted(value: string)
    requires |value| == LENGTH && exists q | 0 <= q < 32 :: Value(Compact(value)[q]) < 0
    ensures forall raw: seq<Byte> :: !Prints(raw, value)
  {
    forall raw: seq<Byte> ensures !Prints(raw, value) {
      if |raw| == 16 && Format(raw) == value {
        FormatSpells(raw);
      }
    }
  }

  lemma OnlyPrint(value: string, raw: seq<Byte>)
    requires |value| == LENGTH && |raw| == 16 && Spells(Compact(value), raw)
    ensures forall other: seq<Byte> :: Prints(other, value) ==> other == raw
  {
    forall other: seq<Byte> | Prints(other, value) ensures other == raw {
      FormatSpells(other);
      SpellsOnce(Compact(value), other, raw);
    }
  }

  // ---------------------------------------------------------------- theorems

  /** Two byte values never print alike. */
  lemma FormatInjective(a: seq<Byte>, b: seq<Byte>)
    requires |a| == 16 && |b| == 16 && Format(a) == Format(b)
    ensures a == b
  {
    FormatSpells(a);
    FormatSpells(b);
    SpellsOnce(Compact(Format(a)), a, b);
  }

  function Number(bytes: seq<Byte>): nat {
    if bytes == [] then 0 else Number(bytes[..|bytes| - 1]) * 256 + bytes[|bytes| - 1] as int
  }

  function Power(n: nat): nat
    ensures Power(n) > 0
  {
    if n == 0 then 1 else 256 * Power(n - 1)
  }

  lemma {:induction false} NumberOfBigEndian(m: nat, n: nat)
    requires m < Power(n)
    ensures Number(BigEndian(m, n)) == m
  {
    if n > 0 {
      assert m / 256 < Power(n - 1);
      NumberOfBigEndian(m / 256, n - 1);
      var bytes := BigEndian(m, n);
      assert bytes[..|bytes| - 1] == BigEndian(m / 256, n - 1);
    }
  }

  /** Every new identifier parses, and its first 48 bits are its timestamp. */
  lemma NewIdentifierParses(millis: nat, entropy: seq<Byte>)
    requires millis <= MAX_MILLIS && |entropy| == 16
    ensures Prints(Stamped(millis, entropy), Format(Stamped(millis, entropy)))
    ensures Number(Stamped(millis, entropy)[..6]) == millis
  {
    assert Power(6) == MAX_MILLIS + 1 by {
      assert Power(1) == 256 && Power(2) == 0x1_0000 && Power(3) == 0x100_0000;
      assert Power(4) == 0x1_0000_0000 && Power(5) == 0x100_0000_0000;
    }
    NumberOfBigEndian(millis, 6);
    assert Stamped(millis, entropy)[..6] == BigEndian(millis, 6);
  }

  /** Big-endian bytes order as the numbers do. */
  lemma {:induction false} FirstDifference(a: nat, b: nat, n: nat) returns (k: nat)
    requires a < b < Power(n)
    ensures k < n && BigEndian(a, n)[..k] == BigEndian(b, n)[..k] && BigEndian(a, n)[k] < BigEndian(b, n)[k]
  {
    assert n > 0;
    assert b / 256 < Power(n - 1);
    if a / 256 < b / 256 {
      k := FirstDifference(a / 256, b / 256, n - 1);
      assert BigEndian(a, n)[..k] == BigEndian(a / 256, n - 1)[..k];
      assert BigEndian(b, n)[..k] == BigEndian(b / 256, n - 1)[..k];
    } else {
      k := n - 1;
      assert a / 256 == b / 256;
      assert BigEndian(a, n)[..k] == BigEndian(a / 256, n - 1) && BigEndian(b, n)[..k] == BigEndian(b / 256, n - 1);
    }
  }

  /** Printed values order as their bytes do. */
  lemma FormatOrder(a: seq<Byte>, b: seq<Byte>, k: nat)
    requires |a| == 16 && |b| == 16 && k < 16 && a[..k] == b[..k] && a[k] < b[k]
    ensures Less(Format(a), Format(b))
  {
    var q := if a[k] as int / 16 < b[k] as int / 16 then 2 * k else 2 * k + 1;
    var p := At(q);
    assert !Dash(p) && DigitAt(p) == q;
    forall j | 0 <= j < p ensures CharAt(a, j) == CharAt(b, j) {
      if !Dash(j) {
        SameNibble(a, b, k, DigitAt(j), q);
      }
    }
    assert Nibble(a, q) < Nibble(b, q);
    DigitOrder(Nibble(a, q), Nibble(b, q));
    assert LessAt(Format(a), Format(b), p);
  }

  lemma SameNibble(a: seq<Byte>, b: seq<Byte>, k: nat, r: int, q: int)
    requires |a| == 16 && |b| == 16 && k < 16 && a[..k] == b[..k] && a[k] < b[k]
    requires q == if a[k] as int / 16 < b[k] as int / 16 then 2 * k else 2 * k + 1
    requires 0 <= r < q
    ensures Nibble(a, r) == Nibble(b, r)
  {
    if r < 2 * k {
      assert a[r / 2] == a[..k][r / 2] == b[..k][r / 2] == b[r / 2];
    }
  }

  /** A smaller timestamp gives a lexicographically smaller identifier, whatever the entropy. */
  lemma OrderedByTime(m: nat, n: nat, e: seq<Byte>, f: seq<Byte>)
    requires m < n <= MAX_MILLIS && |e| == 16 && |f| == 16
    ensures Less(Format(Stamped(m, e)), Format(Stamped(n, f)))
  {
    assert Power(6) == MAX_MILLIS + 1 by {
      assert Power(1) == 256 && Power(2) == 0x1_0000 && Power(3) == 0x100_0000;
      assert Power(4) == 0x1_0000_0000 && Power(5) == 0x100_0000_0000;
    }
    var k := FirstDifference(m, n, 6);
    var a, b := Stamped(m, e), Stamped(n, f);
    assert a[..6] == BigEndian(m, 6) && b[..6] == BigEndian(n, 6);
    assert a[..k] == BigEndian(m, 6)[..k] && b[..k] == BigEndian(n, 6)[..k];
    FormatOrder(a, b, k);
  }
}

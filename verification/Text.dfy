/** Go's string order and prefixes, which both the path and the identifier models use. */
module Text {

  /** a < b: they agree up to k, where a ends or has the smaller character. */
  predicate LessAt(a: string, b: string, k: nat) {
    && k <= |a| && k < |b| && a[..k] == b[..k]
    && (k == |a| || a[k] < b[k])
  }

  ghost predicate Less(a: string, b: string) {
    exists k: nat :: LessAt(a, b, k)
  }

  predicate HasPrefix(s: string, prefix: string) {
    prefix <= s
  }

  lemma LessIrreflexive(a: string)
    ensures !Less(a, a)
  {
  }

  lemma LessAsymmetric(a: string, b: string)
    requires Less(a, b)
    ensures !Less(b, a)
  {
    var k: nat :| LessAt(a, b, k);
    forall j: nat ensures !LessAt(b, a, j) {
      assert j < k ==> b[..k][j] == a[..k][j];
    }
  }

  /** A proper prefix comes first. */
  lemma PrefixLess(a: string, b: string)
    requires HasPrefix(b, a) && a != b
    ensures Less(a, b)
  {
    assert LessAt(a, b, |a|);
  }

  /** The comparison as a loop over the common length. */
  method Compare(a: string, b: string) returns (less: bool)
    ensures less <==> Less(a, b)
  {
    var k := 0;
    while k < |a| && k < |b| && a[k] == b[k]
      invariant k <= |a| && k <= |b| && a[..k] == b[..k]
    {
      k := k + 1;
    }
    if k == |b| {
      forall j: nat ensures !LessAt(a, b, j) {
        assert j < |b| ==> a[..k][j] == b[..k][j];
      }
      return false;
    }
    if k == |a| || a[k] < b[k] {
      assert LessAt(a, b, k);
      return true;
    }
    assert LessAt(b, a, k);
    LessAsymmetric(b, a);
    return false;
  }
}

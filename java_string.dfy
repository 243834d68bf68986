/**
 * `java.lang.String.compareTo`: the lexicographic comparison of two (non-null)
 * strings that the product comparator delegates to, and the laws that make it a
 * total order.
 */
module JavaString {

  /**
   * Walking both strings left to right, the result is the difference of the first
   * pair of characters that differ; when one string is a prefix of the other, it is
   * the difference of the lengths.
   */
  function CompareTo(a: string, b: string): (r: int)
    ensures r == 0 <==> a == b
  {
    if a == [] || b == [] then |a| - |b|
    else if a[0] != b[0] then a[0] as int - b[0] as int
    else
      assert a == [a[0]] + a[1..] && b == [b[0]] + b[1..];
      CompareTo(a[1..], b[1..])
  }

  /** `k` is the length of the longest common prefix of `a` and `b`. */
  ghost predicate FirstMismatch(a: string, b: string, k: nat)
  {
    k <= |a| && k <= |b| && a[..k] == b[..k] &&
    (k == |a| || k == |b| || a[k] != b[k])
  }

  /** Reference definition of "a sorts strictly before b" in lexicographic order. */
  ghost predicate LexLess(a: string, b: string)
  {
    (|a| < |b| && a == b[..|a|]) ||
    exists k :: 0 <= k < |a| && k < |b| && a[..k] == b[..k] && a[k] < b[k]
  }

  /** The value `CompareTo` returns, as the Java documentation states it. */
  lemma {:induction false} CompareToAtMismatch(a: string, b: string, k: nat)
    requires FirstMismatch(a, b, k)
    ensures CompareTo(a, b) == if k < |a| && k < |b| then a[k] as int - b[k] as int else |a| - |b|
  {
    if k > 0 {
      assert a[0] == a[..k][0] == b[..k][0] == b[0];
      assert a[1..][..k - 1] == a[1..k] == a[..k][1..];
      assert b[1..][..k - 1] == b[1..k] == b[..k][1..];
      CompareToAtMismatch(a[1..], b[1..], k - 1);
    }
  }

  /** Swapping the arguments negates the result (so the sign reverses). */
  lemma {:induction false} CompareToAntisymmetric(a: string, b: string)
    ensures CompareTo(b, a) == -CompareTo(a, b)
  {
    if a != [] && b != [] && a[0] == b[0] {
      CompareToAntisymmetric(a[1..], b[1..]);
    }
  }

  /** "Sorts strictly before" is transitive. */
  lemma {:induction false} CompareToTransitive(a: string, b: string, c: string)
    requires CompareTo(a, b) < 0 && CompareTo(b, c) < 0
    ensures CompareTo(a, c) < 0
  {
    if a != [] && b != [] && c != [] && a[0] == b[0] == c[0] {
      CompareToTransitive(a[1..], b[1..], c[1..]);
    }
  }

  /** "Sorts before or equal" is transitive. */
  lemma {:induction false} CompareToTransitiveNonStrict(a: string, b: string, c: string)
    requires CompareTo(a, b) <= 0 && CompareTo(b, c) <= 0
    ensures CompareTo(a, c) <= 0
  {
    if CompareTo(a, b) < 0 && CompareTo(b, c) < 0 {
      CompareToTransitive(a, b, c);
    }
  }

  /** The length of the longest common prefix of `a` and `b`. */
  function CommonPrefixLength(a: string, b: string): (k: nat)
    ensures FirstMismatch(a, b, k)
  {
    if a == [] || b == [] || a[0] != b[0] then 0
    else
      var k := CommonPrefixLength(a[1..], b[1..]);
      assert a[..k + 1] == [a[0]] + a[1..][..k];
      assert b[..k + 1] == [b[0]] + b[1..][..k];
      k + 1
  }

  /** Two strings have only one longest common prefix. */
  lemma MismatchUnique(a: string, b: string, k1: nat, k2: nat)
    requires FirstMismatch(a, b, k1) && FirstMismatch(a, b, k2)
    ensures k1 == k2
  {
  }

  /** A negative result means exactly "lexicographically before". */
  lemma CompareToNegativeIffLexLess(a: string, b: string)
    ensures CompareTo(a, b) < 0 <==> LexLess(a, b)
  {
    var k := CommonPrefixLength(a, b);
    CompareToAtMismatch(a, b, k);
    if LexLess(a, b) {
      if |a| < |b| && a == b[..|a|] {
        MismatchUnique(a, b, k, |a|);
      } else {
        var j :| 0 <= j < |a| && j < |b| && a[..j] == b[..j] && a[j] < b[j];
        MismatchUnique(a, b, k, j);
      }
    }
    if CompareTo(a, b) < 0 && !(k < |a| && k < |b|) {
      assert a == a[..k];
    }
  }
}

/**
 * Python's ordering of `str` values and `sorted` over a list of distinct
 * strings. Strings compare code point by code point; a proper prefix comes
 * first.
 */
module StringOrder {

  /** `a < b` on Python strings. */
  predicate Less(a: string, b: string)
    decreases |a|
  {
    if |a| == 0 then |b| > 0
    else if |b| == 0 then false
    else if a[0] != b[0] then a[0] < b[0]
    else Less(a[1..], b[1..])
  }

  lemma {:induction false} LessIrreflexive(a: string)
    ensures !Less(a, a)
    decreases |a|
  {
    if |a| > 0 {
      LessIrreflexive(a[1..]);
    }
  }

  lemma {:induction false} LessTransitive(a: string, b: string, c: string)
    requires Less(a, b) && Less(b, c)
    ensures Less(a, c)
    decreases |a|
  {
    if |a| > 0 && a[0] == b[0] && b[0] == c[0] {
      LessTransitive(a[1..], b[1..], c[1..]);
    }
  }

  /** Two different strings are ordered one way or the other. */
  lemma {:induction false} LessTotal(a: string, b: string)
    requires a != b
    ensures Less(a, b) || Less(b, a)
    decreases |a|
  {
    if |a| > 0 && |b| > 0 && a[0] == b[0] {
      assert a == [a[0]] + a[1..] && b == [b[0]] + b[1..];
      LessTotal(a[1..], b[1..]);
    }
  }

  lemma {:induction false} LessAsymmetric(a: string, b: string)
    requires Less(a, b)
    ensures !Less(b, a)
  {
    if Less(b, a) {
      LessTransitive(a, b, a);
      LessIrreflexive(a);
    }
  }

  predicate StrictlySorted(s: seq<string>)
  {
    forall i, j :: 0 <= i < j < |s| ==> Less(s[i], s[j])
  }

  predicate Distinct(s: seq<string>)
  {
    forall i, j :: 0 <= i < j < |s| ==> s[i] != s[j]
  }

  /** Put `x` into its place in a sorted list. */
  function Insert(x: string, s: seq<string>): (r: seq<string>)
    requires StrictlySorted(s) && x !in s
    ensures StrictlySorted(r)
    ensures |r| == |s| + 1
    ensures forall y :: y in r <==> y == x || y in s
  {
    if s == [] then [x]
    else if Less(x, s[0]) then
      assert forall j :: 0 < j < |s| ==> Less(x, s[j]) by {
        forall j | 0 < j < |s| ensures Less(x, s[j]) { LessTransitive(x, s[0], s[j]); }
      }
      [x] + s
    else
      LessTotal(x, s[0]);
      var rest := Insert(x, s[1..]);
      assert forall y :: y in rest ==> Less(s[0], y) by {
        forall y | y in rest ensures Less(s[0], y) {
          if y != x {
            var j :| 0 <= j < |s[1..]| && s[1..][j] == y;
            assert s[j + 1] == y;
          }
        }
      }
      [s[0]] + rest
  }

  /** `sorted(keys)` for a list of distinct keys: an insertion sort. */
  function Sort(keys: seq<string>): (r: seq<string>)
    requires Distinct(keys)
    ensures StrictlySorted(r)
    ensures |r| == |keys|
    ensures forall y :: y in r <==> y in keys
  {
    if keys == [] then []
    else
      var rest := Sort(keys[1..]);
      assert keys[0] !in keys[1..];
      Insert(keys[0], rest)
  }

  /** A strictly sorted list is fixed by the strings it holds. */
  lemma {:induction false} SortedUnique(a: seq<string>, b: seq<string>)
    requires StrictlySorted(a) && StrictlySorted(b)
    requires forall y :: y in a <==> y in b
    ensures a == b
    decreases |a|
  {
    if a != [] {
      assert a[0] in a;
    }
    if b != [] {
      assert b[0] in b;
    }
    if a != [] && b != [] {
      var i :| 0 <= i < |b| && b[i] == a[0];
      var j :| 0 <= j < |a| && a[j] == b[0];
      assert b[0] == a[0] || Less(a[0], b[0]);
      assert a[0] == b[0] || Less(b[0], a[0]);
      if Less(a[0], b[0]) {
        LessAsymmetric(a[0], b[0]);
      }
      assert a[0] == b[0];
      LessIrreflexive(a[0]);
      forall y | y in a[1..]
        ensures y in b[1..]
      {
        var m :| 0 <= m < |a[1..]| && a[1..][m] == y;
        assert a[m + 1] == y;
        assert y in b;
        var k :| 0 <= k < |b| && b[k] == y;
        assert k != 0;
        assert b[1..][k - 1] == y;
      }
      forall y | y in b[1..]
        ensures y in a[1..]
      {
        var m :| 0 <= m < |b[1..]| && b[1..][m] == y;
        assert b[m + 1] == y;
        assert y in a;
        var k :| 0 <= k < |a| && a[k] == y;
        assert k != 0;
        assert a[1..][k - 1] == y;
      }
      SortedUnique(a[1..], b[1..]);
    }
  }

  /** Sorting two lists that hold the same keys, in any order, gives the same list. */
  lemma {:induction false} SortIgnoresOrder(keys1: seq<string>, keys2: seq<string>)
    requires Distinct(keys1) && Distinct(keys2)
    requires forall y :: y in keys1 <==> y in keys2
    ensures Sort(keys1) == Sort(keys2)
  {
    SortedUnique(Sort(keys1), Sort(keys2));
  }
}

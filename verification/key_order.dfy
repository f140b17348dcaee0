/**
 * The iteration order of a Python dict: keys in insertion order, each once.
 * A new key goes to the end; deleting a key closes the gap and keeps the
 * relative order of the others; updating the value of a present key leaves
 * the order alone.
 */
module KeyOrder {

  /** No key occurs twice. */
  ghost predicate Distinct<T>(s: seq<T>) {
    forall i, j :: 0 <= i < j < |s| ==> s[i] != s[j]
  }

  /** The order `s` lists exactly the keys of `keys`. */
  ghost predicate Lists<T(!new)>(s: seq<T>, keys: set<T>) {
    Distinct(s) && forall x :: x in s <==> x in keys
  }

  /** The order after deleting key `x`. */
  function Without<T(==,!new)>(s: seq<T>, x: T): (r: seq<T>)
    ensures forall y :: y in r <==> y in s && y != x
  {
    if s == [] then []
    else if s[0] == x then Without(s[1..], x)
    else [s[0]] + Without(s[1..], x)
  }

  /** Deleting a key that is not there leaves the order as it was. */
  lemma {:induction false} WithoutAbsent<T(!new)>(s: seq<T>, x: T)
    requires x !in s
    ensures Without(s, x) == s
  {
    if s != [] {
      assert s == [s[0]] + s[1..];
      WithoutAbsent(s[1..], x);
    }
  }

  /** Deleting the key at position `k` closes the gap and keeps the others in order. */
  lemma {:induction false} WithoutAt<T(!new)>(s: seq<T>, x: T, k: nat)
    requires Distinct(s) && k < |s| && s[k] == x
    ensures Without(s, x) == s[..k] + s[k + 1..]
  {
    if k == 0 {
      assert x !in s[1..];
      WithoutAbsent(s[1..], x);
    } else {
      assert Distinct(s[1..]);
      WithoutAt(s[1..], x, k - 1);
      assert s[..k] == [s[0]] + s[1..][..k - 1];
      assert s[k + 1..] == s[1..][k..];
    }
  }

  /** Deleting a key keeps the remaining keys distinct. */
  lemma {:induction false} WithoutDistinct<T(!new)>(s: seq<T>, x: T)
    requires Distinct(s)
    ensures Distinct(Without(s, x))
  {
    if s != [] {
      assert Distinct(s[1..]);
      WithoutDistinct(s[1..], x);
      assert s[0] !in s[1..];
    }
  }

  /** Deleting a listed key lists the remaining keys. */
  lemma WithoutLists<T(!new)>(s: seq<T>, keys: set<T>, x: T)
    requires Lists(s, keys)
    ensures Lists(Without(s, x), keys - {x})
  {
    WithoutDistinct(s, x);
  }

  /** Appending a new key lists the enlarged key set. */
  lemma AppendLists<T(!new)>(s: seq<T>, keys: set<T>, x: T)
    requires Lists(s, keys) && x !in keys
    ensures Lists(s + [x], keys + {x})
  {
  }

  /** An order that lists a key set has one position per key. */
  lemma {:induction false} ListsCardinality<T(!new)>(s: seq<T>, keys: set<T>)
    requires Lists(s, keys)
    ensures |s| == |keys|
  {
    if s != [] {
      var head := s[0];
      assert s == [head] + s[1..];
      assert Lists(s[1..], keys - {head}) by {
        forall i, j | 0 <= i < j < |s[1..]| ensures s[1..][i] != s[1..][j] {
          assert s[1..][i] == s[i + 1] && s[1..][j] == s[j + 1];
        }
        forall y ensures y in s[1..] <==> y in keys - {head} {
          if y in s[1..] {
            var j :| 0 <= j < |s[1..]| && s[1..][j] == y;
            assert s[j + 1] == y;
          }
        }
      }
      ListsCardinality(s[1..], keys - {head});
    }
  }
}

/** Sorting by a numeric key: the model of the persistence layer's
    `SortDescriptor` and of Swift's `sorted(by:)`. Insertion sort on
    sequences; the contract says the result is ordered and a permutation. */
module Sorting {
  import opened Seqs

  /** `s` is in ascending order of `key`. */
  predicate SortedBy<T>(s: seq<T>, key: T -> real) {
    forall i, j :: 0 <= i < j < |s| ==> key(s[i]) <= key(s[j])
  }

  /** `s` is in descending order of `key`. */
  predicate SortedDescBy<T>(s: seq<T>, key: T -> real) {
    forall i, j :: 0 <= i < j < |s| ==> key(s[i]) >= key(s[j])
  }

  /** `x` placed into the sorted `s` before the first element whose key is
      not smaller. */
  function Insert<T>(x: T, s: seq<T>, key: T -> real): (r: seq<T>)
    requires SortedBy(s, key)
    ensures |r| == |s| + 1
    ensures r[0] == x || (|s| > 0 && r[0] == s[0])
    ensures multiset(r) == multiset(s) + multiset{x}
    ensures SortedBy(r, key)
  {
    if s == [] || key(x) <= key(s[0]) then
      ConsSorted(x, s, key);
      [x] + s
    else
      assert s == [s[0]] + s[1..];
      var rest := Insert(x, s[1..], key);
      assert key(s[0]) <= key(rest[0]);
      ConsSorted(s[0], rest, key);
      assert multiset([s[0]] + rest) == multiset{s[0]} + multiset(rest);
      [s[0]] + rest
  }

  /** Putting an element no larger than the head in front of a sorted
      sequence keeps it sorted. */
  lemma ConsSorted<T>(x: T, s: seq<T>, key: T -> real)
    requires SortedBy(s, key)
    requires s != [] ==> key(x) <= key(s[0])
    ensures SortedBy([x] + s, key)
  {
    var r := [x] + s;
    forall i, j | 0 <= i < j < |r| ensures key(r[i]) <= key(r[j]) {
      assert r[j] == s[j - 1];
      if i == 0 {
        assert key(s[0]) <= key(s[j - 1]);
      } else {
        assert r[i] == s[i - 1];
      }
    }
  }

  /** `s` sorted into ascending order of `key`. */
  function SortBy<T>(s: seq<T>, key: T -> real): (r: seq<T>)
    ensures |r| == |s|
    ensures multiset(r) == multiset(s)
    ensures SortedBy(r, key)
  {
    if s == [] then []
    else
      assert s == [s[0]] + s[1..];
      Insert(s[0], SortBy(s[1..], key), key)
  }

  /** `s` sorted into descending order of `key`. */
  function SortByDesc<T>(s: seq<T>, key: T -> real): (r: seq<T>)
    ensures |r| == |s|
    ensures multiset(r) == multiset(s)
    ensures SortedDescBy(r, key)
  {
    SortBy(s, x => -key(x))
  }

  /** Sorting a sequence that is already in order changes nothing. */
  lemma {:induction false} SortSortedIsIdentity<T>(s: seq<T>, key: T -> real)
    requires SortedBy(s, key)
    ensures SortBy(s, key) == s
  {
    if s != [] {
      SortSortedIsIdentity(s[1..], key);
      assert s == [s[0]] + s[1..];
    }
  }

  /** A prefix of an ascending sequence is ascending. */
  lemma PrefixSorted<T>(s: seq<T>, key: T -> real, k: nat)
    requires SortedBy(s, key) && k <= |s|
    ensures SortedBy(s[..k], key)
  {
    forall i, j | 0 <= i < j < k ensures key(s[..k][i]) <= key(s[..k][j]) {
      assert s[..k][i] == s[i] && s[..k][j] == s[j];
    }
  }

  /** A prefix of a descending sequence is descending. */
  lemma PrefixSortedDesc<T>(s: seq<T>, key: T -> real, k: nat)
    requires SortedDescBy(s, key) && k <= |s|
    ensures SortedDescBy(s[..k], key)
  {
    forall i, j | 0 <= i < j < k ensures key(s[..k][i]) >= key(s[..k][j]) {
      assert s[..k][i] == s[i] && s[..k][j] == s[j];
    }
  }

  /** In a sorted sequence every element of the prefix `s[..k]` is at most
      every element after it: taking a prefix takes the smallest keys. */
  lemma PrefixHoldsSmallest<T>(s: seq<T>, key: T -> real, k: nat, x: T)
    requires SortedBy(s, key)
    requires k <= |s|
    requires x in s && x !in s[..k]
    ensures forall y :: y in s[..k] ==> key(y) <= key(x)
  {
    var j :| 0 <= j < |s| && s[j] == x;
    forall i | 0 <= i < k ensures s[i] != x {
      assert s[..k][i] == s[i];
    }
    forall y | y in s[..k] ensures key(y) <= key(x) {
      var i :| 0 <= i < k && s[..k][i] == y;
    }
  }

  /** In a descending sequence every element of the prefix `s[..k]` is at
      least every element after it: taking a prefix takes the largest keys. */
  lemma PrefixHoldsLargest<T>(s: seq<T>, key: T -> real, k: nat, x: T)
    requires SortedDescBy(s, key)
    requires k <= |s|
    requires x in s && x !in s[..k]
    ensures forall y :: y in s[..k] ==> key(y) >= key(x)
  {
    var j :| 0 <= j < |s| && s[j] == x;
    forall i | 0 <= i < k ensures s[i] != x {
      assert s[..k][i] == s[i];
    }
    forall y | y in s[..k] ensures key(y) >= key(x) {
      var i :| 0 <= i < k && s[..k][i] == y;
    }
  }

  /** Dropping elements from a descending sequence keeps it descending. */
  lemma {:induction false} SubsequenceSortedDesc<T>(a: seq<T>, b: seq<T>, key: T -> real)
    requires SubsequenceOf(a, b) && SortedDescBy(b, key)
    ensures SortedDescBy(a, key)
    decreases |b|
  {
    if b != [] {
      assert SortedDescBy(b[1..], key) by {
        forall i, j | 0 <= i < j < |b| - 1 ensures key(b[1..][i]) >= key(b[1..][j]) {
          assert b[1..][i] == b[i + 1] && b[1..][j] == b[j + 1];
        }
      }
      if SubsequenceOf(a, b[1..]) {
        SubsequenceSortedDesc(a, b[1..], key);
      } else {
        SubsequenceSortedDesc(a[1..], b[1..], key);
        SubsequenceMultiset(a[1..], b[1..]);
        forall i, j | 0 <= i < j < |a| ensures key(a[i]) >= key(a[j]) {
          assert a[j] == a[1..][j - 1];
          if i == 0 {
            assert a[j] in multiset(b[1..]);
            var k :| 0 <= k < |b| - 1 && b[1..][k] == a[j];
            assert b[k + 1] == a[j];
          } else {
            assert a[i] == a[1..][i - 1];
          }
        }
      }
    }
  }
}

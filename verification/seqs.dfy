/** Order-preserving filtering and summation over sequences: the model of
    Swift's `filter` and `reduce(0.0) { $0 + f($1) }` on the app's lists. */
module Seqs {

  /** The elements of `s` that satisfy `p`, in their original order. */
  function Filter<T>(s: seq<T>, p: T -> bool): (r: seq<T>)
    ensures |r| <= |s|
    ensures forall i :: 0 <= i < |r| ==> r[i] in s && p(r[i])
    ensures forall i :: 0 <= i < |s| && p(s[i]) ==> s[i] in r
    ensures multiset(r) <= multiset(s)
  {
    if s == [] then []
    else
      assert s == [s[0]] + s[1..];
      (if p(s[0]) then [s[0]] else []) + Filter(s[1..], p)
  }

  /** `a` is `b` with some elements left out and the rest kept in order. */
  ghost predicate SubsequenceOf<T>(a: seq<T>, b: seq<T>)
    decreases |b|
  {
    if b == [] then a == []
    else SubsequenceOf(a, b[1..]) || (a != [] && a[0] == b[0] && SubsequenceOf(a[1..], b[1..]))
  }

  /** Filtering keeps the surviving elements in their original order. */
  lemma {:induction false} FilterSubsequence<T>(s: seq<T>, p: T -> bool)
    ensures SubsequenceOf(Filter(s, p), s)
  {
    if s != [] {
      FilterSubsequence(s[1..], p);
      if p(s[0]) {
        var r := Filter(s, p);
        assert r == [s[0]] + Filter(s[1..], p);
        assert r != [] && r[0] == s[0] && r[1..] == Filter(s[1..], p);
      } else {
        assert Filter(s, p) == [] + Filter(s[1..], p) == Filter(s[1..], p);
        assert SubsequenceOf(Filter(s[1..], p), s[1..]);
      }
    }
  }

  lemma SubsequenceOfSelf<T>(s: seq<T>)
    ensures SubsequenceOf(s, s)
  {
    FilterAll(s, (x: T) => true);
    FilterSubsequence(s, (x: T) => true);
  }

  /** A subsequence takes each element of `b` at most as often as `b` holds it. */
  lemma {:induction false} SubsequenceMultiset<T>(a: seq<T>, b: seq<T>)
    requires SubsequenceOf(a, b)
    ensures multiset(a) <= multiset(b)
    decreases |b|
  {
    if b != [] {
      assert b == [b[0]] + b[1..];
      if SubsequenceOf(a, b[1..]) {
        SubsequenceMultiset(a, b[1..]);
      } else {
        SubsequenceMultiset(a[1..], b[1..]);
        assert a == [a[0]] + a[1..];
      }
    }
  }

  /** A prefix holds nothing its sequence does not. */
  lemma PrefixMultiset<T>(s: seq<T>, k: nat)
    requires k <= |s|
    ensures multiset(s[..k]) <= multiset(s)
  {
    assert s == s[..k] + s[k..];
  }

  /** Filtering distributes over concatenation: the kept elements of the
      first part all come before the kept elements of the second part. */
  lemma {:induction false} FilterConcat<T>(a: seq<T>, b: seq<T>, p: T -> bool)
    ensures Filter(a + b, p) == Filter(a, p) + Filter(b, p)
  {
    if a == [] {
      assert a + b == b;
    } else {
      var h := if p(a[0]) then [a[0]] else [];
      calc {
        Filter(a + b, p);
        == { assert a + b == [a[0]] + (a[1..] + b); FilterCons(a[0], a[1..] + b, p); }
        h + Filter(a[1..] + b, p);
        == { FilterConcat(a[1..], b, p); }
        h + (Filter(a[1..], p) + Filter(b, p));
        == { AppendAssoc(h, Filter(a[1..], p), Filter(b, p)); }
        (h + Filter(a[1..], p)) + Filter(b, p);
        == { assert a == [a[0]] + a[1..]; FilterCons(a[0], a[1..], p); }
        Filter(a, p) + Filter(b, p);
      }
    }
  }

  lemma AppendAssoc<T>(x: seq<T>, y: seq<T>, z: seq<T>)
    ensures x + (y + z) == (x + y) + z
  {
  }

  /** Filtering a sequence with a given head: the head is kept exactly
      when it passes. */
  lemma FilterCons<T>(x: T, s: seq<T>, p: T -> bool)
    ensures Filter([x] + s, p) == (if p(x) then [x] else []) + Filter(s, p)
  {
    assert ([x] + s)[0] == x;
    assert ([x] + s)[1..] == s;
  }

  /** A filter that every element passes returns the sequence unchanged. */
  lemma {:induction false} FilterAll<T>(s: seq<T>, p: T -> bool)
    requires forall i :: 0 <= i < |s| ==> p(s[i])
    ensures Filter(s, p) == s
  {
    if s != [] {
      FilterAll(s[1..], p);
    }
  }

  /** A filter that no element passes returns the empty sequence. */
  lemma {:induction false} FilterNone<T>(s: seq<T>, p: T -> bool)
    requires forall i :: 0 <= i < |s| ==> !p(s[i])
    ensures Filter(s, p) == []
  {
    if s != [] {
      FilterNone(s[1..], p);
    }
  }

  /** Two predicates that agree on every element of `s` filter it alike. */
  lemma {:induction false} FilterExt<T>(s: seq<T>, p: T -> bool, q: T -> bool)
    requires forall i :: 0 <= i < |s| ==> p(s[i]) == q(s[i])
    ensures Filter(s, p) == Filter(s, q)
  {
    if s != [] {
      FilterExt(s[1..], p, q);
    }
  }

  /** When `r` holds exactly where one of the exclusive predicates `p`, `q`
      holds, filtering by `r` keeps the union of what `p` and `q` keep. */
  lemma {:induction false} FilterUnion<T>(s: seq<T>, p: T -> bool, q: T -> bool, r: T -> bool)
    requires forall i :: 0 <= i < |s| ==> r(s[i]) == (p(s[i]) || q(s[i]))
    requires forall i :: 0 <= i < |s| ==> !(p(s[i]) && q(s[i]))
    ensures multiset(Filter(s, r)) == multiset(Filter(s, p)) + multiset(Filter(s, q))
  {
    if s != [] {
      var x := s[0];
      assert s == [x] + s[1..];
      FilterCons(x, s[1..], p);
      FilterCons(x, s[1..], q);
      FilterCons(x, s[1..], r);
      FilterUnion(s[1..], p, q, r);
    }
  }

  /** The sum of `f` over `s`; real addition is exact and associative, so
      this equals the left fold the app computes. */
  function SumBy<T>(s: seq<T>, f: T -> real): real {
    if s == [] then 0.0 else f(s[0]) + SumBy(s[1..], f)
  }

  /** Swift's `reduce(acc) { $0 + f($1) }`: a left-to-right running total. */
  function Reduce<T>(acc: real, s: seq<T>, f: T -> real): real
    decreases |s|
  {
    if s == [] then acc else Reduce(acc + f(s[0]), s[1..], f)
  }

  /** The running total from `acc` ends at `acc` plus the sum. */
  lemma {:induction false} ReduceIsSumBy<T>(acc: real, s: seq<T>, f: T -> real)
    ensures Reduce(acc, s, f) == acc + SumBy(s, f)
    decreases |s|
  {
    if s != [] {
      ReduceIsSumBy(acc + f(s[0]), s[1..], f);
    }
  }

  /** Summing the kept elements is summing every element with the dropped
      ones counted as zero, `g` being that masked function. */
  lemma {:induction false} SumByFilter<T>(s: seq<T>, f: T -> real, p: T -> bool, g: T -> real)
    requires forall i :: 0 <= i < |s| ==> g(s[i]) == if p(s[i]) then f(s[i]) else 0.0
    ensures SumBy(Filter(s, p), f) == SumBy(s, g)
  {
    if s != [] {
      var head := if p(s[0]) then [s[0]] else [];
      SumByFilter(s[1..], f, p, g);
      assert s == [s[0]] + s[1..];
      FilterCons(s[0], s[1..], p);
      SumByConcat(head, Filter(s[1..], p), f);
      assert SumBy(head, f) == g(s[0]) by {
        if p(s[0]) {
          assert head[1..] == [];
        }
      }
    }
  }

  lemma {:induction false} SumByConcat<T>(a: seq<T>, b: seq<T>, f: T -> real)
    ensures SumBy(a + b, f) == SumBy(a, f) + SumBy(b, f)
  {
    if a == [] {
      assert a + b == b;
    } else {
      assert (a + b)[0] == a[0];
      assert (a + b)[1..] == a[1..] + b;
      SumByConcat(a[1..], b, f);
    }
  }

  /** Splitting a list by `p` splits its sum: the part that passes plus the
      part that fails add up to the whole. */
  lemma {:induction false} SumByPartition<T>(s: seq<T>, f: T -> real, p: T -> bool, q: T -> bool)
    requires forall i :: 0 <= i < |s| ==> q(s[i]) == !p(s[i])
    ensures SumBy(s, f) == SumBy(Filter(s, p), f) + SumBy(Filter(s, q), f)
  {
    if s != [] {
      SumByPartition(s[1..], f, p, q);
      var head := if p(s[0]) then [s[0]] else [];
      var tail := if q(s[0]) then [s[0]] else [];
      SumByConcat(head, Filter(s[1..], p), f);
      SumByConcat(tail, Filter(s[1..], q), f);
    }
  }
}

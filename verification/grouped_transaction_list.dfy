/** The grouped transaction list: transactions grouped by the start of
    their day, one section per day, the newest day first. */
module GroupedTransactionList {
  import opened Ledger
  import opened Dates
  import opened Seqs

  function DayOf(t: Transaction): int {
    StartOfDay(t.date)
  }

  ghost predicate StrictlyDescending(keys: seq<int>) {
    forall i, j :: 0 <= i < j < |keys| ==> keys[i] > keys[j]
  }

  /** `keys` with `k` added unless already present, still strictly
      descending. */
  function InsertKey(k: int, keys: seq<int>): (r: seq<int>)
    requires StrictlyDescending(keys)
    ensures StrictlyDescending(r)
    ensures forall x :: x in r <==> x == k || x in keys
    decreases |keys|
  {
    if keys == [] then [k]
    else if k == keys[0] then keys
    else if k > keys[0] then [k] + keys
    else
      var rest := InsertKey(k, keys[1..]);
      assert forall x :: x in keys <==> x == keys[0] || x in keys[1..];
      forall x | x in rest ensures x < keys[0] {
        if x != k {
          var j :| 0 <= j < |keys[1..]| && keys[1..][j] == x;
          assert keys[0] > keys[j + 1];
        }
      }
      ConsDescending(keys[0], rest);
      [keys[0]] + rest
  }

  /** Putting a key larger than every key of a strictly descending
      sequence in front keeps it strictly descending. */
  lemma ConsDescending(k: int, keys: seq<int>)
    requires StrictlyDescending(keys)
    requires forall x :: x in keys ==> x < k
    ensures StrictlyDescending([k] + keys)
  {
    var r := [k] + keys;
    forall i, j | 0 <= i < j < |r| ensures r[i] > r[j] {
      assert r[j] == keys[j - 1];
      assert keys[j - 1] in keys;
      if i > 0 {
        assert r[i] == keys[i - 1];
      }
    }
  }

  /** The section keys: every distinct day, newest first. */
  function DayKeys(txs: seq<Transaction>): (keys: seq<int>)
    ensures StrictlyDescending(keys)
    ensures forall i :: 0 <= i < |txs| ==> DayOf(txs[i]) in keys
    ensures forall j :: 0 <= j < |keys| ==> exists i :: 0 <= i < |txs| && DayOf(txs[i]) == keys[j]
  {
    if txs == [] then []
    else
      var rest := DayKeys(txs[1..]);
      var keys := InsertKey(DayOf(txs[0]), rest);
      DayKeysStep(txs, rest, keys);
      keys
  }

  /** The key facts of `DayKeys` carry over from the tail's keys to the
      keys with the first transaction's day added. */
  lemma DayKeysStep(txs: seq<Transaction>, rest: seq<int>, keys: seq<int>)
    requires txs != []
    requires forall i :: 0 <= i < |txs[1..]| ==> DayOf(txs[1..][i]) in rest
    requires forall j :: 0 <= j < |rest| ==> exists i :: 0 <= i < |txs[1..]| && DayOf(txs[1..][i]) == rest[j]
    requires forall x :: x in keys <==> x == DayOf(txs[0]) || x in rest
    ensures forall i :: 0 <= i < |txs| ==> DayOf(txs[i]) in keys
    ensures forall j :: 0 <= j < |keys| ==> exists i :: 0 <= i < |txs| && DayOf(txs[i]) == keys[j]
  {
    forall j | 0 <= j < |keys| ensures exists i :: 0 <= i < |txs| && DayOf(txs[i]) == keys[j] {
      if keys[j] == DayOf(txs[0]) {
        assert DayOf(txs[0]) == keys[j];
      } else {
        assert keys[j] in rest;
        var m :| 0 <= m < |rest| && rest[m] == keys[j];
        var i :| 0 <= i < |txs[1..]| && DayOf(txs[1..][i]) == rest[m];
        assert DayOf(txs[i + 1]) == keys[j];
      }
    }
    forall i | 0 <= i < |txs| ensures DayOf(txs[i]) in keys {
      if i > 0 {
        assert txs[i] == txs[1..][i - 1];
      }
    }
  }

  function OnDay(day: int): Transaction -> bool {
    (t: Transaction) => DayOf(t) == day
  }

  function InDays(days: seq<int>): Transaction -> bool {
    (t: Transaction) => DayOf(t) in days
  }

  datatype Section = Section(day: int, items: seq<Transaction>)

  /** One section per key, holding that day's transactions in input
      order. */
  function SectionsFor(txs: seq<Transaction>, keys: seq<int>): (r: seq<Section>)
    ensures |r| == |keys|
  {
    if keys == [] then []
    else [Section(keys[0], Filter(txs, OnDay(keys[0])))] + SectionsFor(txs, keys[1..])
  }

  /** Section `j` is the `j`-th key's day with that day's transactions in
      input order. */
  lemma {:induction false} SectionAt(txs: seq<Transaction>, keys: seq<int>, j: nat)
    requires j < |keys|
    ensures SectionsFor(txs, keys)[j] == Section(keys[j], Filter(txs, OnDay(keys[j])))
    decreases j
  {
    if j > 0 {
      SectionAt(txs, keys[1..], j - 1);
      assert keys[1..][j - 1] == keys[j];
    }
  }

  function Group(txs: seq<Transaction>): seq<Section> {
    SectionsFor(txs, DayKeys(txs))
  }

  function Flatten(sections: seq<Section>): seq<Transaction> {
    if sections == [] then [] else sections[0].items + Flatten(sections[1..])
  }

  /** Sections come newest day first with no day twice, and none is
      empty. */
  lemma SectionsOrderedAndNonEmpty(txs: seq<Transaction>)
    ensures forall i, j :: 0 <= i < j < |Group(txs)| ==> Group(txs)[i].day > Group(txs)[j].day
    ensures forall j :: 0 <= j < |Group(txs)| ==> Group(txs)[j].items != []
  {
    var keys := DayKeys(txs);
    forall i, j | 0 <= i < j < |keys| ensures Group(txs)[i].day > Group(txs)[j].day {
      SectionAt(txs, keys, i);
      SectionAt(txs, keys, j);
    }
    forall j | 0 <= j < |keys| ensures Group(txs)[j].items != [] {
      SectionNonEmpty(txs, j);
    }
  }

  /** Every key comes from some transaction, so no section is empty. */
  lemma SectionNonEmpty(txs: seq<Transaction>, j: nat)
    requires j < |Group(txs)|
    ensures Group(txs)[j].items != []
  {
    var keys := DayKeys(txs);
    SectionAt(txs, keys, j);
    var i :| 0 <= i < |txs| && DayOf(txs[i]) == keys[j];
    assert OnDay(keys[j])(txs[i]);
    assert txs[i] in Group(txs)[j].items;
  }

  /** A transaction is in a section exactly when the section's day is the
      start of the transaction's day; each section keeps input order. */
  lemma EachInItsDay(txs: seq<Transaction>, t: Transaction, j: nat)
    requires t in txs && j < |Group(txs)|
    ensures t in Group(txs)[j].items <==> Group(txs)[j].day == DayOf(t)
    ensures SubsequenceOf(Group(txs)[j].items, txs)
  {
    SectionAt(txs, DayKeys(txs), j);
    var day := Group(txs)[j].day;
    FilterSubsequence(txs, OnDay(day));
    if t in Group(txs)[j].items {
      var k :| 0 <= k < |Group(txs)[j].items| && Group(txs)[j].items[k] == t;
      assert OnDay(day)(t);
    }
    if day == DayOf(t) {
      var i :| 0 <= i < |txs| && txs[i] == t;
      assert OnDay(day)(txs[i]);
    }
  }

  /** Every transaction has a section. */
  lemma EveryTransactionHasSection(txs: seq<Transaction>, t: Transaction)
    requires t in txs
    ensures exists j :: 0 <= j < |Group(txs)| && Group(txs)[j].day == DayOf(t)
  {
    var keys := DayKeys(txs);
    var i :| 0 <= i < |txs| && txs[i] == t;
    var j :| 0 <= j < |keys| && keys[j] == DayOf(t);
    SectionAt(txs, keys, j);
    assert Group(txs)[j].day == DayOf(t);
  }

  /** A day is among distinct keys exactly when it is the first key or
      among the rest, and never both. */
  lemma SplitKeys(keys: seq<int>, d: int)
    requires keys != []
    requires forall i, j :: 0 <= i < j < |keys| ==> keys[i] != keys[j]
    ensures d in keys <==> d == keys[0] || d in keys[1..]
    ensures !(d == keys[0] && d in keys[1..])
  {
    assert keys == [keys[0]] + keys[1..];
    if d in keys[1..] {
      var m :| 0 <= m < |keys[1..]| && keys[1..][m] == d;
      assert keys[m + 1] == d;
    }
  }

  /** Over distinct keys, the flattened sections hold exactly the
      transactions whose day is one of the keys. */
  lemma {:induction false} FlattenHoldsKeyedDays(txs: seq<Transaction>, keys: seq<int>)
    requires forall i, j :: 0 <= i < j < |keys| ==> keys[i] != keys[j]
    ensures multiset(Flatten(SectionsFor(txs, keys))) == multiset(Filter(txs, InDays(keys)))
  {
    if keys == [] {
      FilterNone(txs, InDays(keys));
    } else {
      var tail := keys[1..];
      var sections := SectionsFor(txs, keys);
      FlattenHoldsKeyedDays(txs, tail);
      assert sections[1..] == SectionsFor(txs, tail);
      assert Flatten(sections) == sections[0].items + Flatten(SectionsFor(txs, tail));
      forall i | 0 <= i < |txs|
        ensures InDays(keys)(txs[i]) == (OnDay(keys[0])(txs[i]) || InDays(tail)(txs[i]))
        ensures !(OnDay(keys[0])(txs[i]) && InDays(tail)(txs[i]))
      {
        SplitKeys(keys, DayOf(txs[i]));
      }
      FilterUnion(txs, OnDay(keys[0]), InDays(tail), InDays(keys));
    }
  }

  /** The sections together are a permutation of the input. */
  lemma GroupIsPermutation(txs: seq<Transaction>)
    ensures multiset(Flatten(Group(txs))) == multiset(txs)
  {
    var keys := DayKeys(txs);
    FlattenHoldsKeyedDays(txs, keys);
    FilterAll(txs, InDays(keys));
  }
}

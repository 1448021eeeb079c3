/** The card detail screen: the reward shown on each recent transaction,
    the total rewards earned on the card, the card's perks by value and its
    recent transactions. */
module CardDetail {
  import opened Optional
  import opened Ledger
  import opened Rewards
  import opened Seqs
  import opened Sorting

  /** The reward on a transaction row: shown only when the transaction's
      card is a credit card. `card` is the transaction's card, resolved. */
  function RowReward(tx: Transaction, card: Option<Card>): (r: Option<real>)
    requires card.Some? <==> tx.card.Some?
    requires card.Some? ==> card.value.id == tx.card.value
    ensures r.Some? <==> tx.card.Some? && card.value.cardType == CreditCard
    ensures r.Some? ==> r.value == CalculateReward(card.value, tx)
  {
    match card
    case None => None
    case Some(c) => if c.cardType != CreditCard then None else Some(CalculateReward(c, tx))
  }

  /** The rewards a card earns over a list of transactions, in list order. */
  function RewardSum(card: Card, txs: seq<Transaction>): real {
    SumBy(txs, (tx: Transaction) => CalculateReward(card, tx))
  }

  /** The total rewards on a card: 0 for a debit card or a card with no
      transaction list, otherwise the sum of every transaction's reward.
      `txs` is the card's inverse transaction relationship. */
  method TotalRewards(card: Card, txs: Option<seq<Transaction>>) returns (total: real)
    ensures card.cardType != CreditCard || txs.None? ==> total == 0.0
    ensures card.cardType == CreditCard && txs.Some? ==> total == RewardSum(card, txs.value)
  {
    if card.cardType != CreditCard || txs.None? {
      return 0.0;
    }
    var list := txs.value;
    total := 0.0;
    var i := 0;
    while i < |list|
      invariant 0 <= i <= |list|
      invariant total == RewardSum(card, list[..i])
    {
      assert list[..i + 1] == list[..i] + [list[i]];
      RewardSumSnoc(card, list[..i], list[i]);
      total := total + CalculateReward(card, list[i]);
      i := i + 1;
    }
    assert list[..|list|] == list;
  }

  /** The reward sum over a list extended by one transaction adds that
      transaction's reward. */
  lemma RewardSumSnoc(card: Card, s: seq<Transaction>, x: Transaction)
    ensures RewardSum(card, s + [x]) == RewardSum(card, s) + CalculateReward(card, x)
  {
    SumByConcat(s, [x], (tx: Transaction) => CalculateReward(card, tx));
  }

  /** A card without perks earns nothing on any transaction list. */
  lemma {:induction false} NoPerksNoRewards(card: Card, txs: seq<Transaction>)
    requires card.perks.None?
    ensures RewardSum(card, txs) == 0.0
  {
    if txs != [] {
      NoPerksNoRewards(card, txs[1..]);
    }
  }

  /** The perks of `card`, highest value first. */
  function PerksOnCard(allPerks: seq<Perk>, card: Card): (r: seq<Perk>)
    ensures SortedDescBy(r, (p: Perk) => p.value)
    ensures forall i :: 0 <= i < |r| ==> r[i].card == card.id
    ensures forall i :: 0 <= i < |allPerks| && allPerks[i].card == card.id ==> allPerks[i] in r
    ensures multiset(r) <= multiset(allPerks)
    ensures multiset(r) == multiset(Filter(allPerks, (p: Perk) => p.card == card.id))
  {
    var mine := Filter(allPerks, (p: Perk) => p.card == card.id);
    var r := SortByDesc(mine, (p: Perk) => p.value);
    forall i | 0 <= i < |r| ensures r[i].card == card.id {
      assert r[i] in multiset(mine);
    }
    forall i | 0 <= i < |allPerks| && allPerks[i].card == card.id ensures allPerks[i] in r {
      assert allPerks[i] in multiset(r);
    }
    r
  }

  function CardTransactions(txs: seq<Transaction>, card: Card): seq<Transaction> {
    Filter(txs, (t: Transaction) => OnCard(t, card))
  }

  function DateKey(t: Transaction): real {
    t.date as real
  }

  /** Up to five of a sequence. */
  function TakeFive<T>(s: seq<T>): (r: seq<T>)
    ensures |r| == if |s| < 5 then |s| else 5
    ensures r == s[..|r|]
  {
    if |s| < 5 then s else s[..5]
  }

  /** Every element of a reordering of the card's transactions is a
      transaction of the store on this card. */
  lemma SortedOnCard(txs: seq<Transaction>, card: Card, sorted: seq<Transaction>)
    requires multiset(sorted) == multiset(CardTransactions(txs, card))
    ensures forall i :: 0 <= i < |sorted| ==> OnCard(sorted[i], card) && sorted[i] in txs
  {
    var mine := CardTransactions(txs, card);
    forall i | 0 <= i < |sorted| ensures OnCard(sorted[i], card) && sorted[i] in txs {
      assert sorted[i] in multiset(mine);
      var j :| 0 <= j < |mine| && mine[j] == sorted[i];
    }
  }

  /** The card's "recent" transactions as written: sorted by date
      ascending and cut at five. */
  function RecentTransactionsAsWritten(txs: seq<Transaction>, card: Card): (r: seq<Transaction>)
    ensures |r| == if |CardTransactions(txs, card)| < 5 then |CardTransactions(txs, card)| else 5
    ensures SortedBy(r, DateKey)
    ensures forall i :: 0 <= i < |r| ==> OnCard(r[i], card) && r[i] in txs
    ensures multiset(r) <= multiset(CardTransactions(txs, card))
  {
    var sorted := SortBy(CardTransactions(txs, card), DateKey);
    SortedOnCard(txs, card, sorted);
    var r := TakeFive(sorted);
    PrefixSorted(sorted, DateKey, |r|);
    PrefixMultiset(sorted, |r|);
    r
  }

  /** The card's recent transactions: sorted by date descending and cut at
      five. */
  function RecentTransactions(txs: seq<Transaction>, card: Card): (r: seq<Transaction>)
    ensures |r| == if |CardTransactions(txs, card)| < 5 then |CardTransactions(txs, card)| else 5
    ensures SortedDescBy(r, DateKey)
    ensures forall i :: 0 <= i < |r| ==> OnCard(r[i], card) && r[i] in txs
    ensures multiset(r) <= multiset(CardTransactions(txs, card))
  {
    var sorted := SortByDesc(CardTransactions(txs, card), DateKey);
    SortedOnCard(txs, card, sorted);
    var r := TakeFive(sorted);
    PrefixSortedDesc(sorted, DateKey, |r|);
    PrefixMultiset(sorted, |r|);
    r
  }

  /** As written, the list holds the OLDEST of the card's transactions: no
      card transaction left out is older than one shown. */
  lemma AsWrittenShowsOldest(txs: seq<Transaction>, card: Card, x: Transaction)
    requires x in txs && OnCard(x, card) && x !in RecentTransactionsAsWritten(txs, card)
    ensures forall y :: y in RecentTransactionsAsWritten(txs, card) ==> y.date <= x.date
  {
    var sorted := SortBy(CardTransactions(txs, card), DateKey);
    assert x in multiset(CardTransactions(txs, card));
    PrefixHoldsSmallest(sorted, DateKey, |RecentTransactionsAsWritten(txs, card)|, x);
  }

  /** The list holds the NEWEST of the card's transactions: no card
      transaction left out is newer than one shown. */
  lemma RecentAreNewest(txs: seq<Transaction>, card: Card, x: Transaction)
    requires x in txs && OnCard(x, card)
    ensures x !in RecentTransactions(txs, card) ==>
              forall y :: y in RecentTransactions(txs, card) ==> y.date >= x.date
  {
    if x !in RecentTransactions(txs, card) {
      var sorted := SortByDesc(CardTransactions(txs, card), DateKey);
      assert x in multiset(CardTransactions(txs, card));
      PrefixHoldsLargest(sorted, DateKey, |RecentTransactions(txs, card)|, x);
    }
  }

  /** A card transaction strictly newer than all the card's others is
      always among the recent ones. */
  lemma NewestIsShown(txs: seq<Transaction>, card: Card, x: Transaction)
    requires x in txs && OnCard(x, card)
    requires forall y :: y in txs && OnCard(y, card) && y != x ==> y.date < x.date
    ensures x in RecentTransactions(txs, card)
  {
    var k :| 0 <= k < |txs| && txs[k] == x;
    assert x in CardTransactions(txs, card);
    var r := RecentTransactions(txs, card);
    RecentAreNewest(txs, card, x);
    assert r[0] in r;
  }

  /** When the card's transactions already come in increasing date order,
      the as-written list is their first five. */
  lemma AsWrittenTakesFirstFive(txs: seq<Transaction>, card: Card)
    requires var m := CardTransactions(txs, card);
             |m| >= 5 && SortedBy(m, DateKey)
    ensures RecentTransactionsAsWritten(txs, card) == CardTransactions(txs, card)[..5]
  {
    SortSortedIsIdentity(CardTransactions(txs, card), DateKey);
  }

  /** With six or more card transactions in strictly increasing date order,
      the as-written list leaves out the newest one. */
  lemma AsWrittenHidesNewest(txs: seq<Transaction>, card: Card)
    requires var m := CardTransactions(txs, card);
             |m| >= 6 && forall i, j :: 0 <= i < j < |m| ==> m[i].date < m[j].date
    ensures var m := CardTransactions(txs, card);
            m[|m| - 1] !in RecentTransactionsAsWritten(txs, card)
            && m[|m| - 1] in RecentTransactions(txs, card)
  {
    var m := CardTransactions(txs, card);
    var newest := m[|m| - 1];
    AsWrittenTakesFirstFive(txs, card);
    forall i | 0 <= i < 5 ensures m[..5][i] != newest {
      assert m[..5][i] == m[i];
    }
    LastIsStrictlyNewest(txs, card);
    NewestIsShown(txs, card, newest);
  }

  /** When the card's transactions come in strictly increasing date order,
      the last is newer than every other transaction on the card. */
  lemma LastIsStrictlyNewest(txs: seq<Transaction>, card: Card)
    requires var m := CardTransactions(txs, card);
             m != [] && forall i, j :: 0 <= i < j < |m| ==> m[i].date < m[j].date
    ensures var m := CardTransactions(txs, card);
            && m[|m| - 1] in txs && OnCard(m[|m| - 1], card)
            && forall y :: y in txs && OnCard(y, card) && y != m[|m| - 1] ==> y.date < m[|m| - 1].date
  {
    var m := CardTransactions(txs, card);
    var newest := m[|m| - 1];
    forall y | y in txs && OnCard(y, card) && y != newest ensures y.date < newest.date {
      var k :| 0 <= k < |txs| && txs[k] == y;
      assert y in m;
      var j :| 0 <= j < |m| && m[j] == y;
      assert j < |m| - 1;
    }
  }
}

/** The card's transaction list: the transactions charged to one card, the
    optional date filter from the toolbar, and the list it displays. */
module CardTransactionList {
  import opened Optional
  import opened Ledger
  import opened Dates
  import opened Seqs
  import TransactionList

  /** The card's transactions in store order: the query that sorted by date
      is replaced by one that only filters. */
  function CardBase(all: seq<Transaction>, card: Card): (r: seq<Transaction>)
    ensures forall i :: 0 <= i < |r| ==> r[i] in all && OnCard(r[i], card)
    ensures forall i :: 0 <= i < |all| && OnCard(all[i], card) ==> all[i] in r
    ensures SubsequenceOf(r, all)
  {
    FilterSubsequence(all, (t: Transaction) => OnCard(t, card));
    Filter(all, (t: Transaction) => OnCard(t, card))
  }

  /** The screen as written: the emptiness checks use the filtered list,
      but the grouped list is handed the unfiltered one. */
  function CardScreenAsWritten(all: seq<Transaction>, card: Card, filterOn: bool, start: int, endDay: int)
    : (r: TransactionList.Screen)
    ensures r.NoTransactions? <==> CardBase(all, card) == []
    ensures r.NoMatches? <==> CardBase(all, card) != [] && NoneMatch(all, card, filterOn, start, endDay)
    ensures r.Grouped? <==> TransactionList.Filtered(CardBase(all, card), filterOn, start, endDay) != []
    ensures r.Grouped? ==> r.shown == CardBase(all, card)
  {
    var base := CardBase(all, card);
    var filtered := TransactionList.Filtered(base, filterOn, start, endDay);
    CardFilterEmptyExactly(all, card, filterOn, start, endDay);
    if base == [] then TransactionList.NoTransactions
    else if filtered == [] then TransactionList.NoMatches
    else TransactionList.Grouped(base)
  }

  /** The screen showing the filtered list. */
  function CardScreen(all: seq<Transaction>, card: Card, filterOn: bool, start: int, endDay: int)
    : (r: TransactionList.Screen)
    ensures r.NoTransactions? <==> CardBase(all, card) == []
    ensures r.NoMatches? <==> CardBase(all, card) != [] && NoneMatch(all, card, filterOn, start, endDay)
    ensures r.Grouped? <==> TransactionList.Filtered(CardBase(all, card), filterOn, start, endDay) != []
    ensures r.Grouped? ==> r.shown == TransactionList.Filtered(CardBase(all, card), filterOn, start, endDay)
    ensures r.Grouped? ==> forall i :: 0 <= i < |r.shown| ==> OnCard(r.shown[i], card)
    ensures r.Grouped? && filterOn ==> forall i :: 0 <= i < |r.shown| ==> InRange(r.shown[i].date, start, endDay)
    ensures r.Grouped? ==> multiset(r.shown) <= multiset(all)
    ensures r.Grouped? ==> forall t :: t in all && OnCard(t, card) && (filterOn ==> InRange(t.date, start, endDay)) ==> t in r.shown
  {
    var filtered := TransactionList.Filtered(CardBase(all, card), filterOn, start, endDay);
    CardFilterEmptyExactly(all, card, filterOn, start, endDay);
    CardFilterKeepsMatches(all, card, filterOn, start, endDay);
    CardFilterSound(all, card, filterOn, start, endDay);
    TransactionList.ScreenFor(CardBase(all, card), filtered)
  }

  /** The card's list after the date filter holds only transactions on the
      card, and with the filter on only those in range. */
  lemma CardFilterSound(all: seq<Transaction>, card: Card, filterOn: bool, start: int, endDay: int)
    ensures var filtered := TransactionList.Filtered(CardBase(all, card), filterOn, start, endDay);
            && (forall i :: 0 <= i < |filtered| ==> OnCard(filtered[i], card))
            && (filterOn ==> forall i :: 0 <= i < |filtered| ==> InRange(filtered[i].date, start, endDay))
  {
    var base := CardBase(all, card);
    var filtered := TransactionList.Filtered(base, filterOn, start, endDay);
    forall i | 0 <= i < |filtered| ensures OnCard(filtered[i], card) {
      var k :| 0 <= k < |base| && base[k] == filtered[i];
    }
  }

  /** No transaction of `all` on the card survives the date filter: with
      the filter off there is none on the card at all. */
  predicate NoneMatch(all: seq<Transaction>, card: Card, filterOn: bool, start: int, endDay: int) {
    forall t :: t in all && OnCard(t, card) ==> filterOn && !InRange(t.date, start, endDay)
  }

  /** The card's list after the date filter is empty exactly when no
      transaction on the card passes the filter. */
  lemma CardFilterEmptyExactly(all: seq<Transaction>, card: Card, filterOn: bool, start: int, endDay: int)
    ensures TransactionList.Filtered(CardBase(all, card), filterOn, start, endDay) == []
            <==> NoneMatch(all, card, filterOn, start, endDay)
  {
    var filtered := TransactionList.Filtered(CardBase(all, card), filterOn, start, endDay);
    CardFilterKeepsMatches(all, card, filterOn, start, endDay);
    if filtered != [] {
      CardFilterSound(all, card, filterOn, start, endDay);
      var t := filtered[0];
      assert t in multiset(all);
      assert t in all && OnCard(t, card) && (filterOn ==> InRange(t.date, start, endDay));
    }
  }

  /** The card's list after the date filter holds nothing beyond `all`, and
      every transaction of `all` on the card and (when filtering) in range. */
  lemma CardFilterKeepsMatches(all: seq<Transaction>, card: Card, filterOn: bool, start: int, endDay: int)
    ensures var filtered := TransactionList.Filtered(CardBase(all, card), filterOn, start, endDay);
            && multiset(filtered) <= multiset(all)
            && forall t :: t in all && OnCard(t, card) && (filterOn ==> InRange(t.date, start, endDay)) ==> t in filtered
  {
  }

  /** The two screens pick the same state; they differ only in which list
      the grouped state shows, and agree when the filter is off. */
  lemma ScreensAgreeOnState(all: seq<Transaction>, card: Card, filterOn: bool, start: int, endDay: int)
    ensures CardScreenAsWritten(all, card, filterOn, start, endDay).NoTransactions?
            == CardScreen(all, card, filterOn, start, endDay).NoTransactions?
    ensures CardScreenAsWritten(all, card, filterOn, start, endDay).NoMatches?
            == CardScreen(all, card, filterOn, start, endDay).NoMatches?
    ensures !filterOn ==> CardScreenAsWritten(all, card, filterOn, start, endDay)
                          == CardScreen(all, card, filterOn, start, endDay)
  {
  }

  /** With the filter on and one card transaction in range, a card
      transaction outside the range is still displayed as written, and
      hidden by the filtered screen. */
  lemma AsWrittenShowsFilteredOut(all: seq<Transaction>, card: Card, start: int, endDay: int, inside: nat, outside: nat)
    requires inside < |all| && OnCard(all[inside], card) && InRange(all[inside].date, start, endDay)
    requires outside < |all| && OnCard(all[outside], card) && !InRange(all[outside].date, start, endDay)
    ensures var r := CardScreenAsWritten(all, card, true, start, endDay);
            r.Grouped? && all[outside] in r.shown
    ensures var r := CardScreen(all, card, true, start, endDay);
            r.Grouped? && all[outside] !in r.shown
  {
    var base := CardBase(all, card);
    var filtered := TransactionList.Filtered(base, true, start, endDay);
    assert all[inside] in base;
    var j :| 0 <= j < |base| && base[j] == all[inside];
    assert all[inside] in filtered;
  }
}

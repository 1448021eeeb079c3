/** The transaction list screen: every transaction newest first, the
    optional date filter, and the choice between the two empty messages and
    the grouped list. */
module TransactionList {
  import opened Ledger
  import opened Dates
  import opened Seqs
  import opened Sorting
  import DateWindow

  function DateKey(t: Transaction): real {
    t.date as real
  }

  /** All transactions by date, newest first. */
  function BaseList(all: seq<Transaction>): (r: seq<Transaction>)
    ensures SortedDescBy(r, DateKey)
    ensures multiset(r) == multiset(all)
  {
    SortByDesc(all, DateKey)
  }

  /** The date filter: off, the list is returned as it is; on, exactly the
      transactions from `start` through the whole of `endDay` are kept, in
      their order. */
  function Filtered(base: seq<Transaction>, filterOn: bool, start: int, endDay: int): (r: seq<Transaction>)
    ensures !filterOn ==> r == base
    ensures filterOn ==> forall i :: 0 <= i < |r| ==> r[i] in base && InRange(r[i].date, start, endDay)
    ensures filterOn ==> forall i :: 0 <= i < |base| && InRange(base[i].date, start, endDay) ==> base[i] in r
    ensures SubsequenceOf(r, base)
    ensures |r| <= |base|
  {
    if !filterOn then
      SubsequenceOfSelf(base);
      base
    else
      FilterSubsequence(base, (t: Transaction) => InRange(t.date, start, endDay));
      DateWindow.Window(base, start, endDay)
  }

  /** The date range the filter opens with: from the start of the day thirty
      days ago through today. */
  function InitialRange(now: int): (r: (int, int))
    ensures r.0 % SecondsPerDay == 0 && r.1 % SecondsPerDay == 0
    ensures r.1 - r.0 == 30 * SecondsPerDay
    ensures InRange(now, r.0, r.1) && InRange(now - 30 * SecondsPerDay, r.0, r.1)
  {
    var r := (StartOfDay(now - 30 * SecondsPerDay), StartOfDay(now));
    StartOfDayCharacterised(now, r.0 + 30 * SecondsPerDay);
    r
  }

  datatype Screen = NoTransactions | NoMatches | Grouped(shown: seq<Transaction>)

  /** Which view the screen shows for a base list and the list the filter
      keeps. */
  function ScreenFor(base: seq<Transaction>, filtered: seq<Transaction>): (r: Screen)
    ensures r.NoTransactions? <==> base == []
    ensures r.NoMatches? <==> base != [] && filtered == []
    ensures r.Grouped? ==> r.shown == filtered && r.shown != []
  {
    if base == [] then NoTransactions
    else if filtered == [] then NoMatches
    else Grouped(filtered)
  }

  /** The screen as written: the flag that turns the filter on is never set
      on this screen (the date pickers are shown, but only the card screen's
      toolbar toggles its own flag), so the chosen range is ignored. */
  function ListScreenAsWritten(all: seq<Transaction>, start: int, endDay: int): (r: Screen)
    ensures r.NoTransactions? <==> all == []
    ensures !r.NoMatches?
    ensures r.Grouped? ==> SortedDescBy(r.shown, DateKey) && multiset(r.shown) == multiset(all)
  {
    var base := BaseList(all);
    assert |base| == |multiset(base)| == |multiset(all)| == |all|;
    ScreenFor(base, Filtered(base, false, start, endDay))
  }

  /** The screen with the chosen range applied. */
  function ListScreen(all: seq<Transaction>, start: int, endDay: int): (r: Screen)
    ensures r.NoTransactions? <==> all == []
    ensures r.Grouped? ==> forall i :: 0 <= i < |r.shown| ==> InRange(r.shown[i].date, start, endDay)
    ensures r.Grouped? ==> SortedDescBy(r.shown, DateKey) && multiset(r.shown) <= multiset(all)
    ensures r.Grouped? ==> forall t :: t in all && InRange(t.date, start, endDay) ==> t in r.shown
  {
    var base := BaseList(all);
    assert |base| == |multiset(base)| == |multiset(all)| == |all|;
    var filtered := Filtered(base, true, start, endDay);
    SubsequenceSortedDesc(filtered, base, DateKey);
    SubsequenceMultiset(filtered, base);
    forall t | t in all && InRange(t.date, start, endDay) ensures t in filtered {
      assert t in multiset(base);
      var k :| 0 <= k < |base| && base[k] == t;
    }
    ScreenFor(base, filtered)
  }

  /** "No matches" is shown exactly when there are transactions but none
      in the chosen range. */
  lemma NoMatchesExactly(all: seq<Transaction>, start: int, endDay: int)
    ensures ListScreen(all, start, endDay).NoMatches?
            <==> all != [] && forall i :: 0 <= i < |all| ==> !InRange(all[i].date, start, endDay)
  {
    var base := BaseList(all);
    var f := Filtered(base, true, start, endDay);
    if ListScreen(all, start, endDay).NoMatches? {
      forall i | 0 <= i < |all| ensures !InRange(all[i].date, start, endDay) {
        assert all[i] in multiset(base);
      }
    }
  }

  /** As written, any transaction at all is listed whatever range the user
      picked, while the filtered screen hides one outside the range. */
  lemma AsWrittenIgnoresRange(all: seq<Transaction>, start: int, endDay: int, k: nat)
    requires k < |all| && !InRange(all[k].date, start, endDay)
    ensures ListScreenAsWritten(all, start, endDay).Grouped?
    ensures all[k] in ListScreenAsWritten(all, start, endDay).shown
    ensures !(ListScreen(all, start, endDay).Grouped? && all[k] in ListScreen(all, start, endDay).shown)
  {
    var base := BaseList(all);
    assert all[k] in multiset(base);
  }
}

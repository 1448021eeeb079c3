/** The date window the summary, budget and list screens share: a
    transaction is in the window when its date is on or after `start` and
    before the day after `endDay`. */
module DateWindow {
  import opened Ledger
  import opened Dates
  import Seqs

  function Window(txs: seq<Transaction>, start: int, endDay: int): (r: seq<Transaction>)
    ensures forall i :: 0 <= i < |r| ==> r[i] in txs && InRange(r[i].date, start, endDay)
    ensures forall i :: 0 <= i < |txs| && InRange(txs[i].date, start, endDay) ==> txs[i] in r
    ensures multiset(r) <= multiset(txs)
    ensures |r| <= |txs|
  {
    Seqs.Filter(txs, (t: Transaction) => InRange(t.date, start, endDay))
  }

  /** This month so far: from the first day of the month through the whole
      of today. `monthStart` is the first instant of the current month and
      `now` the current instant. */
  function MonthWindow(txs: seq<Transaction>, monthStart: int, now: int): (r: seq<Transaction>)
    ensures forall i :: 0 <= i < |r| ==>
              r[i] in txs && monthStart <= r[i].date && StartOfDay(r[i].date) <= StartOfDay(now)
    ensures forall i :: 0 <= i < |txs| ==>
              (monthStart <= txs[i].date && StartOfDay(txs[i].date) <= StartOfDay(now) ==> txs[i] in r)
    ensures forall i :: 0 <= i < |txs| && monthStart <= txs[i].date <= now ==> txs[i] in r
  {
    var today := StartOfDay(now);
    var r := Window(txs, monthStart, today);
    forall i | 0 <= i < |r|
      ensures r[i] in txs && monthStart <= r[i].date && StartOfDay(r[i].date) <= today
    {
      EndDayIncluded(monthStart, today, r[i].date);
    }
    forall i | 0 <= i < |txs| && monthStart <= txs[i].date && StartOfDay(txs[i].date) <= today
      ensures txs[i] in r
    {
      EndDayIncluded(monthStart, today, txs[i].date);
    }
    r
  }
}

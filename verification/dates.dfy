/** Calendar arithmetic as the views use it, on dates counted in seconds.
    A day is a fixed 86 400 seconds starting at a multiple of that length
    (one fixed time zone, no daylight-saving shifts). */
module Dates {

  const SecondsPerDay: int := 86400

  /** The first instant of the day holding `t` (`Calendar.startOfDay`). */
  function StartOfDay(t: int): (d: int)
    ensures d <= t < d + SecondsPerDay
    ensures d % SecondsPerDay == 0
  {
    t - t % SecondsPerDay
  }

  /** `t` moved one day later (`date(byAdding: .day, value: 1, to:)`). */
  function AddOneDay(t: int): (r: int)
    ensures r - t == SecondsPerDay
  {
    t + SecondsPerDay
  }

  /** The half-open window every date filter in the app uses: from `start`
      (inclusive) up to the start of the day after `endDay` (exclusive). */
  predicate InRange(t: int, start: int, endDay: int) {
    start <= t < AddOneDay(endDay)
  }

  /** Two instants fall on the same day exactly when they share a start of
      day, and the start of a day is its own start of day. */
  lemma StartOfDayCharacterised(t: int, d: int)
    requires d <= t < d + SecondsPerDay
    requires d % SecondsPerDay == 0
    ensures StartOfDay(t) == d
  {
    var s := StartOfDay(t);
    assert s % SecondsPerDay == 0;
    assert (s - d) % SecondsPerDay == 0;
    assert -SecondsPerDay < s - d < SecondsPerDay;
  }

  lemma StartOfDayIdempotent(t: int)
    ensures StartOfDay(StartOfDay(t)) == StartOfDay(t)
  {
    StartOfDayCharacterised(StartOfDay(t), StartOfDay(t));
  }

  /** For an end day given as a start of day, the window's end is the start
      of the next day, so the whole of the end day is inside the window. */
  lemma EndDayIncluded(start: int, endDay: int, t: int)
    requires endDay % SecondsPerDay == 0
    requires start <= t
    ensures InRange(t, start, endDay) <==> StartOfDay(t) <= endDay
  {
    var d := StartOfDay(t);
    if d > endDay {
      assert (d - endDay) % SecondsPerDay == 0;
    }
  }
}

/**
 The backtest window. Dates are whole day numbers and "now" is the day the
 script runs; both bounds default from yesterday, each on its own.
 */
module Window {
  import opened Base

  /** The length in days of the default look-back before yesterday. */
  const LookbackDays: int := 365

  /** A backtest period; nothing requires `start <= end`. */
  datatype Window = Window(start: int, end: int)

  /** The day before `now`: the last day whose market data is complete. */
  function Yesterday(now: int): int {
    now - 1
  }

  /**
   The window a backtest runs over: a supplied bound is used as given, a
   missing end is yesterday, and a missing start is a year before yesterday.
   */
  function BacktestWindow(now: int, start: Option<int>, end: Option<int>): (w: Window)
    ensures start.Some? ==> w.start == start.value
    ensures end.Some? ==> w.end == end.value
    ensures start.None? ==> w.start == Yesterday(now) - LookbackDays
    ensures end.None? ==> w.end == Yesterday(now)
  {
    var yesterday := Yesterday(now);
    var oneYearFromYesterday := yesterday - LookbackDays;
    Window(start.GetOr(oneYearFromYesterday), end.GetOr(yesterday))
  }

  /** With no dates supplied the window ends yesterday and spans 365 days. */
  lemma DefaultWindowIsTrailingYear(now: int)
    ensures BacktestWindow(now, None, None).end == now - 1
    ensures BacktestWindow(now, None, None).end - BacktestWindow(now, None, None).start == 365
  {
  }

  /**
   Each bound is chosen on its own: the start does not depend on the end
   argument and the end does not depend on the start argument.
   */
  lemma BoundsAreIndependent(now: int, s1: Option<int>, s2: Option<int>, e1: Option<int>, e2: Option<int>)
    ensures BacktestWindow(now, s1, e1).start == BacktestWindow(now, s1, e2).start
    ensures BacktestWindow(now, s1, e1).end == BacktestWindow(now, s2, e1).end
  {
  }

  /** A defaulted start is a year before yesterday even when an end is supplied. */
  lemma DefaultStartIgnoresSuppliedEnd(now: int, end: int)
    ensures BacktestWindow(now, None, Some(end)).start == now - 1 - 365
  {
  }

  /** Two supplied dates are kept as they are, whatever day it is and however they are ordered. */
  lemma SuppliedWindowIsVerbatim(now: int, start: int, end: int)
    ensures BacktestWindow(now, Some(start), Some(end)) == Window(start, end)
  {
  }

  /** The same day gives the same default window, and each day later moves it one day later. */
  lemma DefaultWindowShiftsWithClock(now: int, days: int)
    ensures BacktestWindow(now + days, None, None) ==
      Window(BacktestWindow(now, None, None).start + days, BacktestWindow(now, None, None).end + days)
  {
  }
}

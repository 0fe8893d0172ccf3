/** Business days in West Africa Time: the worker's `businessDayOf` and the API's
    `businessDayBounds` are written separately and must agree. Instants are whole milliseconds
    since the epoch, before or after it. */
module BusinessDay {

  const WAT_OFFSET_MS := 3_600_000
  const MINUTE_MS := 60_000
  const DAY_MS := 86_400_000

  /** A sales close, in minutes after midnight WAT. */
  type CloseMinutes = m: int | 0 <= m < 1440 witness 1140

  datatype Window = Window(startUtc: int, endUtc: int) {
    predicate Contains(t: int) {
      startUtc <= t < endUtc
    }
  }

  datatype DayRecord = DayRecord(periodDate: int, window: Window)

  /** Midnight of the UTC date of `t`: what setUTCHours(0, 0, 0, 0) leaves. */
  function DateOnly(t: int): int {
    t / DAY_MS * DAY_MS
  }

  function MinutesOfDay(t: int): int {
    t % DAY_MS / MINUTE_MS
  }

  function BusinessDayOf(instant: int, close: CloseMinutes): DayRecord {
    var wat := instant + WAT_OFFSET_MS;
    var shift := if MinutesOfDay(wat) >= close then 1 else 0;
    var periodWat := DateOnly(wat) + shift * DAY_MS;
    var endUtc := periodWat + close * MINUTE_MS - WAT_OFFSET_MS;
    DayRecord(periodWat, Window(endUtc - DAY_MS, endUtc))
  }

  function LastClosedBusinessDay(instant: int, close: CloseMinutes): DayRecord {
    BusinessDayOf(instant - DAY_MS, close)
  }

  function BusinessDayBounds(periodDate: int, close: CloseMinutes): Window {
    var endUtc := DateOnly(periodDate) + close * MINUTE_MS - WAT_OFFSET_MS;
    Window(endUtc - DAY_MS, endUtc)
  }

  /** The window of a date-only period date. */
  predicate IsBusinessWindow(w: Window, periodDate: int, close: CloseMinutes) {
    periodDate % DAY_MS == 0 && w == BusinessDayBounds(periodDate, close)
  }

  /** The worker's window is the API's window for the same period date, and it holds the instant. */
  lemma ImplementationsAgree(t: int, close: CloseMinutes)
    ensures var day := BusinessDayOf(t, close);
            IsBusinessWindow(day.window, day.periodDate, close) && day.window.Contains(t)
  {
    var wat := t + WAT_OFFSET_MS;
    var inDay := wat % DAY_MS;
    assert wat == DateOnly(wat) + inDay;
    assert (inDay / MINUTE_MS >= close) <==> (inDay >= close * MINUTE_MS);
    var day := BusinessDayOf(t, close);
    assert day.periodDate % DAY_MS == 0 && DateOnly(day.periodDate) == day.periodDate;
  }

  /** An instant lies in no second window: the business days tile time. */
  lemma WindowIsUnique(t: int, close: CloseMinutes, p: int, q: int)
    requires p % DAY_MS == 0 && q % DAY_MS == 0
    requires BusinessDayBounds(p, close).Contains(t) && BusinessDayBounds(q, close).Contains(t)
    ensures p == q
  {
    assert DateOnly(p) == p && DateOnly(q) == q;
    assert -DAY_MS < p - q < DAY_MS;
    assert (p - q) % DAY_MS == 0;
  }

  /** Hence an instant belongs to a period date exactly when the worker files it there. */
  lemma FiledWhereItLies(t: int, close: CloseMinutes, p: int)
    requires p % DAY_MS == 0
    ensures BusinessDayBounds(p, close).Contains(t) <==> BusinessDayOf(t, close).periodDate == p
  {
    ImplementationsAgree(t, close);
    if BusinessDayBounds(p, close).Contains(t) {
      WindowIsUnique(t, close, p, BusinessDayOf(t, close).periodDate);
    }
  }

  /** The sweep seals the latest day already closed: its window has ended, and every window that
      has ended belongs to that day or an earlier one. */
  lemma LastClosedIsLatest(t: int, close: CloseMinutes, p: int)
    requires p % DAY_MS == 0
    ensures var day := LastClosedBusinessDay(t, close);
            && day.window.endUtc <= t
            && (BusinessDayBounds(p, close).endUtc <= t <==> p <= day.periodDate)
  {
    ImplementationsAgree(t - DAY_MS, close);
    var day := LastClosedBusinessDay(t, close);
    assert DateOnly(p) == p && DateOnly(day.periodDate) == day.periodDate;
    assert (p - day.periodDate) % DAY_MS == 0;
    assert p > day.periodDate ==> p - day.periodDate >= DAY_MS;
  }

  /** When the sweep seals a day: in the 24 hours after its close, and at no other time. */
  lemma SealedForOneDay(t: int, close: CloseMinutes, p: int)
    requires p % DAY_MS == 0
    ensures LastClosedBusinessDay(t, close).periodDate == p
            <==> BusinessDayBounds(p, close).endUtc <= t < BusinessDayBounds(p, close).endUtc + DAY_MS
  {
    var day := LastClosedBusinessDay(t, close);
    EndOfNext(p, close);
    LastClosedIsLatest(t, close, p);
    LastClosedIsLatest(t, close, p + DAY_MS);
    ImplementationsAgree(t - DAY_MS, close);
    SameDay(p, day.periodDate);
  }

  lemma EndOfNext(p: int, close: CloseMinutes)
    requires p % DAY_MS == 0
    ensures (p + DAY_MS) % DAY_MS == 0 && BusinessDayBounds(p + DAY_MS, close).endUtc == BusinessDayBounds(p, close).endUtc + DAY_MS
  {
    assert DateOnly(p) == p && DateOnly(p + DAY_MS) == p + DAY_MS;
  }

  lemma SameDay(p: int, q: int)
    requires p % DAY_MS == 0 && q % DAY_MS == 0
    ensures p <= q < p + DAY_MS <==> p == q
  {
    assert (q - p) % DAY_MS == 0;
  }

  /** The close is read from the draw template and an administrator can move it. Two consecutive
      days with different closes do not tile: moving the close later opens a gap that belongs to
      neither day, moving it earlier files the overlap under both. */
  lemma MovedCloseBreaksTiling(p: int, before: CloseMinutes, after: CloseMinutes)
    requires p % DAY_MS == 0
    ensures var w, w' := BusinessDayBounds(p, before), BusinessDayBounds(p + DAY_MS, after);
            && (w.endUtc == w'.startUtc <==> before == after)
            && (forall t :: w.startUtc <= t < w'.endUtc ==>
                  (!w.Contains(t) && !w'.Contains(t) <==> w.endUtc <= t < w'.startUtc))
            && (forall t :: w.Contains(t) && w'.Contains(t) <==> w'.startUtc <= t < w.endUtc)
  {
    assert DateOnly(p) == p && (p + DAY_MS) % DAY_MS == 0 && DateOnly(p + DAY_MS) == p + DAY_MS;
  }

  // ---------------------------------------------------------------- sums over days

  datatype Sale = Sale(confirmedAt: int, amountNgn: nat)

  /** The sum of the sales confirmed inside a window: the sweep's database query. */
  function SumIn(sales: seq<Sale>, w: Window): nat {
    if sales == [] then 0
    else (if w.Contains(sales[0].confirmedAt) then sales[0].amountNgn else 0) + SumIn(sales[1..], w)
  }

  /** The records of `days` consecutive days, added up. */
  function SumOfDays(sales: seq<Sale>, first: int, days: nat, close: CloseMinutes): nat {
    if days == 0 then 0
    else SumOfDays(sales, first, days - 1, close)
         + SumIn(sales, BusinessDayBounds(first + (days - 1) * DAY_MS, close))
  }

  lemma {:induction false} SumSplits(sales: seq<Sale>, a: int, b: int, c: int)
    requires a <= b <= c
    ensures SumIn(sales, Window(a, c)) == SumIn(sales, Window(a, b)) + SumIn(sales, Window(b, c))
  {
    if sales != [] {
      SumSplits(sales[1..], a, b, c);
    }
  }

  lemma {:induction false} SumEmptyWindow(sales: seq<Sale>, a: int)
    ensures SumIn(sales, Window(a, a)) == 0
  {
    if sales != [] {
      SumEmptyWindow(sales[1..], a);
    }
  }

  /** No sale is lost or counted twice: the sealed days of any run of consecutive days add up to
      the sales of the whole span. */
  lemma {:induction false} DaysAddUp(sales: seq<Sale>, first: int, days: nat, close: CloseMinutes)
    requires first % DAY_MS == 0
    ensures var start := BusinessDayBounds(first, close).startUtc;
            SumOfDays(sales, first, days, close) == SumIn(sales, Window(start, start + days * DAY_MS))
  {
    var start := BusinessDayBounds(first, close).startUtc;
    if days == 0 {
      SumEmptyWindow(sales, start);
    } else {
      DaysAddUp(sales, first, days - 1, close);
      SumSplits(sales, start, start + (days - 1) * DAY_MS, start + days * DAY_MS);
      var p := first + (days - 1) * DAY_MS;
      assert p % DAY_MS == 0 && DateOnly(p) == p && DateOnly(first) == first;
    }
  }
}

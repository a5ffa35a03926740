/** Calendar dates as the components compare them: an ISO `YYYY-MM-DD` string
    compares like the triple (year, month, day) in lexicographic order. */
module Calendar {

  datatype Date = Date(year: int, month: int, day: int)

  /** A date whose month and day fields are in range (day up to 31; the
      shorter months are not distinguished). */
  predicate ValidDate(d: Date) {
    1 <= d.month <= 12 && 1 <= d.day <= 31
  }

  /** `a < b` on the ISO strings. */
  predicate Before(a: Date, b: Date) {
    a.year < b.year
    || (a.year == b.year && a.month < b.month)
    || (a.year == b.year && a.month == b.month && a.day < b.day)
  }

  predicate NotAfter(a: Date, b: Date) {
    a == b || Before(a, b)
  }

  lemma BeforeTransitive(a: Date, b: Date, c: Date)
    requires Before(a, b) && Before(b, c)
    ensures Before(a, c)
  {
  }

  lemma NotAfterTransitive(a: Date, b: Date, c: Date)
    requires NotAfter(a, b) && NotAfter(b, c)
    ensures NotAfter(a, c)
  {
  }

  /** Any two dates are ordered one way or the other. */
  lemma Total(a: Date, b: Date)
    ensures NotAfter(a, b) || Before(b, a)
  {
  }

  /** A half-open range of dates `[start, end)`, as queried with
      `.gte(start).lt(end)`. */
  datatype Window = Window(start: Date, end: Date)

  predicate InWindow(d: Date, w: Window) {
    NotAfter(w.start, d) && Before(d, w.end)
  }

  /** The first day of the month `m` of year `y`. */
  function MonthStart(y: int, m: int): Date {
    Date(y, m, 1)
  }

  /** `[Y-M-01, first day of the next month)`; December rolls over to
      January of the next year. */
  function MonthWindow(y: int, m: int): (w: Window)
    requires 1 <= m <= 12
    ensures w.start == Date(y, m, 1)
    ensures m == 12 ==> w.end == Date(y + 1, 1, 1)
    ensures m < 12 ==> w.end == Date(y, m + 1, 1)
  {
    Window(MonthStart(y, m), if m == 12 then MonthStart(y + 1, 1) else MonthStart(y, m + 1))
  }

  /** The (year, month) before (y, m); January rolls back to December of the
      previous year. */
  function PrevMonth(y: int, m: int): (p: (int, int))
    requires 1 <= m <= 12
    ensures 1 <= p.1 <= 12
    ensures m == 1 ==> p == (y - 1, 12)
    ensures m > 1 ==> p == (y, m - 1)
  {
    if m == 1 then (y - 1, 12) else (y, m - 1)
  }

  /** `[first day of the previous month, Y-M-01)`. */
  function PrevMonthWindow(y: int, m: int): (w: Window)
    requires 1 <= m <= 12
    ensures w.end == MonthWindow(y, m).start
  {
    var p := PrevMonth(y, m);
    Window(MonthStart(p.0, p.1), MonthStart(y, m))
  }

  /** The month window holds exactly the valid dates of that month. */
  lemma MonthWindowExact(d: Date, y: int, m: int)
    requires 1 <= m <= 12 && ValidDate(d)
    ensures InWindow(d, MonthWindow(y, m)) <==> (d.year == y && d.month == m)
  {
  }

  /** The previous-month window holds exactly the valid dates of the previous
      month, across the January/December boundary too. */
  lemma PrevMonthWindowExact(d: Date, y: int, m: int)
    requires 1 <= m <= 12 && ValidDate(d)
    ensures InWindow(d, PrevMonthWindow(y, m)) <==> (d.year, d.month) == PrevMonth(y, m)
  {
  }

  /** The previous month's window of the month after (y, m) is the window
      of (y, m) itself. */
  lemma NextThenPrev(y: int, m: int)
    requires 1 <= m <= 12
    ensures var w := MonthWindow(y, m);
            var n := if m == 12 then (y + 1, 1) else (y, m + 1);
            PrevMonthWindow(n.0, n.1) == w
  {
  }
}

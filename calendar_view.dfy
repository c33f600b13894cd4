/** The month calendar (CalendarView.tsx). Dates follow the ECMAScript Date
    model: a local calendar day is a day number counted from 1 January 1970,
    years and months come from it by the proleptic Gregorian calendar, and
    `new Date(y, m, d)` first carries a month outside 0..11 into the year and
    then counts `d - 1` days on from the first of that month. How a
    timestamp maps to a local day is the time zone's business and is a
    parameter here. */
module CalendarView {
  import opened Util
  import opened Types

  // ------------------------------------------------------------ years

  predicate IsLeap(y: int) {
    y % 4 == 0 && (y % 100 != 0 || y % 400 == 0)
  }

  function DaysInYear(y: int): int {
    if IsLeap(y) then 366 else 365
  }

  /** The day number of 1 January of `y` (DayFromYear of the ECMAScript
      Date model; `/` with a positive divisor rounds down, as its floor does). */
  function DayFromYear(y: int): int {
    365 * (y - 1970) + (y - 1969) / 4 - (y - 1901) / 100 + (y - 1601) / 400
  }

  /** Stepping `a` by one raises `a / k` exactly when `a + 1` is a multiple
      of `k`. */
  lemma DivStep(a: int, k: int)
    requires k == 4 || k == 100 || k == 400
    ensures (a + 1) / k - a / k == if (a + 1) % k == 0 then 1 else 0
  {
    var q, r := a / k, a % k;
    assert a == k * q + r && 0 <= r < k;
    if r == k - 1 {
      assert a + 1 == k * (q + 1);
    } else {
      assert a + 1 == k * q + (r + 1);
    }
  }

  /** The leap-year counters of DayFromYear step at multiples of 4, 100
      and 400. */
  lemma StepBy4(y: int)
    ensures (y - 1968) / 4 - (y - 1969) / 4 == if y % 4 == 0 then 1 else 0
  {
    DivStep(y - 1969, 4);
    assert (y - 1968) % 4 == y % 4 by { assert y - 1968 == y - 4 * 492; }
  }

  lemma StepBy100(y: int)
    ensures (y - 1900) / 100 - (y - 1901) / 100 == if y % 100 == 0 then 1 else 0
    ensures y % 100 == 0 ==> y % 4 == 0
  {
    DivStep(y - 1901, 100);
    assert (y - 1900) % 100 == y % 100 by { assert y - 1900 == y - 100 * 19; }
    if y % 100 == 0 {
      var q := y / 100;
      assert y == 4 * (25 * q);
    }
  }

  lemma StepBy400(y: int)
    ensures (y - 1600) / 400 - (y - 1601) / 400 == if y % 400 == 0 then 1 else 0
    ensures y % 400 == 0 ==> y % 100 == 0
  {
    DivStep(y - 1601, 400);
    assert (y - 1600) % 400 == y % 400 by { assert y - 1600 == y - 400 * 4; }
    if y % 400 == 0 {
      var q := y / 400;
      assert y == 100 * (4 * q);
    }
  }

  /** A year is as long as the gap to the next. */
  lemma DayFromYearStep(y: int)
    ensures DayFromYear(y + 1) == DayFromYear(y) + DaysInYear(y)
  {
    StepBy4(y);
    StepBy100(y);
    StepBy400(y);
  }

  lemma {:induction false} DayFromYearMono(a: int, b: int)
    ensures a < b ==> DayFromYear(a + 1) <= DayFromYear(b)
    decreases if a < b then b - a else 0
  {
    if a + 1 < b {
      DayFromYearMono(a, b - 1);
      DayFromYearStep(b - 1);
    }
  }

  function YearUp(n: int, y: int): (r: int)
    requires DayFromYear(y) <= n
    ensures DayFromYear(r) <= n < DayFromYear(r + 1)
    decreases n - DayFromYear(y)
  {
    DayFromYearStep(y);
    if n < DayFromYear(y + 1) then y else YearUp(n, y + 1)
  }

  function YearDown(n: int, y: int): (r: int)
    requires n < DayFromYear(y + 1)
    ensures DayFromYear(r) <= n < DayFromYear(r + 1)
    decreases DayFromYear(y + 1) - n
  {
    DayFromYearStep(y - 1);
    if DayFromYear(y) <= n then y else YearDown(n, y - 1)
  }

  /** The year a day number falls in (YearFromTime). */
  function YearOf(n: int): (r: int)
    ensures DayFromYear(r) <= n < DayFromYear(r + 1)
  {
    if 0 <= n then YearUp(n, 1970)
    else
      assert DayFromYear(1970) == 0;
      YearDown(n, 1969)
  }

  /** Exactly one year holds a given day. */
  lemma YearOfUnique(n: int, y: int)
    requires DayFromYear(y) <= n < DayFromYear(y + 1)
    ensures YearOf(n) == y
  {
    DayFromYearMono(YearOf(n), y);
    DayFromYearMono(y, YearOf(n));
  }

  // ----------------------------------------------------------- months

  /** The days of months 0..11 (January is 0). */
  function DaysInMonth(y: int, m: int): (r: int)
    requires 0 <= m < 12
    ensures 28 <= r <= 31
  {
    if m == 1 then (if IsLeap(y) then 29 else 28)
    else [31, 28, 31, 30, 31, 30, 31, 31, 30, 31, 30, 31][m]
  }

  /** The days of a year before month `m`, for `m` in 0..12. */
  function DaysBeforeMonth(y: int, m: int): int
    requires 0 <= m <= 12
  {
    [0, 31, 59, 90, 120, 151, 181, 212, 243, 273, 304, 334, 365][m]
      + (if IsLeap(y) && m >= 2 then 1 else 0)
  }

  lemma DaysBeforeMonthStep(y: int, m: int)
    requires 0 <= m < 12
    ensures DaysBeforeMonth(y, m + 1) == DaysBeforeMonth(y, m) + DaysInMonth(y, m)
    ensures DaysBeforeMonth(y, 12) == DaysInYear(y) && DaysBeforeMonth(y, 0) == 0
  {
  }

  lemma DaysBeforeMonthMono(y: int, a: int, b: int)
    requires 0 <= a < b <= 11
    ensures DaysBeforeMonth(y, a + 1) <= DaysBeforeMonth(y, b)
  {
  }

  function MonthFrom(y: int, doy: int, m: int): (r: int)
    requires 0 <= m < 12 && DaysBeforeMonth(y, m) <= doy < DaysInYear(y)
    ensures m <= r < 12 && DaysBeforeMonth(y, r) <= doy < DaysBeforeMonth(y, r + 1)
    decreases 12 - m
  {
    if doy < DaysBeforeMonth(y, m + 1) || m == 11 then m else MonthFrom(y, doy, m + 1)
  }

  /** A calendar date: `month` 0..11 as `getMonth` reports it, `day` from 1. */
  datatype Date = Date(year: int, month: int, day: int)

  predicate ValidDate(d: Date) {
    0 <= d.month < 12 && 1 <= d.day <= DaysInMonth(d.year, d.month)
  }

  /** The day number of a valid date. */
  function DayNumber(d: Date): int
    requires 0 <= d.month < 12
  {
    DayFromYear(d.year) + DaysBeforeMonth(d.year, d.month) + d.day - 1
  }

  /** The date of the `doy`-th day (from 0) of year `y`. */
  function DateInYear(y: int, doy: int): (d: Date)
    requires 0 <= doy < DaysInYear(y)
    ensures ValidDate(d) && d.year == y && DaysBeforeMonth(y, d.month) + d.day - 1 == doy
  {
    DaysBeforeMonthStep(y, 0);
    var m := MonthFrom(y, doy, 0);
    DaysBeforeMonthStep(y, m);
    Date(y, m, doy - DaysBeforeMonth(y, m) + 1)
  }

  /** The month search stops at the month that holds the day. */
  lemma {:induction false} MonthFromFinds(y: int, doy: int, m0: int, m: int)
    requires 0 <= m0 <= m < 12 && DaysBeforeMonth(y, m0) <= doy < DaysInYear(y)
    requires DaysBeforeMonth(y, m) <= doy < DaysBeforeMonth(y, m + 1)
    ensures MonthFrom(y, doy, m0) == m
    decreases m - m0
  {
    if m0 < m {
      DaysBeforeMonthMono(y, m0, m);
      MonthFromFinds(y, doy, m0 + 1, m);
    }
  }

  /** Every valid date reads back from its place in its year. */
  lemma DateInYearOfDate(d: Date)
    requires ValidDate(d)
    ensures 0 <= DaysBeforeMonth(d.year, d.month) + d.day - 1 < DaysInYear(d.year)
    ensures DateInYear(d.year, DaysBeforeMonth(d.year, d.month) + d.day - 1) == d
  {
    var y := d.year;
    var doy := DaysBeforeMonth(y, d.month) + d.day - 1;
    DaysBeforeMonthStep(y, d.month);
    assert DaysBeforeMonth(y, d.month + 1) <= DaysInYear(y) by {
      if d.month + 1 < 12 { DaysBeforeMonthMono(y, d.month, 11); DaysBeforeMonthStep(y, 11); }
    }
    MonthFromFinds(y, doy, 0, d.month);
  }

  /** The date of a day number (`getFullYear`, `getMonth`, `getDate`). */
  function CivilOf(n: int): (d: Date)
    ensures ValidDate(d) && DayNumber(d) == n
  {
    var y := YearOf(n);
    DayFromYearStep(y);
    DateInYear(y, n - DayFromYear(y))
  }

  /** Every valid date reads back from its day number. */
  lemma CivilOfDayNumber(d: Date)
    requires ValidDate(d)
    ensures CivilOf(DayNumber(d)) == d
  {
    var n := DayNumber(d);
    var doy := DaysBeforeMonth(d.year, d.month) + d.day - 1;
    DateInYearOfDate(d);
    DayFromYearStep(d.year);
    assert n == DayFromYear(d.year) + doy;
    YearOfUnique(n, d.year);
    assert CivilOf(n) == DateInYear(d.year, doy);
  }

  /** `new Date(y, m, d)` on local days (MakeDay): the month is carried into
      the year first, then `d - 1` days are counted from the first. */
  function MakeDay(y: int, m: int, d: int): (r: int)
    ensures 0 <= m < 12 ==> r == DayNumber(Date(y, m, 1)) + d - 1
  {
    assert 0 <= m < 12 ==> m / 12 == 0 && m % 12 == m;
    DayNumber(Date(y + m / 12, m % 12, 1)) + d - 1
  }

  /** Inside a month, `new Date(y, m, d)` is the date y-m-d itself. */
  lemma MakeDayNamesDate(y: int, m: int, d: int)
    requires 0 <= m < 12 && 1 <= d <= DaysInMonth(y, m)
    ensures CivilOf(MakeDay(y, m, d)) == Date(y, m, d)
  {
    assert MakeDay(y, m, d) == DayNumber(Date(y, m, d));
    CivilOfDayNumber(Date(y, m, d));
  }

  /** The weekday of a day number, 0 for Sunday: 1 January 1970 was a Thursday. */
  function Weekday(n: int): (r: int)
    ensures 0 <= r < 7
  {
    (n + 4) % 7
  }

  lemma EpochIsThursday()
    ensures Weekday(DayNumber(Date(1970, 0, 1))) == 4
  {
  }

  // ------------------------------------------------------------- grid arithmetic

  /** `getDaysInMonth`: `daysInMonth` is the date of day 0 of the next month,
      `firstDayOfMonth` the weekday of day 1. */
  function MonthShape(y: int, m: int): (int, int) {
    (LastDate(y, m), FirstDayOfMonth(y, m))
  }

  function LastDate(y: int, m: int): (r: int)
    ensures 0 <= m < 12 ==> r == DaysInMonth(y, m)
  {
    assert 0 <= m < 12 ==> CivilOf(MakeDay(y, m + 1, 0)).day == DaysInMonth(y, m) by {
      if 0 <= m < 12 {
        LastDayOfMonth(y, m);
      }
    }
    CivilOf(MakeDay(y, m + 1, 0)).day
  }

  function FirstDayOfMonth(y: int, m: int): (r: int)
    ensures 0 <= r < 7
  {
    Weekday(MakeDay(y, m, 1))
  }

  /** Counting from the first of the next month is counting on from this
      month's days, December carrying into the next year. */
  lemma MakeDayNextMonth(y: int, m: int, d: int)
    requires 0 <= m < 12
    ensures MakeDay(y, m + 1, d) == DayNumber(Date(y, m, 1)) + DaysInMonth(y, m) + d - 1
  {
    DaysBeforeMonthStep(y, m);
    if m == 11 {
      assert (m + 1) / 12 == 1 && (m + 1) % 12 == 0;
      DayFromYearStep(y);
    } else {
      assert (m + 1) / 12 == 0 && (m + 1) % 12 == m + 1;
    }
  }

  /** Counting from the first of the month before, January borrowing from
      the previous year. */
  lemma MakeDayPrevMonth(y: int, m: int, d: int)
    requires 0 <= m < 12
    ensures MakeDay(y, m - 1, d) == DayNumber(Prev(y, m)) + d - 1
  {
    if m == 0 {
      assert (m - 1) / 12 == -1 && (m - 1) % 12 == 11;
    }
  }

  /** Day 0 of the next month is the last day of this one, December wrapping
      into January of the next year. */
  lemma LastDayOfMonth(y: int, m: int)
    requires 0 <= m < 12
    ensures CivilOf(MakeDay(y, m + 1, 0)) == Date(y, m, DaysInMonth(y, m))
  {
    MakeDayNextMonth(y, m, 0);
    assert MakeDay(y, m + 1, 0) == DayNumber(Date(y, m, DaysInMonth(y, m)));
    CivilOfDayNumber(Date(y, m, DaysInMonth(y, m)));
  }

  /** The first of the month whose weekday heads the grid. */
  lemma FirstDayIsWeekdayOfFirst(y: int, m: int)
    requires 0 <= m < 12
    ensures 0 <= FirstDayOfMonth(y, m) < 7
    ensures FirstDayOfMonth(y, m) == Weekday(DayNumber(Date(y, m, 1)))
  {
  }

  /** In a week of seven columns whose first cell is day 1's weekday, the
      cell of day `d` falls in the column of its own weekday. */
  lemma CellColumnIsWeekday(y: int, m: int, d: int)
    requires 0 <= m < 12 && 1 <= d
    ensures (FirstDayOfMonth(y, m) + d - 1) % 7 == Weekday(MakeDay(y, m, d))
  {
    var n := DayNumber(Date(y, m, 1));
    assert MakeDay(y, m, d) == n + d - 1;
    ModAdd(n + 4, d - 1);
  }

  lemma ModAdd(x: int, e: int)
    ensures (x % 7 + e) % 7 == (x + e) % 7
  {
    var q := x / 7;
    assert x + e == (x % 7 + e) + 7 * q;
    ModShift(x % 7 + e, q);
  }

  lemma {:induction false} ModShift(z: int, q: int)
    ensures (z + 7 * q) % 7 == z % 7
    decreases if q < 0 then -q else q
  {
    if q > 0 {
      ModShift(z, q - 1);
      assert z + 7 * q == (z + 7 * (q - 1)) + 7;
    } else if q < 0 {
      ModShift(z, q + 1);
      assert z + 7 * q == (z + 7 * (q + 1)) - 7;
    }
  }

  /** The month after (y, m), for m in 0..11. */
  function Next(y: int, m: int): Date
    requires 0 <= m < 12
  {
    if m == 11 then Date(y + 1, 0, 1) else Date(y, m + 1, 1)
  }

  /** The month before (y, m), for m in 0..11. */
  function Prev(y: int, m: int): Date
    requires 0 <= m < 12
  {
    if m == 0 then Date(y - 1, 11, 1) else Date(y, m - 1, 1)
  }

  /** `nextMonth` lands on the first of the following month. */
  lemma NextMonthTarget(y: int, m: int)
    requires 0 <= m < 12
    ensures CivilOf(MakeDay(y, m + 1, 1)) == Next(y, m)
  {
    MakeDayNextMonth(y, m, 1);
    NextIsAfter(y, m);
    var n := Next(y, m);
    assert MakeDay(y, m + 1, 1) == DayNumber(n);
    CivilOfDayNumber(n);
  }

  /** `prevMonth` lands on the first of the month before. */
  lemma PrevMonthTarget(y: int, m: int)
    requires 0 <= m < 12
    ensures CivilOf(MakeDay(y, m - 1, 1)) == Prev(y, m)
  {
    MakeDayPrevMonth(y, m, 1);
    CivilOfDayNumber(Prev(y, m));
  }

  /** Forward then back returns to the first of the month. */
  lemma PrevOfNext(y: int, m: int)
    requires 0 <= m < 12
    ensures Prev(Next(y, m).year, Next(y, m).month) == Date(y, m, 1)
  {
  }

  /** The first of the next month is the day after this month's last. */
  lemma NextIsAfter(y: int, m: int)
    requires 0 <= m < 12
    ensures DayNumber(Next(y, m)) == DayNumber(Date(y, m, 1)) + DaysInMonth(y, m)
  {
    DaysBeforeMonthStep(y, m);
    if m == 11 { DayFromYearStep(y); }
  }

  /** The next month's grid starts where this month's days run out. */
  lemma NextMonthStartsAfter(y: int, m: int)
    requires 0 <= m < 12
    ensures Weekday(DayNumber(Next(y, m))) == (FirstDayOfMonth(y, m) + DaysInMonth(y, m)) % 7
  {
    NextIsAfter(y, m);
    CellColumnIsWeekday(y, m, 1 + DaysInMonth(y, m));
    assert MakeDay(y, m, 1 + DaysInMonth(y, m)) == DayNumber(Next(y, m));
  }

  // ------------------------------------------------------------- day cells

  /** `getMemoriesForDay`: the memories whose local date is that day of the
      shown month and year, in order. */
  function MemoriesForDay(memories: seq<Memory>, localDate: int -> Date, y: int, m: int, day: int): (r: seq<Memory>)
    ensures IsSubseq(r, memories)
    ensures forall x :: x in r <==> x in memories && localDate(x.timestamp) == Date(y, m, day)
  {
    FilterIsSubseq(memories, DayKeep(localDate, y, m, day));
    Filter(memories, DayKeep(localDate, y, m, day))
  }

  /** The test `getMemoriesForDay` filters with. */
  function DayKeep(localDate: int -> Date, y: int, m: int, day: int): Memory -> bool {
    (x: Memory) => localDate(x.timestamp).day == day && localDate(x.timestamp).month == m
                   && localDate(x.timestamp).year == y
  }

  /** Each memory of that day is kept as often as it occurs, and no other. */
  lemma MemoriesForDayCounts(memories: seq<Memory>, localDate: int -> Date, y: int, m: int, day: int, x: Memory)
    ensures multiset(MemoriesForDay(memories, localDate, y, m, day))[x]
              == if localDate(x.timestamp) == Date(y, m, day) then multiset(memories)[x] else 0
  {
    FilterCount(memories, DayKeep(localDate, y, m, day), x);
  }

  /** One entry of a day cell. */
  datatype Chip = Chip(id: string, kind: MemoryType, text: string, bell: bool)

  /** Empty content shows as "Media Content"; a truthy reminder shows a bell. */
  function ChipOf(m: Memory): (c: Chip)
    ensures c.id == m.id && c.kind == m.kind
    ensures c.text != [] && (m.content != [] ==> c.text == m.content)
    ensures m.content == [] ==> c.text == "Media Content"
    ensures c.bell <==> m.reminderTimestamp.Some? && m.reminderTimestamp.value != 0
  {
    Chip(m.id, m.kind, if m.content == "" then "Media Content" else m.content,
         m.reminderTimestamp.Some? && m.reminderTimestamp.value != 0)
  }

  /** The chips of a list of memories, one each, in order. */
  function Chips(ms: seq<Memory>): (r: seq<Chip>)
    ensures |r| == |ms| && forall k :: 0 <= k < |ms| ==> r[k] == ChipOf(ms[k])
  {
    if ms == [] then [] else [ChipOf(ms[0])] + Chips(ms[1..])
  }

  const MaxChips := 4

  /** What a day cell shows: the count label for a non-empty day, the first
      four entries and a "+ N more" line for the rest. */
  datatype DayView = DayView(countLabel: Option<nat>, chips: seq<Chip>, more: Option<nat>)

  /** The shown entries and the "more" count together account for every
      memory of the day: at most four chips, the first ones in order, a
      count line exactly for a non-empty day and a "more" line exactly
      past four. */
  function ViewOf(ms: seq<Memory>): (r: DayView)
    ensures |r.chips| <= MaxChips
    ensures |r.chips| + r.more.GetOr(0) == |ms|
    ensures r.more.Some? <==> |ms| > MaxChips
    ensures r.countLabel.Some? <==> |ms| > 0
    ensures r.countLabel.Some? ==> r.countLabel.value == |ms|
    ensures forall k :: 0 <= k < |r.chips| ==> r.chips[k] == ChipOf(ms[k])
  {
    var shown := if |ms| <= MaxChips then ms else ms[..MaxChips];
    DayView(if |ms| > 0 then Some(|ms|) else None,
            Chips(shown), if |ms| > MaxChips then Some(|ms| - MaxChips) else None)
  }

  /** A cell of the grid: a padding cell, or a day with its highlight and
      the memories `getMemoriesForDay` found for it (shown as `ViewOf`). */
  datatype Cell =
    | Padding(index: nat)
    | DayCell(day: int, isToday: bool, memories: seq<Memory>)

  /** Today's cell is highlighted: same date, month and year as the clock. */
  predicate IsToday(day: int, y: int, m: int, today: Date) {
    day == today.day && m == today.month && y == today.year
  }

  /** The cell of day `d` of the month shown. */
  function CellFor(memories: seq<Memory>, localDate: int -> Date, y: int, m: int, today: Date, d: int): Cell {
    DayCell(d, IsToday(d, y, m, today), MemoriesForDay(memories, localDate, y, m, d))
  }

  /** Padding cells 0..n-1. */
  function PaddingCells(n: nat): seq<Cell> {
    if n == 0 then [] else PaddingCells(n - 1) + [Padding(n - 1)]
  }

  /** Day cells 1..n of the month shown. */
  function DayCells(memories: seq<Memory>, localDate: int -> Date, y: int, m: int, today: Date, n: nat): seq<Cell> {
    if n == 0 then [] else DayCells(memories, localDate, y, m, today, n - 1) + [CellFor(memories, localDate, y, m, today, n)]
  }

  /** The grid of the month shown: padding up to day 1's weekday, then the days. */
  function MonthGrid(memories: seq<Memory>, localDate: int -> Date, y: int, m: int, today: Date): seq<Cell>
    requires 0 <= m < 12
  {
    PaddingCells(FirstDayOfMonth(y, m)) + DayCells(memories, localDate, y, m, today, DaysInMonth(y, m))
  }

  lemma {:induction false} PaddingCellsAt(n: nat)
    ensures |PaddingCells(n)| == n && forall i :: 0 <= i < n ==> PaddingCells(n)[i] == Padding(i)
  {
    if n > 0 {
      PaddingCellsAt(n - 1);
    }
  }

  lemma {:induction false} DayCellsAt(memories: seq<Memory>, localDate: int -> Date, y: int, m: int, today: Date, n: nat)
    ensures |DayCells(memories, localDate, y, m, today, n)| == n
    ensures forall d :: 1 <= d <= n ==>
              DayCells(memories, localDate, y, m, today, n)[d - 1] == CellFor(memories, localDate, y, m, today, d)
  {
    if n > 0 {
      DayCellsAt(memories, localDate, y, m, today, n - 1);
    }
  }

  /** The grid is `firstDayOfMonth` padding cells followed by exactly
      `daysInMonth` day cells, day `d` in position `firstDayOfMonth + d - 1`,
      so in the column of its weekday. */
  lemma GridLayout(memories: seq<Memory>, localDate: int -> Date, y: int, m: int, today: Date)
    requires 0 <= m < 12
    ensures |MonthGrid(memories, localDate, y, m, today)| == FirstDayOfMonth(y, m) + DaysInMonth(y, m)
    ensures forall i :: 0 <= i < FirstDayOfMonth(y, m) ==> MonthGrid(memories, localDate, y, m, today)[i] == Padding(i)
    ensures forall d :: 1 <= d <= DaysInMonth(y, m) ==>
              MonthGrid(memories, localDate, y, m, today)[FirstDayOfMonth(y, m) + d - 1]
                == CellFor(memories, localDate, y, m, today, d)
  {
    var fd, n := FirstDayOfMonth(y, m), DaysInMonth(y, m);
    var pad, cells := PaddingCells(fd), DayCells(memories, localDate, y, m, today, n);
    PaddingCellsAt(fd);
    DayCellsAt(memories, localDate, y, m, today, n);
    assert MonthGrid(memories, localDate, y, m, today) == pad + cells;
    forall d | 1 <= d <= n
      ensures (pad + cells)[fd + d - 1] == CellFor(memories, localDate, y, m, today, d)
    {
      assert (pad + cells)[fd + d - 1] == cells[d - 1];
    }
  }

  /** The padding loop of `renderCalendarDays`. */
  method Paddings(n: nat) returns (days: seq<Cell>)
    ensures days == PaddingCells(n)
  {
    days := [];
    var i := 0;
    while i < n
      invariant 0 <= i <= n && days == PaddingCells(i)
    {
      days := days + [Padding(i)];
      i := i + 1;
    }
  }

  /** One iteration of the day loop: the day's memories and its highlight. */
  method RenderDay(memories: seq<Memory>, localDate: int -> Date, y: int, m: int, today: Date, day: int)
    returns (cell: Cell)
    ensures cell == CellFor(memories, localDate, y, m, today, day)
  {
    var dayMemories := MemoriesForDay(memories, localDate, y, m, day);
    var isToday := IsToday(day, y, m, today);
    cell := DayCell(day, isToday, dayMemories);
  }

  /** The day loop of `renderCalendarDays`: one cell per day 1..n. */
  method DayLoop(memories: seq<Memory>, localDate: int -> Date, y: int, m: int, today: Date, n: nat)
    returns (cells: seq<Cell>)
    ensures cells == DayCells(memories, localDate, y, m, today, n)
  {
    cells := [];
    var i := 0;
    while i < n
      invariant 0 <= i <= n && cells == DayCells(memories, localDate, y, m, today, i)
    {
      var day := i + 1;
      var cell := RenderDay(memories, localDate, y, m, today, day);
      cells := cells + [cell];
      i := i + 1;
    }
  }

  /** `renderCalendarDays`: `firstDayOfMonth` padding cells, then one cell
      per day 1..daysInMonth, with that day's memories of the month shown
      (year `y`, month `m`). */
  method RenderCalendarDays(memories: seq<Memory>, localDate: int -> Date, y: int, m: int, today: Date,
                            firstDayOfMonth: nat, daysInMonth: nat)
    returns (days: seq<Cell>)
    ensures days == PaddingCells(firstDayOfMonth) + DayCells(memories, localDate, y, m, today, daysInMonth)
  {
    days := Paddings(firstDayOfMonth);
    var cells := DayLoop(memories, localDate, y, m, today, daysInMonth);
    days := days + cells;
  }

  /** The month the calendar shows, held as the local day number of
      `currentDate`. */
  class Calendar {
    var current: int

    constructor (today: int)
      ensures current == today
    {
      current := today;
    }

    function Shown(): Date
      reads this
    {
      CivilOf(current)
    }

    /** `prevMonth`: the first of the month before. */
    method PrevMonth()
      modifies this
      ensures current == MakeDay(old(Shown()).year, old(Shown()).month - 1, 1)
      ensures Shown() == Prev(old(Shown()).year, old(Shown()).month)
    {
      var d := Shown();
      var target := MakeDay(d.year, d.month - 1, 1);
      PrevMonthTarget(d.year, d.month);
      ghost var shown := CivilOf(target);
      assert shown == Prev(d.year, d.month);
      current := target;
      assert Shown() == shown;
    }

    /** `nextMonth`: the first of the month after. */
    method NextMonth()
      modifies this
      ensures current == MakeDay(old(Shown()).year, old(Shown()).month + 1, 1)
      ensures Shown() == Next(old(Shown()).year, old(Shown()).month)
    {
      var d := Shown();
      var target := MakeDay(d.year, d.month + 1, 1);
      NextMonthTarget(d.year, d.month);
      ghost var shown := CivilOf(target);
      assert shown == Next(d.year, d.month);
      current := target;
      assert Shown() == shown;
    }

    /** The grid of the month shown, with `getDaysInMonth` taken of the
        current date. */
    method Render(memories: seq<Memory>, localDate: int -> Date, today: Date) returns (days: seq<Cell>)
      ensures days == MonthGrid(memories, localDate, Shown().year, Shown().month, today)
    {
      var d := CivilOf(current);
      var shape := MonthShape(d.year, d.month);
      days := RenderCalendarDays(memories, localDate, d.year, d.month, today, shape.1, shape.0);
    }

    /** The "Today" button. */
    method GoToday(today: int)
      modifies this
      ensures current == today
    {
      current := today;
    }
  }
}

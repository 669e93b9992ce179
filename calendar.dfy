/**
 * The month grid of admin_schedule_management (core/views.py): the month
 * shown, its first weekday and length by the proleptic Gregorian calendar
 * of Python's date type, and the loop that pads and chunks the month's
 * days into weeks of seven slots. A slot is None (padding) or Some(d),
 * the d-th day of the month.
 */
module Calendar {
  import opened Models

  // ------------------------------------------------------ the calendar

  predicate IsLeap(y: int)
  {
    y % 4 == 0 && (y % 100 != 0 || y % 400 == 0)
  }

  function DaysInMonth(y: int, m: int): (n: int)
    requires 1 <= m <= 12
    ensures 28 <= n <= 31
    ensures m == 2 ==> (n == 29 <==> IsLeap(y))
  {
    if m == 2 then (if IsLeap(y) then 29 else 28)
    else if m == 4 || m == 6 || m == 9 || m == 11 then 30
    else 31
  }

  /** Days of the year before the first of month m. */
  function DaysBeforeMonth(y: int, m: int): (n: int)
    requires 1 <= m <= 12
    ensures m == 12 ==> n == (if IsLeap(y) then 335 else 334)
    decreases m
  {
    if m == 1 then 0 else DaysBeforeMonth(y, m - 1) + DaysInMonth(y, m - 1)
  }

  /** Days before 1 January of year y, counting from 1 January of year 1. */
  function DaysBeforeYear(y: int): (n: int)
    requires y >= 1
  {
    var p := y - 1;
    365 * p + p / 4 - p / 100 + p / 400
  }

  predicate ValidDate(y: int, m: int, d: int)
  {
    1 <= y <= 9999 && 1 <= m <= 12 && 1 <= d <= DaysInMonth(y, m)
  }

  /** date.toordinal(): 1 January of year 1 is day 1. */
  function Ordinal(y: int, m: int, d: int): (n: int)
    requires ValidDate(y, m, d)
  {
    DaysBeforeYear(y) + DaysBeforeMonth(y, m) + d
  }

  /** date.weekday(): Monday is 0, and 1 January of year 1 was a Monday. */
  function Weekday(y: int, m: int, d: int): (w: int)
    requires ValidDate(y, m, d)
    ensures 0 <= w < 7
  {
    (Ordinal(y, m, d) + 6) % 7
  }

  /** A year has 366 days when it is a leap year and 365 otherwise. */
  lemma YearLength(y: int)
    requires y >= 1
    ensures DaysBeforeYear(y + 1) - DaysBeforeYear(y) == if IsLeap(y) then 366 else 365
  {
    var p := y - 1;
    DivStep(p, 4);
    DivStep(p, 100);
    DivStep(p, 400);
    LeapByMultiples(y);
    assert DaysBeforeYear(y + 1) == 365 * y + y / 4 - y / 100 + y / 400;
    assert DaysBeforeYear(y) == 365 * p + p / 4 - p / 100 + p / 400;
  }

  /** A multiple of 400 is a multiple of 100, and a multiple of 100 one of 4. */
  lemma LeapByMultiples(y: int)
    ensures y % 400 == 0 ==> y % 100 == 0
    ensures y % 100 == 0 ==> y % 4 == 0
  {
    var q, r := y / 100, y % 100;
    assert y == 100 * q + r;
    if y % 400 == 0 {
      var k := y / 400;
      assert y == 400 * k;
      assert 100 * (q - 4 * k) == -r;
    }
    if r == 0 {
      assert y == 4 * (25 * q);
    }
  }

  lemma DivStep(a: nat, q: int)
    requires q == 4 || q == 100 || q == 400
    ensures (a + 1) / q == a / q + (if (a + 1) % q == 0 then 1 else 0)
  {
    if q == 4 {
      var d, r := a / 4, a % 4;
      if r == 3 {
        assert a + 1 == 4 * (d + 1);
      } else {
        assert a + 1 == 4 * d + (r + 1);
      }
    } else if q == 100 {
      var d, r := a / 100, a % 100;
      if r == 99 {
        assert a + 1 == 100 * (d + 1);
      } else {
        assert a + 1 == 100 * d + (r + 1);
      }
    } else {
      var d, r := a / 400, a % 400;
      if r == 399 {
        assert a + 1 == 400 * (d + 1);
      } else {
        assert a + 1 == 400 * d + (r + 1);
      }
    }
  }

  /** The first of the next month is the day after the last day of this
      month; this is how the view finds the last day. */
  lemma NextMonthFollows(y: int, m: int)
    requires 1 <= y <= 9999 && 1 <= m <= 12 && !(y == 9999 && m == 12)
    ensures var (ny, nm) := NextMonth(y, m);
      ValidDate(ny, nm, 1) && ValidDate(y, m, DaysInMonth(y, m))
      && Ordinal(ny, nm, 1) == Ordinal(y, m, DaysInMonth(y, m)) + 1
  {
    if m == 12 {
      YearLength(y);
    }
  }

  /** Consecutive days of a month fall on consecutive weekdays. */
  lemma WeekdayOfDay(y: int, m: int, d: int)
    requires ValidDate(y, m, d)
    ensures Weekday(y, m, d) == (Weekday(y, m, 1) + d - 1) % 7
  {
    var a := Ordinal(y, m, 1) + 6;
    assert Ordinal(y, m, d) + 6 == a + (d - 1);
    ShiftMod(a, d - 1);
  }

  /** Two known dates: 1 January of year 1 was a Monday, and 15 October
      2026 is a Thursday. */
  lemma WeekdayAnchors()
    ensures ValidDate(1, 1, 1) && Weekday(1, 1, 1) == 0
    ensures ValidDate(2026, 10, 15) && Weekday(2026, 10, 15) == 3
  {
    assert DaysBeforeYear(2026) == 739616;
    assert DaysBeforeMonth(2026, 10) == 273;
  }

  lemma ShiftMod(a: int, b: int)
    ensures (a + b) % 7 == (a % 7 + b) % 7
  {
    var q := a / 7;
    assert a == 7 * q + a % 7;
    assert a + b == 7 * q + (a % 7 + b);
  }

  // --------------------------------------------------- the month shown

  /** The month after (y, m): one step further in the count of months. */
  function NextMonth(y: int, m: int): (ym: (int, int))
    requires 1 <= m <= 12
    ensures 1 <= ym.1 <= 12
    ensures 12 * ym.0 + ym.1 == 12 * y + m + 1
  {
    if m == 12 then (y + 1, 1) else (y, m + 1)
  }

  /** The month before (y, m): one step back in the count of months. */
  function PrevMonth(y: int, m: int): (ym: (int, int))
    requires 1 <= m <= 12
    ensures 1 <= ym.1 <= 12
    ensures 12 * ym.0 + ym.1 == 12 * y + m - 1
    ensures NextMonth(ym.0, ym.1) == (y, m)
  {
    if m == 1 then (y - 1, 12) else (y, m - 1)
  }

  /** Whether a number fits the C int that date() parses its arguments
      into; a larger one makes date() raise OverflowError. */
  predicate IsCInt(v: int)
  {
    -0x8000_0000 <= v < 0x8000_0000
  }

  /** The month the view shows for the `year` and `month` query fields, or
      None when the view fails. An absent field takes today's value. A field
      that does not parse, or a pair that is no month of years 1 to 9999,
      falls back to today's month; but a parsed value beyond a C int makes
      date() raise OverflowError, which the view does not catch. */
  function ShownMonth(year: Input<int>, month: Input<int>, todayYear: int, todayMonth: int)
    : (ym: Option<(int, int)>)
    requires 1 <= todayYear <= 9999 && 1 <= todayMonth <= 12
    ensures ym.Some? ==> 1 <= ym.value.0 <= 9999 && 1 <= ym.value.1 <= 12
    ensures year.Malformed? || month.Malformed? ==> ym == Some((todayYear, todayMonth))
    ensures ym.None? <==>
      (!year.Malformed? && !month.Malformed?
       && ((year.Given? && !IsCInt(year.value)) || (month.Given? && !IsCInt(month.value))))
    ensures year.Given? && month.Given? && 1 <= year.value <= 9999 && 1 <= month.value <= 12
      ==> ym == Some((year.value, month.value))
    ensures year.Absent? && month.Absent? ==> ym == Some((todayYear, todayMonth))
    ensures year.Absent? && month.Given? && 1 <= month.value <= 12 ==> ym == Some((todayYear, month.value))
    ensures year.Given? && 1 <= year.value <= 9999 && month.Absent? ==> ym == Some((year.value, todayMonth))
    ensures (year.Given? && IsCInt(year.value) && !(1 <= year.value <= 9999) && !month.Malformed?
             && (month.Given? ==> IsCInt(month.value))) ==> ym == Some((todayYear, todayMonth))
    ensures (month.Given? && IsCInt(month.value) && !(1 <= month.value <= 12) && !year.Malformed?
             && (year.Given? ==> IsCInt(year.value))) ==> ym == Some((todayYear, todayMonth))
  {
    if year.Malformed? || month.Malformed? then Some((todayYear, todayMonth))
    else
      var y := if year.Given? then year.value else todayYear;
      var m := if month.Given? then month.value else todayMonth;
      if !IsCInt(y) || !IsCInt(m) then None
      else if 1 <= y <= 9999 && 1 <= m <= 12 then Some((y, m))
      else Some((todayYear, todayMonth))
  }

  /** Whether the view can compute the neighbouring months: the day before
      1 January of year 1 and the days after 28 December 9999 are outside
      Python's date range, and the view fails there. */
  predicate Navigable(y: int, m: int)
  {
    !(y == 1 && m == 1) && !(y == 9999 && m == 12)
  }

  /** Whether the schedule view fails in its month code, which runs on every
      request, a POST included, before the form is reached. */
  predicate MonthFails(year: Input<int>, month: Input<int>, todayYear: int, todayMonth: int)
    requires 1 <= todayYear <= 9999 && 1 <= todayMonth <= 12
  {
    var shown := ShownMonth(year, month, todayYear, todayMonth);
    shown.None? || !Navigable(shown.value.0, shown.value.1)
  }

  /** The month code fails on a year beyond a C int and on the first and
      last months of the date range, and not on an ordinary month. */
  lemma MonthFailsExamples()
    ensures MonthFails(Given(3000000000), Given(1), 2026, 10)
    ensures MonthFails(Given(1), Given(1), 2026, 10)
    ensures MonthFails(Given(9999), Given(12), 2026, 10)
    ensures !MonthFails(Given(2026), Given(10), 2026, 10)
  {
  }

  // ------------------------------------------------------ the week grid

  function Blanks(n: nat): (s: seq<Option<int>>)
    ensures |s| == n && forall i :: 0 <= i < n ==> s[i] == None
  {
    seq(n, i => None)
  }

  /** Days 1 to n of a month, in order. */
  function Days(n: nat): (s: seq<Option<int>>)
    ensures |s| == n && forall i :: 0 <= i < n ==> s[i] == Some(i + 1)
  {
    seq(n, i => Some(i + 1))
  }

  /** Padding that brings n slots to a whole number of weeks. */
  function Trailing(n: nat): (t: nat)
    ensures t < 7 && (n + t) % 7 == 0
  {
    (7 - n % 7) % 7
  }

  function Flatten(weeks: seq<seq<Option<int>>>): (cells: seq<Option<int>>)
  {
    if weeks == [] then [] else Flatten(weeks[..|weeks| - 1]) + weeks[|weeks| - 1]
  }

  /** The grid of a month of `last` days starting on weekday `start`: whole
      weeks of seven slots which, read in order, are `start` blanks, the
      days 1 to last, then blanks to the end of the last week. */
  predicate IsGrid(weeks: seq<seq<Option<int>>>, start: nat, last: nat)
  {
    && (forall i :: 0 <= i < |weeks| ==> |weeks[i]| == 7)
    && Flatten(weeks) == Blanks(start) + Days(last) + Blanks(Trailing(start + last))
    && (weeks == [] <==> start + last == 0)
  }

  lemma FlattenAppend(weeks: seq<seq<Option<int>>>, w: seq<Option<int>>)
    ensures Flatten(weeks + [w]) == Flatten(weeks) + w
  {
    assert (weeks + [w])[..|weeks|] == weeks;
  }

  /** Slot k of the flattened grid is slot k % 7 of week k / 7. */
  lemma {:induction false} FlattenIndex(weeks: seq<seq<Option<int>>>, k: int)
    requires forall i :: 0 <= i < |weeks| ==> |weeks[i]| == 7
    ensures |Flatten(weeks)| == 7 * |weeks|
    ensures 0 <= k < 7 * |weeks| ==> Flatten(weeks)[k] == weeks[k / 7][k % 7]
  {
    if weeks != [] {
      var init := weeks[..|weeks| - 1];
      FlattenIndex(init, k);
      if 0 <= k < 7 * |weeks| && k >= 7 * |init| {
        assert k / 7 == |init|;
      }
    }
  }

  lemma {:induction false} WholeWeeks(w: nat, k: nat)
    ensures (7 * w + k) % 7 == k % 7
  {
    if w > 0 {
      WholeWeeks(w - 1, k);
      assert 7 * w + k == (7 * (w - 1) + k) + 7;
    }
  }

  /** A last week holding k of its seven slots needs 7 - k blanks. */
  lemma ClosingPad(w: nat, k: nat)
    requires 0 < k <= 7
    ensures 7 - k == Trailing(7 * w + k)
  {
    WholeWeeks(w, k);
  }

  /** admin_schedule_management's loop: blanks up to the first weekday,
      then each day in turn, starting a new week whenever seven slots are
      full, and blanks to close the last week. */
  method BuildWeeks(start: nat, last: nat) returns (weeks: seq<seq<Option<int>>>)
    requires start < 7
    ensures IsGrid(weeks, start, last)
  {
    weeks := [];
    var week := Blanks(start);
    var day := 1;
    while day <= last
      invariant 1 <= day <= last + 1
      invariant forall i :: 0 <= i < |weeks| ==> |weeks[i]| == 7
      invariant |week| <= 7
      invariant Flatten(weeks) + week == Blanks(start) + Days(day - 1)
      invariant week == [] ==> weeks == [] && start + day - 1 == 0
    {
      ghost var before := Flatten(weeks) + week;
      if |week| == 7 {
        FlattenAppend(weeks, week);
        weeks := weeks + [week];
        week := [];
      }
      assert Flatten(weeks) + week == before;
      week := week + [Some(day)];
      assert Flatten(weeks) + week == before + [Some(day)];
      DaysStep(day);
      day := day + 1;
    }
    if week != [] {
      CloseLastWeek(weeks, week, start, last);
      weeks := weeks + [week + Blanks(7 - |week|)];
    }
  }

  lemma DaysStep(n: nat)
    requires n >= 1
    ensures Days(n) == Days(n - 1) + [Some(n)]
  {
  }

  /** Padding the last, partly filled week completes the grid. */
  lemma CloseLastWeek(weeks: seq<seq<Option<int>>>, week: seq<Option<int>>, start: nat, last: nat)
    requires forall i :: 0 <= i < |weeks| ==> |weeks[i]| == 7
    requires 0 < |week| <= 7
    requires Flatten(weeks) + week == Blanks(start) + Days(last)
    ensures IsGrid(weeks + [week + Blanks(7 - |week|)], start, last)
  {
    var pad := Blanks(7 - |week|);
    PadFillsLastWeek(weeks, week, start, last);
    FlattenAppend(weeks, week + pad);
    assert Flatten(weeks) + (week + pad) == (Flatten(weeks) + week) + pad;
  }

  /** The blanks closing the last week are the trailing blanks of the month. */
  lemma PadFillsLastWeek(weeks: seq<seq<Option<int>>>, week: seq<Option<int>>, start: nat, last: nat)
    requires forall i :: 0 <= i < |weeks| ==> |weeks[i]| == 7
    requires 0 < |week| <= 7
    requires |Flatten(weeks) + week| == start + last
    ensures 7 - |week| == Trailing(start + last)
  {
    FlattenIndex(weeks, 0);
    ClosingPad(|weeks|, |week|);
  }

  lemma {:induction false} GridWeekCount(weeks: seq<seq<Option<int>>>, start: nat, last: nat)
    requires IsGrid(weeks, start, last) && start < 7 && 28 <= last <= 31
    ensures 4 <= |weeks| <= 6
  {
    FlattenIndex(weeks, 0);
    assert 7 * |weeks| == start + last + Trailing(start + last);
  }

  /** Day d of the month sits in week (start + d - 1) / 7, slot
      (start + d - 1) % 7. */
  lemma {:induction false} GridDaySlot(weeks: seq<seq<Option<int>>>, start: nat, last: nat, d: int)
    requires IsGrid(weeks, start, last) && 1 <= d <= last
    ensures 0 <= (start + d - 1) / 7 < |weeks|
    ensures weeks[(start + d - 1) / 7][(start + d - 1) % 7] == Some(d)
  {
    var k := start + d - 1;
    FlattenIndex(weeks, k);
    assert Flatten(weeks)[k] == Days(last)[d - 1];
  }

  /** The schedule view's week grid for the month it shows, or None when the
      view fails: on a year or month beyond a C int, or on a month at the
      edge of the date range. */
  method ScheduleWeeks(year: Input<int>, month: Input<int>, todayYear: int, todayMonth: int)
    returns (grid: Option<seq<seq<Option<int>>>>)
    requires 1 <= todayYear <= 9999 && 1 <= todayMonth <= 12
    ensures var shown := ShownMonth(year, month, todayYear, todayMonth);
      && (grid.Some? <==> shown.Some? && Navigable(shown.value.0, shown.value.1))
      && (grid.Some? ==> var (y, m) := shown.value; IsGrid(grid.value, Weekday(y, m, 1), DaysInMonth(y, m)))
  {
    var shown := ShownMonth(year, month, todayYear, todayMonth);
    if shown.None? {
      return None;
    }
    var (y, m) := shown.value;
    if !Navigable(y, m) {
      return None;
    }
    var weeks := BuildWeeks(Weekday(y, m, 1), DaysInMonth(y, m));
    grid := Some(weeks);
  }

  /** In the grid of a shown month, every day sits in the column of its own
      weekday. */
  lemma {:induction false} DayInItsColumn(weeks: seq<seq<Option<int>>>, y: int, m: int, d: int)
    requires ValidDate(y, m, d) && IsGrid(weeks, Weekday(y, m, 1), DaysInMonth(y, m))
    ensures var k := Weekday(y, m, 1) + d - 1;
      0 <= k / 7 < |weeks| && weeks[k / 7][Weekday(y, m, d)] == Some(d)
  {
    GridDaySlot(weeks, Weekday(y, m, 1), DaysInMonth(y, m), d);
    WeekdayOfDay(y, m, d);
  }
}

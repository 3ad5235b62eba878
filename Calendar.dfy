/*
 * The month calendar shared by the vehicle-scheduling modal and the dashboard: the
 * local date a JavaScript Date holds, the Gregorian rules that `new Date(y, m, d)`
 * applies, the Monday-first 35-cell month grid and `setMonth`.
 */
module Calendar {
  import opened Js

  /** A local calendar date as getFullYear, getMonth (0-based) and getDate report it. */
  datatype Date = Date(year: int, month: int, day: int)

  predicate IsLeapYear(y: int) {
    (y % 4 == 0 && y % 100 != 0) || y % 400 == 0
  }

  /** The number of days of month m (0-based) of year y, proleptic Gregorian calendar. */
  function DaysInMonth(y: int, m: int): (r: int)
    requires 0 <= m < 12
    ensures 28 <= r <= 31
    ensures r == 28 <==> m == 1 && !IsLeapYear(y)
    ensures r == 29 <==> m == 1 && IsLeapYear(y)
  {
    if m == 1 then (if IsLeapYear(y) then 29 else 28)
    else if m == 3 || m == 5 || m == 8 || m == 10 then 30
    else 31
  }

  predicate ValidDate(d: Date) {
    0 <= d.month < 12 && 1 <= d.day <= DaysInMonth(d.year, d.month)
  }

  /** Sakamoto's month offsets, indexed by the 0-based month. */
  const MonthOffsets: seq<int> := [0, 3, 2, 5, 0, 3, 5, 1, 4, 6, 2, 4]

  /** The day count the weekday rule charges for the years before yy, modulo 7. */
  function YearBase(yy: int): int {
    yy + yy / 4 - yy / 100 + yy / 400
  }

  /** Sakamoto's rule counts January and February with the previous year. */
  function RuleYear(y: int, m: int): int {
    if m < 2 then y - 1 else y
  }

  /** The weekday of a date, 0 = Sunday ... 6 = Saturday, as getDay reports it (Sakamoto's rule). */
  function DayOfWeek(y: int, m: int, d: int): (w: int)
    requires 0 <= m < 12
    ensures 0 <= w < 7
  {
    (YearBase(RuleYear(y, m)) + MonthOffsets[m] + d) % 7
  }

  /** `new Date(y, m, d)` reads a year 0..99 as 1900..1999. */
  function ConstructorYear(y: int): int {
    if 0 <= y <= 99 then 1900 + y else y
  }

  /** Adding a multiple of 7 inside a remainder changes nothing. */
  lemma ModShift(x: int, a: int, b: int, c: int)
    requires (a - b - c) % 7 == 0
    ensures (x + a) % 7 == ((x + b) % 7 + c) % 7
  {
    var k := (a - b - c) / 7;
    assert a == b + c + 7 * k;
  }

  /** Each year adds one weekday, and a leap year one more. */
  lemma YearBaseStep(y: int)
    ensures YearBase(y) - YearBase(y - 1) == if IsLeapYear(y) then 2 else 1
  {
    assert y / 4 - (y - 1) / 4 == if y % 4 == 0 then 1 else 0;
    assert y / 100 - (y - 1) / 100 == if y % 100 == 0 then 1 else 0;
    assert y / 400 - (y - 1) / 400 == if y % 400 == 0 then 1 else 0;
  }

  /**
   * The weekday rule and the month lengths agree: the first day of the next month falls
   * DaysInMonth(y, m) days after the first day of month m.
   */
  lemma NextMonthStartsAfterDaysInMonth(y: int, m: int)
    requires 0 <= m < 12
    ensures m < 11 ==> DayOfWeek(y, m + 1, 1) == (DayOfWeek(y, m, 1) + DaysInMonth(y, m)) % 7
    ensures m == 11 ==> DayOfWeek(y + 1, 0, 1) == (DayOfWeek(y, m, 1) + DaysInMonth(y, m)) % 7
  {
    var dim := DaysInMonth(y, m);
    if m == 1 {
      YearBaseStep(y);
      ModShift(YearBase(y - 1), YearBase(y) - YearBase(y - 1) + MonthOffsets[2] + 1, MonthOffsets[1] + 1, dim);
    } else if m == 11 {
      ModShift(YearBase(y), MonthOffsets[0] + 1, MonthOffsets[11] + 1, dim);
    } else {
      ModShift(YearBase(RuleYear(y, m)), MonthOffsets[m + 1] + 1, MonthOffsets[m] + 1, dim);
    }
  }

  // ---------------------------------------------------------------------------
  // getMonthData and the month grid
  // ---------------------------------------------------------------------------

  /** What getMonthData returns: firstDay is the Monday-first column of the 1st. */
  datatype MonthData = MonthData(year: int, month: int, firstDay: int, daysInMonth: int)

  /** Re-basing getDay to a Monday-first week: Sunday becomes 6, any other day k becomes k - 1. */
  function MondayFirst(w: int): int {
    if w == 0 then 6 else w - 1
  }

  function GetMonthData(date: Date): (md: MonthData)
    requires ValidDate(date)
  {
    var y := ConstructorYear(date.year);
    MonthData(date.year, date.month,
              MondayFirst(DayOfWeek(y, date.month, 1)),
              DaysInMonth(y, date.month))
  }

  /** The month data of a valid date: a 0..6 column and the Gregorian length of its month. */
  lemma GetMonthDataRanges(date: Date)
    requires ValidDate(date)
    ensures var md := GetMonthData(date);
      && 0 <= md.firstDay < 7
      && md.daysInMonth == DaysInMonth(ConstructorYear(date.year), date.month)
      && 28 <= md.daysInMonth <= 31
      && md.year == date.year && md.month == date.month
  {
  }

  /** The number of cells in the grid. */
  const GridCells: int := 35

  /** The day number cell i stands for (it may fall outside the month). */
  function DayNum(md: MonthData, i: int): int {
    i - md.firstDay + 1
  }

  predicate IsValidDay(md: MonthData, i: int) {
    0 < DayNum(md, i) <= md.daysInMonth
  }

  /** The cell is a valid day equal to the given current date. */
  predicate IsToday(md: MonthData, i: int, today: Date) {
    && IsValidDay(md, i)
    && DayNum(md, i) == today.day
    && md.month == today.month
    && md.year == today.year
  }

  /** Numbers that differ by a multiple of 7 fall on the same weekday. */
  lemma SameRemainder(a: int, b: int)
    requires (a - b) % 7 == 0
    ensures a % 7 == b % 7
  {
    var k := (a - b) / 7;
    assert a == b + 7 * k;
  }

  /** The Monday-first column of the weekday (c + 1) % 7 is c modulo 7. */
  lemma MondayFirstIsOneDayBack(c: int)
    ensures (c - MondayFirst((c + 1) % 7)) % 7 == 0
  {
  }

  /**
   * Every valid cell lies under the right weekday heading: columns run Monday (0) to
   * Sunday (6), so the weekday of the day in cell i is (i % 7 + 1) % 7.
   */
  lemma ValidCellsUnderTheirWeekday(date: Date, i: int)
    requires ValidDate(date)
    requires 0 <= i < GridCells
    requires IsValidDay(GetMonthData(date), i)
    ensures DayOfWeek(ConstructorYear(date.year), date.month, DayNum(GetMonthData(date), i)) == (i % 7 + 1) % 7
  {
    var y := ConstructorYear(date.year);
    var md := GetMonthData(date);
    var c := YearBase(RuleYear(y, date.month)) + MonthOffsets[date.month];
    assert DayOfWeek(y, date.month, 1) == (c + 1) % 7;
    assert DayOfWeek(y, date.month, DayNum(md, i)) == (c + DayNum(md, i)) % 7;
    ColumnWeekday(c, i, md.firstDay);
  }

  /** With the 1st in column f, the day in column i is i - f + 1 days on. */
  lemma ColumnWeekday(c: int, i: int, f: int)
    requires f == MondayFirst((c + 1) % 7)
    ensures (c + (i - f + 1)) % 7 == (i % 7 + 1) % 7
  {
    MondayFirstIsOneDayBack(c);
    SameRemainder(c + (i - f + 1), i + 1);
    SameRemainder(i + 1, i % 7 + 1);
  }

  /** The number of valid cells among the first n. */
  function ValidCellCount(md: MonthData, n: nat): nat {
    if n == 0 then 0 else ValidCellCount(md, n - 1) + (if IsValidDay(md, n - 1) then 1 else 0)
  }

  function Min(a: int, b: int): int {
    if a <= b then a else b
  }

  lemma {:induction false} ValidCellCountIs(md: MonthData, n: nat)
    requires 0 <= md.firstDay < 7 && md.daysInMonth >= 0
    ensures ValidCellCount(md, n) == if n <= md.firstDay then 0 else Min(md.daysInMonth, n - md.firstDay)
  {
    if n > 0 {
      ValidCellCountIs(md, n - 1);
    }
  }

  /** The cell of day d: the column of the 1st plus d - 1. */
  function CellOfDay(md: MonthData, d: int): int {
    md.firstDay + d - 1
  }

  /**
   * The 35 cells show the days 1, 2, ... in order, one per cell, and there are
   * min(daysInMonth, 35 - firstDay) of them: the grid drops the last days of a month
   * whose days do not fit after the first row's offset.
   */
  lemma ShownDays(md: MonthData)
    requires 0 <= md.firstDay < 7 && 28 <= md.daysInMonth <= 31
    ensures ValidCellCount(md, GridCells as nat) == Min(md.daysInMonth, GridCells - md.firstDay)
    ensures forall i :: 0 <= i < GridCells - 1 && IsValidDay(md, i) && IsValidDay(md, i + 1) ==>
              DayNum(md, i + 1) == DayNum(md, i) + 1
    ensures forall d :: 1 <= d <= Min(md.daysInMonth, GridCells - md.firstDay) ==>
              0 <= CellOfDay(md, d) < GridCells && IsValidDay(md, CellOfDay(md, d)) && DayNum(md, CellOfDay(md, d)) == d
    ensures forall d :: GridCells - md.firstDay < d <= md.daysInMonth ==> CellOfDay(md, d) >= GridCells
  {
    ValidCellCountIs(md, GridCells as nat);
  }

  /** In a six-week grid every day of the month has a cell. */
  const FullGridCells: int := 42

  lemma AllDaysFitSixWeeks(md: MonthData, d: int)
    requires 0 <= md.firstDay < 7 && 28 <= md.daysInMonth <= 31
    requires 1 <= d <= md.daysInMonth
    ensures 0 <= CellOfDay(md, d) < FullGridCells
    ensures IsValidDay(md, CellOfDay(md, d)) && DayNum(md, CellOfDay(md, d)) == d
  {
  }

  /** A month whose last day the 35-cell grid does not show: March 2025 starts on a Saturday. */
  lemma March2025LosesItsLastDay()
    ensures GetMonthData(Date(2025, 2, 1)) == MonthData(2025, 2, 5, 31)
    ensures ValidCellCount(GetMonthData(Date(2025, 2, 1)), GridCells as nat) == 30
  {
    var md := GetMonthData(Date(2025, 2, 1));
    assert DayOfWeek(2025, 2, 1) == 6;
    ValidCellCountIs(md, GridCells as nat);
  }

  // ---------------------------------------------------------------------------
  // The month header and changeMonth
  // ---------------------------------------------------------------------------

  const MonthNames: seq<string> := [
    "Janeiro", "Fevereiro", "Março", "Abril", "Maio", "Junho",
    "Julho", "Agosto", "Setembro", "Outubro", "Novembro", "Dezembro"
  ]

  /** The header label `monthNames[month] + ", " + year`. */
  function MonthLabel(md: MonthData): string
    requires 0 <= md.month < 12
  {
    MonthNames[md.month] + ", " + IntToString(md.year)
  }

  /** A label names its month and year: distinct months (or years) get distinct labels. */
  lemma MonthLabelDistinguishes(a: MonthData, b: MonthData)
    requires 0 <= a.month < 12 && 0 <= b.month < 12
    requires 0 <= a.year && 0 <= b.year
    requires MonthLabel(a) == MonthLabel(b)
    ensures a.month == b.month && a.year == b.year
  {
    MonthNamesWellFormed();
    SplitAtComma(MonthNames[a.month], MonthNames[b.month], NatToString(a.year), NatToString(b.year));
    ParseNatToString(a.year);
    ParseNatToString(b.year);
  }

  /** The twelve names are distinct and none holds a comma. */
  lemma MonthNamesWellFormed()
    ensures forall i :: 0 <= i < 12 ==> ',' !in MonthNames[i]
    ensures forall i, j :: 0 <= i < j < 12 ==> MonthNames[i] != MonthNames[j]
  {
  }

  /** A comma-free prefix before ", " is read back unambiguously, and so is the rest. */
  lemma SplitAtComma(n1: string, n2: string, r1: string, r2: string)
    requires ',' !in n1 && ',' !in n2
    requires n1 + ", " + r1 == n2 + ", " + r2
    ensures n1 == n2 && r1 == r2
  {
    var l := n1 + ", " + r1;
    assert l == n2 + ", " + r2;
    assert l[|n1|] == ',' && l[|n2|] == ',';
    assert forall j :: 0 <= j < |n1| ==> l[j] == n1[j];
    assert forall j :: 0 <= j < |n2| ==> l[j] == n2[j];
    assert |n1| == |n2|;
    assert n1 == l[..|n1|] == n2;
    assert r1 == l[|n1| + 2..] == r2;
  }

  /** The month count year * 12 + month. */
  function MonthIndex(d: Date): int {
    d.year * 12 + d.month
  }

  /**
   * `date.setMonth(monthValue)`: the month value is normalised into the year, the day of
   * the month is kept, and a day past the end of the target month runs over into the next.
   */
  function SetMonth(d: Date, monthValue: int): (r: Date)
    requires ValidDate(d)
    ensures ValidDate(r)
  {
    var y := d.year + monthValue / 12;
    var mo := monthValue % 12;
    var dim := DaysInMonth(y, mo);
    if d.day <= dim then Date(y, mo, d.day)
    else if mo == 11 then Date(y + 1, 0, d.day - dim)
    else Date(y, mo + 1, d.day - dim)
  }

  /** changeMonth(direction) as written: `newDate.setMonth(prev.getMonth() + direction)`. */
  function ChangeMonth(prev: Date, direction: int): (r: Date)
    requires ValidDate(prev)
    ensures ValidDate(r)
  {
    SetMonth(prev, prev.month + direction)
  }

  /**
   * As written, changeMonth lands on the intended month exactly when the current day
   * exists in it; otherwise it lands one month further.
   */
  lemma ChangeMonthAsWritten(prev: Date, direction: int)
    requires ValidDate(prev)
    ensures var target := prev.month + direction;
      var y := prev.year + target / 12;
      var r := ChangeMonth(prev, direction);
      && (prev.day <= DaysInMonth(y, target % 12) ==> MonthIndex(r) == MonthIndex(prev) + direction && r.day == prev.day)
      && (prev.day > DaysInMonth(y, target % 12) ==> MonthIndex(r) == MonthIndex(prev) + direction + 1)
  {
  }

  /** On 31 January 2025 the "next month" button skips February and shows March. */
  lemma ChangeMonthSkipsFebruary()
    ensures ChangeMonth(Date(2025, 0, 31), 1) == Date(2025, 2, 3)
  {
  }

  /** changeMonth as intended: the month moves by direction, the day is clamped to the month. */
  function ChangeMonthClamped(prev: Date, direction: int): (r: Date)
    requires ValidDate(prev)
    ensures ValidDate(r)
    ensures MonthIndex(r) == MonthIndex(prev) + direction
    ensures r.day == Min(prev.day, DaysInMonth(r.year, r.month))
  {
    var target := prev.month + direction;
    var y := prev.year + target / 12;
    var mo := target % 12;
    Date(y, mo, Min(prev.day, DaysInMonth(y, mo)))
  }
}

/*
 * The dashboard's maintenance calendar: the month it shows, the ◄ / ► month change, and the
 * markers of its 35 cells (the example completed and pending maintenance days, and today).
 */
module Dashboard {
  import opened Js
  import opened Calendar

  /** The example days marked as done and as pending. */
  const CompletedDays: seq<int> := [7, 8, 14]
  const PendingDays: seq<int> := [23, 28]

  /** One cell: the day it shows (blank outside the month) and its three markers. */
  datatype CellView = CellView(day: Option<int>, completed: bool, pending: bool, today: bool)

  function Cell(md: MonthData, i: int, now: Date): CellView {
    var valid := IsValidDay(md, i);
    var d := DayNum(md, i);
    CellView(if valid then Some(d) else None,
             valid && d in CompletedDays,
             valid && d in PendingDays,
             IsToday(md, i, now))
  }

  /** The grid, cell by cell. */
  function Grid(md: MonthData, now: Date): (g: seq<CellView>)
    ensures |g| == GridCells
    ensures forall i :: 0 <= i < GridCells ==> g[i] == Cell(md, i, now)
  {
    seq(GridCells, i requires 0 <= i => Cell(md, i, now))
  }

  /**
   * A cell is done or pending, never both; a blank cell carries no marker; and a marked cell
   * shows the marked day, today's cell today's date in today's month.
   */
  lemma CellMarkers(md: MonthData, i: int, now: Date)
    ensures var c := Cell(md, i, now);
      && !(c.completed && c.pending)
      && (c.day.None? ==> !c.completed && !c.pending && !c.today)
      && (c.completed ==> c.day.Some? && c.day.value in CompletedDays)
      && (c.pending ==> c.day.Some? && c.day.value in PendingDays)
      && (c.today ==> c.day == Some(now.day) && md.month == now.month && md.year == now.year)
  {
  }

  /** The cell standing for day d, as a 0-based cell index. */
  lemma CellOfDayShowsIt(md: MonthData, d: int, now: Date)
    requires 0 <= md.firstDay < 7 && 28 <= md.daysInMonth
    requires 1 <= d <= 28
    ensures 0 <= CellOfDay(md, d) < GridCells
    ensures Cell(md, CellOfDay(md, d), now).day == Some(d)
  {
  }

  /**
   * In every month the grid marks exactly the cells of days 7, 8 and 14 as done and of
   * days 23 and 28 as pending: each of those days fits in the 35 cells whatever the month's
   * first weekday.
   */
  lemma MarkedCellsEveryMonth(date: Date, now: Date, i: int)
    requires ValidDate(date)
    requires 0 <= i < GridCells
    ensures var md := GetMonthData(date);
      && (Cell(md, i, now).completed <==> i in {CellOfDay(md, 7), CellOfDay(md, 8), CellOfDay(md, 14)})
      && (Cell(md, i, now).pending <==> i in {CellOfDay(md, 23), CellOfDay(md, 28)})
  {
    var md := GetMonthData(date);
    GetMonthDataRanges(date);
    CellOfDayShowsIt(md, 7, now);
    CellOfDayShowsIt(md, 8, now);
    CellOfDayShowsIt(md, 14, now);
    CellOfDayShowsIt(md, 23, now);
    CellOfDayShowsIt(md, 28, now);
  }

  /**
   * Today is marked in the shown month exactly when it is today's month and today's day has a
   * cell (the 35 cells may leave out the month's last days). The clock's year is past 99, the
   * years `new Date(y, m, d)` reads literally.
   */
  lemma TodayMarked(date: Date, now: Date)
    requires ValidDate(date) && ValidDate(now) && now.year > 99
    ensures var md := GetMonthData(date);
      (exists i :: 0 <= i < GridCells && Cell(md, i, now).today) <==>
        date.year == now.year && date.month == now.month && now.day <= GridCells - md.firstDay
  {
    var md := GetMonthData(date);
    GetMonthDataRanges(date);
    if date.year == now.year && date.month == now.month && now.day <= GridCells - md.firstDay {
      var i := CellOfDay(md, now.day);
      assert DayNum(md, i) == now.day;
      assert Cell(md, i, now).today;
    }
  }

  /** At most one cell is marked as today. */
  lemma TodayIsOneCell(md: MonthData, now: Date, i: int, j: int)
    requires Cell(md, i, now).today && Cell(md, j, now).today
    ensures i == j
  {
    assert DayNum(md, i) == DayNum(md, j);
  }

  class DashboardScreen {
    var currentDate: Date

    predicate Valid()
      reads this
    {
      ValidDate(currentDate)
    }

    /** The dashboard opens on today's date. */
    constructor(now: Date)
      requires ValidDate(now)
      ensures Valid() && currentDate == now
    {
      currentDate := now;
    }

    function Month(): MonthData
      requires Valid()
      reads this
    {
      GetMonthData(currentDate)
    }

    /** The header label `${monthNames[month]}, ${year}`. */
    function SelectedMonth(): string
      requires Valid()
      reads this
    {
      MonthLabel(Month())
    }

    /** The ◄ / ► buttons, with the month change as intended (the day clamped to the target month). */
    method ChangeMonth(direction: int)
      requires Valid()
      modifies this
      ensures Valid()
      ensures currentDate == ChangeMonthClamped(old(currentDate), direction)
      ensures MonthIndex(currentDate) == MonthIndex(old(currentDate)) + direction
    {
      currentDate := ChangeMonthClamped(currentDate, direction);
    }
  }

  /** Moving by a non-zero number of months (within years 0 and later) always changes the label. */
  lemma ChangeMonthChangesLabel(prev: Date, direction: int)
    requires ValidDate(prev) && direction != 0
    requires prev.year >= 0 && ChangeMonthClamped(prev, direction).year >= 0
    ensures MonthLabel(GetMonthData(ChangeMonthClamped(prev, direction))) != MonthLabel(GetMonthData(prev))
  {
    var next := ChangeMonthClamped(prev, direction);
    if MonthLabel(GetMonthData(next)) == MonthLabel(GetMonthData(prev)) {
      MonthLabelDistinguishes(GetMonthData(next), GetMonthData(prev));
      assert false;
    }
  }
}

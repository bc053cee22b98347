/** The calendar component: the month grid (blank cells up to the weekday of
    the 1st, then one cell per day), the requests shown on a day, month
    navigation, and the click on a cell. */
module CalendarView {
  import opened Options
  import opened Seqs
  import opened Dates
  import opened Domain

  /** `getDaysInMonth`: `getDay()` of the 1st blank cells, then the days
      1 .. length of the month. The length is `getDate()` of day 0 of the next
      month, which `DayZeroIsLastDay` shows to be `DaysInMonth`. */
  method GetDaysInMonth(ym: YearMonth) returns (days: seq<Option<CivilDate>>)
    ensures |days| == Weekday(CivilDate(ym.year, ym.month, 1)) + DaysInMonth(ym.year, ym.month)
    ensures forall i :: 0 <= i < Weekday(CivilDate(ym.year, ym.month, 1)) ==> days[i].None?
    ensures forall d :: 1 <= d <= DaysInMonth(ym.year, ym.month) ==>
      days[Weekday(CivilDate(ym.year, ym.month, 1)) + d - 1] == Some(CivilDate(ym.year, ym.month, d))
  {
    var year := ym.year;
    var month := ym.month;
    var daysInMonth := DaysInMonth(year, month);
    var startingDayOfWeek := Weekday(CivilDate(year, month, 1));
    days := [];
    var i := 0;
    while i < startingDayOfWeek
      invariant 0 <= i <= startingDayOfWeek
      invariant |days| == i
      invariant forall j :: 0 <= j < i ==> days[j].None?
    {
      days := days + [None];
      i := i + 1;
    }
    var day := 1;
    while day <= daysInMonth
      invariant 1 <= day <= daysInMonth + 1
      invariant |days| == startingDayOfWeek + day - 1
      invariant forall j :: 0 <= j < startingDayOfWeek ==> days[j].None?
      invariant forall d :: 1 <= d < day ==> days[startingDayOfWeek + d - 1] == Some(CivilDate(year, month, d))
    {
      days := days + [Some(CivilDate(year, month, day))];
      day := day + 1;
    }
  }

  /** Every day cell of the grid is a real date of the shown month. */
  lemma GridDaysAreValid(ym: YearMonth, d: int)
    requires 1 <= d <= DaysInMonth(ym.year, ym.month)
    ensures IsValidDate(CivilDate(ym.year, ym.month, d))
  {
  }

  /** `new Date(req.scheduled_date)` reduced to its calendar day; a request
      without a date parses `null`, which is the first instant of 1970. */
  function ScheduledDay(r: Request): CivilDate
  {
    if r.scheduledDate.Some? then r.scheduledDate.value.date else CivilDate(1970, 0, 1)
  }

  /** `getRequestsForDate`: nothing for a blank cell, else the requests
      scheduled on that calendar day, whatever the time. */
  function RequestsForDate(requests: seq<Request>, date: Option<CivilDate>): (r: seq<Request>)
    ensures date.None? ==> r == []
    ensures date.Some? ==> forall i :: 0 <= i < |r| ==> r[i] in requests && ScheduledDay(r[i]) == date.value
    ensures date.Some? ==> forall i :: 0 <= i < |requests| && ScheduledDay(requests[i]) == date.value ==> requests[i] in r
  {
    if date.None? then []
    else Filter(requests, (q: Request) => ScheduledDay(q) == date.value)
  }

  /** A request is shown on a day exactly when its scheduled calendar day
      is that day; its time of day plays no part. */
  lemma ShownOnItsDay(requests: seq<Request>, i: int, d: CivilDate)
    requires 0 <= i < |requests|
    ensures requests[i] in RequestsForDate(requests, Some(d)) <==> ScheduledDay(requests[i]) == d
  {
    var r := RequestsForDate(requests, Some(d));
    if requests[i] in r {
      var k :| 0 <= k < |r| && r[k] == requests[i];
    }
  }

  /** The component's state; `currentMonth` is the shown month. */
  class Calendar {
    var requests: seq<Request>
    var currentMonth: YearMonth

    constructor (today: CivilDate)
      ensures requests == [] && currentMonth == YearMonth(today.year, today.month)
    {
      requests := [];
      currentMonth := YearMonth(today.year, today.month);
    }

    /** `fetchCalendarRequests` with the API's answer (`None` on failure). */
    method FetchCalendarRequests(response: Option<seq<Request>>)
      modifies this
      ensures requests == if response.Some? then response.value else old(requests)
      ensures currentMonth == old(currentMonth)
    {
      if response.Some? {
        requests := response.value;
      }
    }

    /** The "Previous" button. */
    method GoToPreviousMonth()
      modifies this
      ensures currentMonth == PreviousMonth(old(currentMonth))
      ensures currentMonth.year * 12 + currentMonth.month == old(currentMonth.year * 12 + currentMonth.month) - 1
      ensures requests == old(requests)
    {
      currentMonth := NormalizeMonth(currentMonth.year, currentMonth.month - 1);
    }

    /** The "Next" button. */
    method GoToNextMonth()
      modifies this
      ensures currentMonth == NextMonth(old(currentMonth))
      ensures currentMonth.year * 12 + currentMonth.month == old(currentMonth.year * 12 + currentMonth.month) + 1
      ensures requests == old(requests)
    {
      currentMonth := NormalizeMonth(currentMonth.year, currentMonth.month + 1);
    }

    /** A click on a cell: `onDateClick` is called with the cell's date only
        for a day cell and only when a handler was passed. */
    method HandleCellClick(cell: Option<CivilDate>, hasHandler: bool) returns (called: Option<CivilDate>)
      ensures called.Some? <==> cell.Some? && hasHandler
      ensures called.Some? ==> called == cell
    {
      if cell.Some? && hasHandler {
        called := cell;
      } else {
        called := None;
      }
    }
  }
}

/** The calendar page: a fixed list of sample requests, and the click on a
    day of the calendar, which selects that day and lists the sample requests
    scheduled on it. Sample dates carry no zone and are read in local time,
    as the clicked day is, so both are plain calendar values here. */
module CalendarPage {
  import opened Options
  import opened Seqs
  import opened Dates

  /** A sample request, with the fields the day filter and the list use. */
  datatype SampleRequest = SampleRequest(id: int, subject: string, stage: string, scheduled: DateTime)

  /** A local date-time in whole minutes; `month` counts from 0 as in
      JavaScript. */
  function At(year: int, month: MonthIndex, day: int, hour: int, minute: int): DateTime
  {
    DateTime(CivilDate(year, month, day), hour, minute, 0)
  }

  /** The page's sample requests, two a day from 27 January to 1 February 2025. */
  const SampleRequests: seq<SampleRequest> := [
    SampleRequest(1, "AC Preventive Check", "Open", At(2025, 0, 27, 10, 0)),
    SampleRequest(2, "Oil Leakage Fix", "In Progress", At(2025, 0, 27, 14, 30)),
    SampleRequest(3, "Fire Pump Inspection", "Done", At(2025, 0, 28, 9, 0)),
    SampleRequest(4, "Boiler Pressure Check", "Open", At(2025, 0, 28, 11, 15)),
    SampleRequest(5, "Lift Door Alignment", "In Progress", At(2025, 0, 29, 13, 0)),
    SampleRequest(6, "Generator Battery Replacement", "Open", At(2025, 0, 29, 16, 30)),
    SampleRequest(7, "Water Pump Vibration Issue", "Open", At(2025, 0, 30, 10, 45)),
    SampleRequest(8, "Chiller Plant Cleaning", "Done", At(2025, 0, 30, 15, 20)),
    SampleRequest(9, "Smoke Detector Testing", "In Progress", At(2025, 0, 31, 9, 30)),
    SampleRequest(10, "Server Room Cooling Issue", "Open", At(2025, 0, 31, 12, 0)),
    SampleRequest(11, "Lighting Panel Loose Wiring", "Done", At(2025, 1, 1, 10, 15)),
    SampleRequest(12, "AHU Filter Replacement", "Open", At(2025, 1, 1, 14, 0))
  ]

  /** The test `new Date(req.scheduled_date).toDateString() === date.toDateString()`. */
  function ScheduledOn(date: CivilDate): SampleRequest -> bool
  {
    (r: SampleRequest) => SameDay(r.scheduled, date)
  }

  /** The requests of `requests` scheduled on the calendar day `date`, in
      their order. */
  function RequestsOn(requests: seq<SampleRequest>, date: CivilDate): (r: seq<SampleRequest>)
    ensures forall i :: 0 <= i < |r| ==> r[i] in requests && r[i].scheduled.date == date
    ensures forall i :: 0 <= i < |requests| && requests[i].scheduled.date == date ==> requests[i] in r
  {
    Filter(requests, ScheduledOn(date))
  }

  /** The requests of a day keep the order of the list they come from. */
  lemma RequestsOnKeepsOrder(requests: seq<SampleRequest>, date: CivilDate)
    ensures IsSubsequence(RequestsOn(requests, date), requests)
  {
    FilterIsSubsequence(requests, ScheduledOn(date));
  }

  /** A list whose first two requests, and only those, fall on `date`
      lists exactly those two for that day. */
  lemma {:induction false} FirstTwoOfTheDay(requests: seq<SampleRequest>, date: CivilDate)
    requires |requests| >= 2
    requires requests[0].scheduled.date == date && requests[1].scheduled.date == date
    requires forall i :: 2 <= i < |requests| ==> requests[i].scheduled.date != date
    ensures RequestsOn(requests, date) == requests[..2]
  {
    var p := ScheduledOn(date);
    var tail := requests[2..];
    FilterOfNone(tail, p);
    assert requests[1..][1..] == tail;
    assert Filter(requests[1..], p) == [requests[1]];
    assert requests[..2] == [requests[0], requests[1]];
  }

  /** Requests 1 and 2, at 10:00 and 14:30 on 27 January 2025, are both
      listed for that day, and nothing else is. */
  lemma BothRequestsOfTheDay()
    ensures RequestsOn(SampleRequests, CivilDate(2025, 0, 27)) == SampleRequests[..2]
    ensures SampleRequests[0].id == 1 && SampleRequests[1].id == 2
    ensures SampleRequests[0].scheduled != SampleRequests[1].scheduled
  {
    assert forall i :: 2 <= i < |SampleRequests| ==> SampleRequests[i].scheduled.date.day != 27;
    FirstTwoOfTheDay(SampleRequests, CivilDate(2025, 0, 27));
  }

  /** A day with no sample request, Sunday 26 January 2025, lists nothing. */
  lemma EmptyDay()
    ensures RequestsOn(SampleRequests, CivilDate(2025, 0, 26)) == []
  {
    assert forall i :: 0 <= i < |SampleRequests| ==> SampleRequests[i].scheduled.date.day != 26;
    FilterOfNone(SampleRequests, ScheduledOn(CivilDate(2025, 0, 26)));
  }

  /** The page's state. */
  class Page {
    const sampleRequests: seq<SampleRequest>
    var selectedDate: Option<CivilDate>
    var dateRequests: seq<SampleRequest>

    constructor ()
      ensures sampleRequests == SampleRequests
      ensures selectedDate.None? && dateRequests == []
    {
      sampleRequests := SampleRequests;
      selectedDate := None;
      dateRequests := [];
    }

    /** `handleDateClick`: the clicked day is selected and its sample
        requests are listed. */
    method HandleDateClick(date: CivilDate)
      modifies this
      ensures selectedDate == Some(date)
      ensures dateRequests == RequestsOn(sampleRequests, date)
    {
      selectedDate := Some(date);
      dateRequests := RequestsOn(sampleRequests, date);
    }
  }
}

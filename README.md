# GearGuard maintenance tracker — a Dafny model of its logic

GearGuard tracks equipment, maintenance teams and maintenance requests. A Django
backend stores the rows and serves them through REST views; a React frontend
lists, filters, groups and edits them. This project models the part of both
that is logic rather than markup:

- **The `maintenance` app's domain** (`Domain`, `Models`). It covers:
  - the closed choice sets for stage, priority, request type and category;
  - the request and equipment records and their column defaults;
  - the unique serial number;
  - `MaintenanceRequest.save`, which scraps the equipment of a request saved in stage SCRAP.
- **The serializers** (`Serializers`). These are the computed fields:
  - the full or display name;
  - the default technician's name;
  - the request count and the open request count;
  - the overdue flag.

  They also cover the technician's write-only `user_id` and the two `create` methods that fill in team and technician from the equipment.
- **The REST views** (`MaintenanceViews`, `RequestsViews`). These are:
  - `update_stage` and `assign_technician`, with their 400/404 branches;
  - the `by_department`, `by_stage` and `by_team` parameter checks;
  - the `calendar` filter;
  - the older `requests` app's unvalidated stage write and its statistics.
- **The React pages and components**. Each one is a class whose fields are the component's state. An API answer, a failed call, a `window.confirm` answer and "today" are parameters of the methods.
  - `EquipmentList`: the search and category filter, deletion behind confirmation.
  - `KanbanBoard`: the drag-and-drop state machine, the columns, the priority badge.
  - `MaintenanceRequests`: the grouping by stage, the form, its submit payload and reset.
  - `CalendarView`: the month grid, day matching, month navigation.
  - `CalendarPage`: the sample requests and the day click.
  - `EquipmentForm`: defaults merged with initial data, the technician-by-team filter, the submit loading flag.
  - `Teams`: the statistics and the technician payload.
  - `Dashboard`: recent requests, quick-stat fallbacks, trend icons, category rows, scrapped rate.
  - `EquipmentDetail`: open requests, the loading and not-found views, the update outcome.
- **Shared modules**:
  - `Seqs`: order-preserving filters, grouping and counting.
  - `Text`: ASCII lower-casing, substring search, JavaScript `parseInt` and Python `int()`, Python `strip`.
  - `Dates`: the Gregorian calendar with JavaScript's 0-based months, the weekday, month length as "day 0 of the next month", month navigation.
  - `Forms`: JSON values with JavaScript truthiness, `||` fallbacks, spread updates and merges.
  - `Http`: view answers.

The backend's rows are values. The database is one `Models.Database` object, and its tables are maps that the ORM-writing methods reassign. Stage, category and priority are stored as strings, because neither Django's `save` nor the client checks them. Predicates say which strings are the declared choices. Because of this, the model can state what happens to a value outside the choices. For example, the kanban columns then hold fewer cards than there are requests.

## Model

| member | source | states |
|---|---|---|
| Domain.CodesAreDistinct | backend/maintenance/models.py:36-42 | no choice list names a code twice (stage, priority, request type, category) |
| Domain.ParseStage | backend/maintenance/models.py:72-77 | a stage string is recognised exactly when it is one of NEW, IN_PROGRESS, REPAIRED, SCRAP, and reads back as the stage with that code |
| Domain.ParsePriority | backend/maintenance/models.py:79-84 | recognised exactly for LOW, MEDIUM, HIGH, URGENT, reading back the priority with that code |
| Domain.ParseRequestType | backend/maintenance/models.py:67-70 | recognised exactly for CORRECTIVE and PREVENTIVE |
| Domain.ParseCategory | backend/maintenance/models.py:36-42 | recognised exactly for MACHINE, VEHICLE, COMPUTER, TOOL, OTHER |
| Domain.CodesRoundTrip | backend/maintenance/models.py:36-84 | every enum value's code is a declared choice and parses back to that value |
| Models.NewRequest | backend/maintenance/models.py:89-91 | a new request has stage NEW, type CORRECTIVE and priority MEDIUM unless given, no completion date, and every other column as supplied |
| Models.NewEquipment | backend/maintenance/models.py:46-54 | new equipment has category OTHER unless given and is not scrapped |
| Models.DefaultsAreChoices | backend/maintenance/models.py:36-91 | a row created from declared choices or defaults holds only declared choices |
| Models.ScrapOnSave | backend/maintenance/models.py:104-109 | saving a request marks its equipment scrapped exactly when the stage is SCRAP; no other row or column changes, and any other stage leaves the table equal |
| Models.SaveAll | backend/maintenance/models.py:104-109 | a run of saves keeps the same equipment keys |
| Models.ScrappedAfterSaves | backend/maintenance/models.py:104-109 | after any run of saves, equipment is scrapped iff it was before or some saved request for it was in SCRAP, so the flag is never cleared; nothing else about the row changes |
| Models.Database.constructor | backend/maintenance/models.py:44-55 | an empty database satisfies the keys, unique-serial and foreign-key invariant |
| Models.Database.SaveRequest | backend/maintenance/models.py:104-109 | the request row is written under its key and the equipment table becomes ScrapOnSave of the old one; the invariant is kept |
| Models.Database.InsertEquipment | backend/maintenance/models.py:45 | the row is inserted iff no equipment has its serial number, so serial numbers stay unique; otherwise nothing changes |
| Serializers.DisplayName | backend/maintenance/serializers.py:13-14 | the stripped full name when it is not empty, else the username |
| Serializers.FullName | backend/maintenance/serializers.py:13-14 | first and last name joined by a space and stripped: the result is the joined name with only surrounding white space removed, none is left at either end, and it is no longer than the joined name |
| Serializers.DisplayNameOfUnnamed | backend/maintenance/serializers.py:13-14 | a user with no first and no last name is shown by username |
| Serializers.DisplayNameOfFirstOnly | backend/maintenance/serializers.py:13-14 | a user with only a first name is shown by that first name (the joining space is stripped) |
| Serializers.DisplayNameOfLastOnly | backend/maintenance/serializers.py:13-14 | a user with only a last name is shown by that last name |
| Serializers.DefaultTechnicianName | backend/maintenance/serializers.py:55-58 | none exactly when the equipment has no default technician, else that technician's user's display name |
| Serializers.RequestCount | backend/maintenance/serializers.py:60-61 | the number of the equipment's requests, at most all requests |
| Serializers.OpenRequestCount | backend/maintenance/serializers.py:63-64 | the number of the equipment's requests outside REPAIRED and SCRAP, at most all requests (the bound against the request count is OpenRequestCountBound) |
| Serializers.OpenRequestCountBound | backend/maintenance/serializers.py:60-64 | the open request count is the number of the equipment's requests that are not REPAIRED or SCRAP, and never exceeds the request count |
| Serializers.IsOverdue | backend/maintenance/serializers.py:95-99 | overdue exactly when scheduled, not REPAIRED or SCRAP, and scheduled before now; its properties are OverdueStaysOverdue and MaintenanceViews.RepairedIsNotOverdue |
| Serializers.OverdueStaysOverdue | backend/maintenance/serializers.py:95-99 | a request overdue at one instant is overdue at every later instant |
| Serializers.SerializeTechnician | backend/maintenance/serializers.py:28-37 | the serialized technician carries its id, user and team, and never `user_id` (write-only) |
| Serializers.AutofillMissing | backend/maintenance/serializers.py:101-110 | a supplied team or technician is kept, a missing one is taken from the equipment, and no other field changes |
| Serializers.AutofillFromEquipment | backend/maintenance/serializers.py:121-129 | team and technician are always the equipment's, even when those are null; no other field changes |
| Serializers.CreateRequest | backend/maintenance/serializers.py:121-129 | the created request is stored under the fresh key with stage NEW, no completion date, and the equipment's team and technician; no equipment is scrapped |
| MaintenanceViews.StageUpdate | backend/maintenance/views.py:65-82 | the body stage is any JSON value: a falsy one (missing, null, false, 0, "") is a 400 "Stage is required"; any truthy one is accepted and stored as the `CharField` keeps it (a string as is, `str()` of a number or boolean), the string REPAIRED stamps the completion date with now, anything else keeps it, and no other field changes |
| MaintenanceViews.NonStringStages | backend/maintenance/views.py:68-71 | `true` is stored as "True" and a non-zero number as its decimal text, neither a declared stage; `0` and `false` are refused with 400 |
| Forms.CharFieldText | backend/maintenance/views.py:71 | what a `CharField` keeps of a posted JSON value: NULL exactly for null, a string as is, "True"/"False" for booleans, and for a number a text that `int()` reads back as that number |
| MaintenanceViews.AnyStageIsAccepted | backend/maintenance/views.py:70-71 | no stage string is refused, not even one outside the choices |
| MaintenanceViews.RepairedIsNotOverdue | backend/maintenance/views.py:74-76 | a request moved to REPAIRED is never overdue afterwards |
| MaintenanceViews.UpdateStage | backend/maintenance/views.py:65-82 | an unknown key is a 404; otherwise the answer is StageUpdate's, and only a success writes the row through `save`, scrapping equipment for SCRAP |
| MaintenanceViews.TechnicianAssignment | backend/maintenance/views.py:84-99 | the body value decides: a falsy `technician_id` (absent, null, false, 0, "") is a 400; a truthy one whose `int()` conversion raises is an uncaught 500; a key naming no technician is a 404; otherwise exactly the assigned technician becomes that key |
| MaintenanceViews.AssignTechnician | backend/maintenance/views.py:84-99 | an unknown request is a 404; otherwise the answer is TechnicianAssignment's for any JSON body value; the error answers leave the tables unchanged, and a success saves the row |
| MaintenanceViews.TechnicianKey | backend/maintenance/views.py:91 | the key the lookup uses: `true` is 1, a number is itself, a string is read by `int()`, and an unreadable string has none |
| MaintenanceViews.ZeroStringIsLookedUp | backend/maintenance/views.py:89-97 | the string "0" is truthy and is looked up as key 0, giving 404, while the number 0 is refused with 400 |
| MaintenanceViews.NonNumberIsServerError | backend/maintenance/views.py:91-97 | a string that is not an integer raises past the `DoesNotExist` handler |
| MaintenanceViews.TrueIsKeyOne | backend/maintenance/views.py:91-95 | a `true` body assigns the technician with key 1 |
| MaintenanceViews.ByDepartment | backend/maintenance/views.py:47-54 | 400 without a department; otherwise exactly the equipment of that department |
| MaintenanceViews.ByStage | backend/maintenance/views.py:101-108 | 400 without a stage; otherwise exactly the requests in that stage |
| MaintenanceViews.ByTeam | backend/maintenance/views.py:110-117 | 400 without a team id; a server error when Python's `int()` (which strips surrounding white space) cannot read it; else exactly the requests of that team |
| MaintenanceViews.ByTeamOfPadded | backend/maintenance/views.py:112-114 | a team key padded with white space selects the same requests as the bare key, and a decimal key is always accepted |
| MaintenanceViews.CalendarRequests | backend/maintenance/views.py:119-127 | exactly the PREVENTIVE requests with a scheduled date |
| MaintenanceViews.ListFiltersKeepOrder | backend/maintenance/views.py:47-127 | every list view's result keeps the table order |
| RequestsViews.ComputeStatistics | backend/requests/views.py:18-27 | the total is the number of requests; the two counts are those in NEW and IN_PROGRESS; their sum is at most the total, with equality iff every request is in one of the two |
| RequestsViews.RequestTable.constructor | backend/requests/models.py:7-29 | the table starts with the given rows and distinct keys |
| RequestsViews.RequestTable.GetRequests | backend/requests/views.py:6-9 | every row is returned |
| RequestsViews.RequestTable.Find | backend/requests/views.py:13 | the position of the row with the key, or none exactly when no row has it |
| RequestsViews.RequestTable.UpdateStage | backend/requests/views.py:11-16 | with an existing row and a non-null posted value of any JSON type, that row's stage becomes the `CharField` text of it unchecked (false becomes "False") and the answer is "updated"; an unknown key or a missing or null stage for the NOT NULL column is an uncaught server error that writes nothing |
| Seqs.Filter | frontend/src/pages/EquipmentList.js:52-61 | the result holds exactly the elements that satisfy the predicate |
| Seqs.FilterIsSubsequence | frontend/src/pages/EquipmentList.js:52 | a filtered list keeps the order of the list it comes from |
| Seqs.FilterIdempotent | frontend/src/pages/EquipmentList.js:52-61 | filtering twice with the same predicate equals filtering once |
| Seqs.FilterKeepsAll | frontend/src/pages/EquipmentList.js:53-58 | a predicate true on every element keeps the whole list |
| Seqs.FilterTwice | backend/maintenance/serializers.py:60-64 | filtering by one predicate and then another equals filtering once by both |
| Seqs.FilterOfNone | frontend/src/pages/Calendar.js:135-140 | a predicate false on every element keeps nothing |
| Seqs.SumOfCountsBound | frontend/src/components/KanbanBoard.js:57-59 | groups for distinct keys hold at most every element, and all of them iff every element's key is listed |
| Seqs.GroupsAreDisjoint | frontend/src/components/KanbanBoard.js:57-59 | an element is in a key's group iff its key is that key, so groups for different keys share nothing |
| Text.ToLower | frontend/src/pages/EquipmentList.js:53-56 | the same length, each character lower-cased, no upper-case letter left |
| Text.ContainsIffOccurs | frontend/src/pages/EquipmentList.js:53-56 | `includes` holds iff the term occurs at some index |
| Text.ContainsEmpty | frontend/src/pages/EquipmentList.js:53-56 | every string includes the empty term |
| Text.ParseInt | frontend/src/pages/MaintenanceRequests.js:54 | `parseInt`: JavaScript white space skipped, one sign, `0x` for base 16, the leading digits; NaN when there are none; ParseIntOfIntToString is its round trip |
| Text.PyInt | backend/maintenance/views.py:114 | Python's `int()`: surrounding white space stripped, then a sign and decimal digits only; PyIntOfIntToString and PyIntOfPadded are its round trips |
| Text.Strip | backend/maintenance/serializers.py:14 | `str.strip()`: the result occurs in the input with only Python white space before and after it, none is left at either end, and a string of white space strips to nothing |
| Text.InnerOfTrims | backend/maintenance/serializers.py:14 | removing white space from the head and then from the tail of a string leaves its middle in place, with only white space removed around it |
| Text.StripOfSpace | backend/maintenance/serializers.py:14 | a lone joining space strips to nothing, so a user without names has an empty full name |
| Text.StripOfPadded | backend/maintenance/views.py:114 | a leading space and trailing line feed around a string without white space at its ends are stripped away |
| Text.PyIntOfPadded | backend/maintenance/views.py:114 | `int()` reads an integer padded with white space as that integer |
| Text.PyIntOfNonDigit | backend/maintenance/views.py:114 | `int()` raises on any text that, once stripped, starts with neither a sign nor a decimal digit |
| Text.ParseIntOfIntToString | frontend/src/pages/MaintenanceRequests.js:54 | `parseInt` reads any integer's decimal text back as that integer |
| Text.PyIntOfIntToString | backend/maintenance/views.py:114 | Python's `int()` reads any integer's decimal text back as that integer |
| Text.SignedDecimalOfIntToString | backend/maintenance/views.py:114 | an integer's decimal text is a sign and digits that denote that integer |
| Text.StripOfSpaceThen | backend/maintenance/serializers.py:13-14 | stripping a leading join space from a trimmed name gives the name |
| Text.StripOfThenSpace | backend/maintenance/serializers.py:13-14 | stripping a trailing join space from a trimmed name gives the name |
| Dates.DaysInMonth | frontend/src/components/CalendarView.js:25-26 | every month has 28 to 31 days |
| Dates.DayZeroIsLastDay | frontend/src/components/CalendarView.js:25-26 | day 0 of the next month (normalised across December) is the last day of this month, so its date is this month's length, with the Gregorian leap-year rule for February |
| Dates.Weekday | frontend/src/components/CalendarView.js:27 | the weekday is in 0..6 (Sunday first); EpochIsThursday, KnownWeekdays and WeekdayAdvances pin its value |
| Dates.EpochIsThursday | frontend/src/components/CalendarView.js:27 | day numbers count from 1970-01-01, which `getDay` gives as 4, a Thursday |
| Dates.KnownWeekdays | frontend/src/components/CalendarView.js:27 | 2000-01-01 is a Saturday and 2025-01-27 a Monday |
| Dates.WeekdayAdvances | frontend/src/components/CalendarView.js:27 | the next day has the next weekday, and a week later the weekday is the same |
| Dates.DaysAreConsecutive | frontend/src/components/CalendarView.js:27 | consecutive days of a month have consecutive day numbers |
| Dates.NormalizeMonth | frontend/src/components/CalendarView.js:53-59 | a month index out of 0..11 rolls the year, keeping year*12+month |
| Dates.PreviousMonth | frontend/src/components/CalendarView.js:53-55 | one month back, January wrapping to December of the previous year |
| Dates.NextMonth | frontend/src/components/CalendarView.js:57-59 | one month on, December wrapping to January of the next year |
| Dates.PreviousNextInverse | frontend/src/components/CalendarView.js:53-59 | previous and next month undo each other |
| Dates.CountingYearLength | frontend/src/components/CalendarView.js:25-26 | a year of the day count is 366 days in a leap year and 365 otherwise |
| CalendarView.GetDaysInMonth | frontend/src/components/CalendarView.js:21-42 | the grid is weekday-of-the-1st blank cells, then cell start+d-1 holds day d for every day of the month, and nothing more |
| CalendarView.GridDaysAreValid | frontend/src/components/CalendarView.js:32-39 | every day cell is a real date |
| CalendarView.RequestsForDate | frontend/src/components/CalendarView.js:44-51 | nothing for a blank cell, else exactly the requests scheduled on that calendar day |
| CalendarView.ScheduledDay | frontend/src/components/CalendarView.js:48 | the calendar day of the scheduled date, and 1 January 1970 for a request without one (`new Date(null)`) |
| CalendarView.ShownOnItsDay | frontend/src/components/CalendarView.js:47-50 | a request is shown on a day iff its scheduled day is that day, whatever the time |
| CalendarView.Calendar.constructor | frontend/src/components/CalendarView.js:6 | the shown month starts as today's month |
| CalendarView.Calendar.FetchCalendarRequests | frontend/src/components/CalendarView.js:12-19 | the requests are replaced on success and kept on failure |
| CalendarView.Calendar.GoToPreviousMonth | frontend/src/components/CalendarView.js:53-55 | the shown month becomes the previous month, one less in year*12+month |
| CalendarView.Calendar.GoToNextMonth | frontend/src/components/CalendarView.js:57-59 | the shown month becomes the next month, one more in year*12+month |
| CalendarView.Calendar.HandleCellClick | frontend/src/components/CalendarView.js:95 | the handler is called with the cell's date iff the cell is a day and a handler was passed; a blank cell never calls it |
| CalendarPage.RequestsOn | frontend/src/pages/Calendar.js:135-140 | exactly the sample requests scheduled on the clicked calendar day |
| CalendarPage.RequestsOnKeepsOrder | frontend/src/pages/Calendar.js:135-140 | the day's requests keep the sample order |
| CalendarPage.FirstTwoOfTheDay | frontend/src/pages/Calendar.js:135-140 | when only the first two requests fall on a day, the day lists exactly those two |
| CalendarPage.BothRequestsOfTheDay | frontend/src/pages/Calendar.js:10-29 | requests 1 and 2, at different times on 27 January 2025, are both listed for that day and nothing else is |
| CalendarPage.EmptyDay | frontend/src/pages/Calendar.js:135-140 | a day with no sample request lists nothing |
| CalendarPage.Page.constructor | frontend/src/pages/Calendar.js:5-9 | no date is selected and nothing is listed |
| CalendarPage.Page.HandleDateClick | frontend/src/pages/Calendar.js:132-141 | the clicked date is selected and the listed requests are those of that day |
| EquipmentList.FilterEquipment | frontend/src/pages/EquipmentList.js:52-61 | an item is shown iff its lower-cased name or serial contains the lower-cased term and the category filter is empty or its category |
| EquipmentList.MatchesSearch | frontend/src/pages/EquipmentList.js:53-55 | the lower-cased name or serial number includes the lower-cased term; characterised by MatchesSearchIffOccurs |
| EquipmentList.MatchesCategory | frontend/src/pages/EquipmentList.js:57-58 | no category chosen, or the equipment's category is the chosen one |
| EquipmentList.MatchesSearchIffOccurs | frontend/src/pages/EquipmentList.js:53-56 | the search matches iff the term occurs at some position of the lower-cased name or serial number |
| EquipmentList.NoFilterShowsAll | frontend/src/pages/EquipmentList.js:53-58 | no term and no category show the whole list unchanged |
| EquipmentList.FilterKeepsOrderAndIsIdempotent | frontend/src/pages/EquipmentList.js:52-61 | the shown list keeps the fetched order, and filtering it again changes nothing |
| EquipmentList.EquipmentListPage.constructor | frontend/src/pages/EquipmentList.js:8-16 | an empty list, loading, no modal, no search, no category |
| EquipmentList.EquipmentListPage.FetchEquipment | frontend/src/pages/EquipmentList.js:18-27 | loading ends on success and on failure; the list is replaced only on success |
| EquipmentList.EquipmentListPage.HandleCreateEquipment | frontend/src/pages/EquipmentList.js:29-38 | success closes the modal and refetches; failure is rethrown and changes nothing |
| EquipmentList.EquipmentListPage.HandleDelete | frontend/src/pages/EquipmentList.js:40-50 | delete is called iff the user confirms; only a confirmed, successful delete refetches |
| KanbanBoard.ColumnsAreDisjoint | frontend/src/components/KanbanBoard.js:57-59 | a card is in a column iff its stage is that column's, so no two columns share a card |
| KanbanBoard.ColumnOf | frontend/src/components/KanbanBoard.js:57-59 | exactly the requests whose stage is the column's stage, no more than all requests |
| KanbanBoard.ColumnsHoldAtMostAll | frontend/src/components/KanbanBoard.js:9-59 | the four columns hold at most every request, and exactly every request iff all stages are declared ones |
| KanbanBoard.BadgeClass | frontend/src/components/KanbanBoard.js:61-69 | LOW, MEDIUM, HIGH and URGENT get their fixed classes and anything else `badge-secondary` |
| KanbanBoard.DropCall | frontend/src/components/KanbanBoard.js:44-47 | a drop issues a stage update iff a card is dragged and the target stage differs from its own, and then exactly one for that card and stage |
| KanbanBoard.Board.constructor | frontend/src/components/KanbanBoard.js:5-7 | no requests, loading, nothing dragged |
| KanbanBoard.Board.FetchRequests | frontend/src/components/KanbanBoard.js:20-29 | loading ends either way; the list is replaced only on success |
| KanbanBoard.Board.HandleDragStart | frontend/src/components/KanbanBoard.js:31-34 | the picked request becomes the dragged item |
| KanbanBoard.Board.HandleDrop | frontend/src/components/KanbanBoard.js:41-55 | the call made is DropCall's, a successful update refetches, and the dragged item is cleared in every case |
| MaintenanceRequests.GroupByStage | frontend/src/pages/MaintenanceRequests.js:79-83 | exactly the keys NEW, IN_PROGRESS, REPAIRED, SCRAP, each holding the requests in that stage |
| MaintenanceRequests.GroupIsStageSublist | frontend/src/pages/MaintenanceRequests.js:82 | each group is the order-preserving sublist of the requests in its stage |
| MaintenanceRequests.DefaultFormHasPayloadFields | frontend/src/pages/MaintenanceRequests.js:11-19 | the default form has the fields the payload converts |
| MaintenanceRequests.WithPayloadFields | frontend/src/pages/MaintenanceRequests.js:52-57 | the three converted fields are replaced and every other field kept |
| MaintenanceRequests.SubmitPayload | frontend/src/pages/MaintenanceRequests.js:52-57 | the equipment is parsed as an integer, the requester is parsed with NaN and 0 sent as null, a blank date is sent as null, and every other field is kept |
| MaintenanceRequests.PayloadOfTypedForm | frontend/src/pages/MaintenanceRequests.js:52-57 | a typed equipment key is sent as that number, and a blank requester and date as null |
| MaintenanceRequests.RequestsPage.constructor | frontend/src/pages/MaintenanceRequests.js:6-19 | no modal, empty lists, the default form |
| MaintenanceRequests.RequestsPage.FetchData | frontend/src/pages/MaintenanceRequests.js:25-38 | the three lists are all set on success and none on failure |
| MaintenanceRequests.RequestsPage.HandleChange | frontend/src/pages/MaintenanceRequests.js:40-46 | only the named field takes the typed value |
| MaintenanceRequests.RequestsPage.HandleSubmit | frontend/src/pages/MaintenanceRequests.js:48-76 | the payload is that of the form; success closes the modal, resets the form to CORRECTIVE/MEDIUM defaults and refetches; failure leaves form and modal as they were |
| EquipmentForm.DefaultsAreBlankButCategory | frontend/src/components/EquipmentForm.js:5-17 | the default category is OTHER and every other default is empty |
| EquipmentForm.InitialForm | frontend/src/components/EquipmentForm.js:5-18 | each field of the initial data overrides its default; every other default is kept |
| EquipmentForm.InitialFormValues | frontend/src/components/EquipmentForm.js:5-18 | no initial data gives the defaults; category is OTHER unless given, and every other field not given is empty |
| EquipmentForm.FilteredTechnicians | frontend/src/components/EquipmentForm.js:63-65 | no team chosen offers every technician; otherwise exactly those whose team is the parsed team |
| EquipmentForm.FilteredTechniciansKeepOrder | frontend/src/components/EquipmentForm.js:63-65 | the offered technicians keep the list order |
| EquipmentForm.ChosenTeamFilters | frontend/src/components/EquipmentForm.js:63-65 | choosing team n offers exactly the technicians of team n |
| EquipmentForm.UnparsableTeamOffersNone | frontend/src/components/EquipmentForm.js:63-65 | a chosen team that does not parse (NaN) offers no technician |
| EquipmentForm.Component.constructor | frontend/src/components/EquipmentForm.js:5-23 | the form is the defaults merged with the initial data; not loading |
| EquipmentForm.Component.FetchTeamsAndTechnicians | frontend/src/components/EquipmentForm.js:28-39 | both lists are set on success and kept on failure |
| EquipmentForm.Component.HandleChange | frontend/src/components/EquipmentForm.js:41-47 | only the named field changes |
| EquipmentForm.Component.BeginSubmit | frontend/src/components/EquipmentForm.js:49-54 | loading is on and the current form is passed on unchanged |
| EquipmentForm.Component.FinishSubmit | frontend/src/components/EquipmentForm.js:55-60 | loading ends on success and on failure; a failure alerts |
| Teams.AvgTeamSize | frontend/src/pages/Teams.js:50 | 0 without teams, else technicians/teams rounded half up |
| Teams.AvgOfEvenSplit | frontend/src/pages/Teams.js:50 | k technicians per team average to exactly k |
| Teams.ComputeStats | frontend/src/pages/Teams.js:47-52 | team and technician totals are the list lengths, available users are those matched by no technician's `user_id` (at most all users), and the average is AvgTeamSize |
| Teams.IsTechnician | frontend/src/pages/Teams.js:49 | some technician's `user_id` equals the user's id; EveryUserIsAvailable shows that no serialized technician matches |
| Teams.EveryUserIsAvailable | frontend/src/pages/Teams.js:49 | with serialized technicians, whose `user_id` is never sent, every user counts as available |
| Teams.TechnicianPayload | frontend/src/pages/Teams.js:76-80 | `user_id` and `team` are parsed with NaN sent as null, and every other field is kept |
| Teams.PayloadOfSelection | frontend/src/pages/Teams.js:76-80 | a chosen user and team are sent as numbers, and no team as null |
| Teams.Page.constructor | frontend/src/pages/Teams.js:6-25 | loading, empty lists, zero statistics, blank forms, no modal |
| Teams.Page.FetchData | frontend/src/pages/Teams.js:31-58 | on success the lists are set and the statistics are ComputeStats of them; loading ends either way |
| Teams.Page.ChangeTeamForm | frontend/src/pages/Teams.js:601-611 | only the named team field changes |
| Teams.Page.ChangeTechForm | frontend/src/pages/Teams.js:634-677 | only the named technician field changes |
| Teams.Page.HandleCreateTeam | frontend/src/pages/Teams.js:60-71 | the form is sent; success closes the modal, blanks the form and refetches; failure changes nothing |
| Teams.Page.HandleCreateTechnician | frontend/src/pages/Teams.js:73-89 | the parsed payload is sent; success closes the modal, blanks the form and refetches; failure changes nothing |
| Dashboard.RecentRequests | frontend/src/pages/Dashboard.js:30 | the first min(5, n) requests, in order |
| Dashboard.RecentRequestsArePrefix | frontend/src/pages/Dashboard.js:30 | recent requests are a prefix of the list, and the whole list when it has at most 5 |
| Dashboard.QuickStatsOf | frontend/src/pages/Dashboard.js:32-36 | each statistic is the API's value when truthy, else 12, 45 or "2.3 days" |
| Dashboard.ZeroShowsPlaceholder | frontend/src/pages/Dashboard.js:32-36 | a reported 0 and a missing value both show the placeholder; a non-zero value is shown |
| Dashboard.TrendIcon | frontend/src/pages/Dashboard.js:44-47 | empty iff there is no trend, the up arrow iff "up", the down arrow iff "down", the right arrow for any other trend |
| Dashboard.CategoryRows | frontend/src/pages/Dashboard.js:705-713 | the rows' categories are exactly the listed categories that some equipment has, in the listed order, one row each; each row's count is the number of that category's equipment and is positive |
| Dashboard.TotalShownIsSumOfCounts | frontend/src/pages/Dashboard.js:705-713 | the shown counts add up to the per-category counts |
| Dashboard.RowsCountAtMostAll | frontend/src/pages/Dashboard.js:705-713 | for distinct categories, the shown counts sum to at most the equipment count, with equality iff every item's category is listed |
| Dashboard.ShownCountsBound | frontend/src/pages/Dashboard.js:705-713 | the five category rows count at most all equipment, and all of it iff every category is declared |
| Dashboard.ScrappedRate | frontend/src/pages/Dashboard.js:659 | 0 for no equipment; otherwise the integer nearest to 100·k/n with halves rounded up (2n·rate ≤ 200k + n < 2n·(rate + 1) for k scrapped out of n), so 0 for none scrapped, 100 when all are, and never above 100 |
| Dashboard.RateBounds | frontend/src/pages/Dashboard.js:659 | the rounded percentage of k out of n lies in 0..100, with 0 and 100 at the ends |
| Dashboard.RateIsNearest | frontend/src/pages/Dashboard.js:659 | the rounded percentage of k out of n is the integer nearest to 100·k/n, halves rounded up |
| Dashboard.Page.constructor | frontend/src/pages/Dashboard.js:6-14 | loading, nothing fetched, the initial quick stats |
| Dashboard.Page.FetchDashboardData | frontend/src/pages/Dashboard.js:20-42 | on success the statistics, equipment, recent requests and quick stats are set; loading ends either way |
| EquipmentDetail.OpenRequests | frontend/src/pages/EquipmentDetail.js:53 | exactly the requests not in REPAIRED or SCRAP |
| EquipmentDetail.OpenRequestsKeepOrder | frontend/src/pages/EquipmentDetail.js:53 | open requests keep the order and never outnumber all requests |
| EquipmentDetail.CountsAgreeWithSerializer | frontend/src/pages/EquipmentDetail.js:53 | the page's open count equals the serializer's open request count, and its total the request count |
| EquipmentDetail.Page.constructor | frontend/src/pages/EquipmentDetail.js:10-13 | no equipment, no requests, loading, no edit modal |
| EquipmentDetail.Page.View | frontend/src/pages/EquipmentDetail.js:45-51 | the spinner iff loading, not-found iff loading ended without equipment, the details otherwise |
| EquipmentDetail.Page.FetchEquipmentDetails | frontend/src/pages/EquipmentDetail.js:19-32 | loading ends, so the view is details or not found; data is set only on success |
| EquipmentDetail.Page.OpenEditModal | frontend/src/pages/EquipmentDetail.js:172-178 | the edit modal opens |
| EquipmentDetail.Page.HandleUpdate | frontend/src/pages/EquipmentDetail.js:34-43 | the form goes to this equipment's id; success closes the modal and refetches; failure is rethrown with the modal as it was |
| Forms.ParseIntValueOfNumber | frontend/src/pages/Teams.js:77-78 | a number and its typed decimal text both parse to that number |
| Forms.ParseIntValueOfBlank | frontend/src/pages/MaintenanceRequests.js:54-56 | a blank field and null parse to NaN |
| Forms.IntOrNull | frontend/src/pages/Teams.js:77-78 | `parseInt` on the wire: NaN becomes null and a number stays that number |
| Forms.NonZeroIntOrNull | frontend/src/pages/MaintenanceRequests.js:55 | `parseInt(v) \|\| null`: null iff NaN or 0, else the non-zero number |
| Forms.OrElse | frontend/src/pages/Dashboard.js:32-36 | `v \|\| fallback`: v when truthy, else the fallback |
| Forms.SetField | frontend/src/pages/MaintenanceRequests.js:40-46 | the named field holds the value and every other field is unchanged |
| Forms.Merge | frontend/src/components/EquipmentForm.js:5-18 | every field of both; the second's value wins |
| Forms.Field | frontend/src/pages/Teams.js:77-78 | an absent field reads as null |

## Left out

- HTTP transport (`frontend/src/services/api.js`). Each API call is a method parameter: the answer, or `None` for a failed call. The department and stage query strings are interpolated there without URL-encoding; the model's views take the already-decoded parameter.
- JSX markup, inline styles, `App.js` routing and `Navigation.js`. They are presentation only.
- React effect timing and `Promise.all` concurrency. A page's refetch after a successful action is a returned `refetch` flag, or a method call made with the refetched answer. A later `fetchData` is the page's `FetchData` method.
- `window.confirm` and `alert`. These are a boolean parameter and a returned flag.
- The Django ORM, admin, URL routing, `backend/gearguard/views.py` and the `equipment` and `teams` apps. Database-assigned primary keys are parameters.
- The `statistics` action of the `maintenance` views. It refers to `timezone`, which is imported only inside `update_stage`, so it fails before computing anything.
- Time zones and locales. Every date is a local calendar value. `new Date(null)` is 1 January 1970.
- Dashboard.ScrappedRate: uses exact rational rounding `Math.round(100*k/n)`. The floating-point division can round a tie the other way (29 out of 200 gives 14 in floating point, 15 here).
- Teams.AvgTeamSize: is exact half-up rounding; floating point agrees while the counts stay small (well below 2^26).
- Text.ToLower: lower-cases ASCII letters only. JavaScript's Unicode case mapping is not modelled.
- Text.ParseInt: on fractional, exponent or very long inputs it reads the leading decimal digits as an unbounded integer; JavaScript's precision loss beyond 2^53 is not modelled.
- Text.PyInt: strips white space and takes an optional sign and ASCII decimal digits; the underscores between digits and the non-ASCII decimal digits that Python's `int()` also accepts are not modelled.
- `frontend/data/mockData.js`. Sample data is not used by the modelled pages.
- Form values are strings or the JSON scalars; nested objects and arrays in a form are not modelled.
- MaintenanceViews.TechnicianAssignment: a JSON number in the body is an integer here; a fractional number (which Django's `int()` truncates) and an array or object body are not modelled.
- KanbanBoard.BadgeClass: a priority naming an inherited `Object.prototype` property (such as `"toString"`) is not modelled; any undeclared priority gets `badge-secondary`.
- Models.Database.SaveRequest: the equipment instance cached on the request object is not modelled; the save reads the current row.
- EquipmentForm.Component: the awaited `onSubmit` splits `handleSubmit` into `BeginSubmit` and `FinishSubmit`. What the parent does in between is outside the component.
- CalendarPage: the sample requests' display-only fields (equipment name, technician, priority, duration and notes) are not modelled.
- RequestsViews.RequestTable.UpdateStage: a reading that the write "always" succeeds does not match the code. The `stage` column is NOT NULL (backend/requests/models.py:24), so posting no stage or a null one makes `save` fail with an uncaught error. The model follows the code.
- MaintenanceViews.StageUpdate: a fractional number or an array or object body is not modelled (the JSON values are null, booleans, integers and strings), and neither is the `max_length=20` of the stage column, which Django does not check on `save`.
- Dates.NormalizeMonth: years are unbounded integers. JavaScript's `new Date(y, m)` reads a year 0..99 as 1900 + y, and a `Date` only reaches about 275,760 years either side of 1970, beyond which it is an Invalid Date. Neither is modelled, so the contract describes the source only for years outside 0..99 and inside that range.
- Dates.PreviousMonth: has the same gap as Dates.NormalizeMonth. From a month of a year 0..99 the source moves into year 1900 + y: "Previous" from March 50 gives February 1950.
- Dates.NextMonth: has the same gap as Dates.NormalizeMonth. From December 99 the source's `new Date(99, 12)` is January 2000, not January 100.
- Dates.PreviousNextInverse: holds of the model but not of the source where a year 0..99 is involved. From January 100, "Previous" gives December 99 and "Next" then gives January 2000.
- Dates.DayZeroIsLastDay: for a year 0..99 the source's `new Date(y, m + 1, 0)` is the last day of a month in 1900 + y.
- CalendarView.GetDaysInMonth: for a year 0..99 the source's `new Date(year, month, day)` cells are days of 1900 + year, so it draws that year's month; the model draws the month of the year itself.
- CalendarView.Calendar.GoToPreviousMonth: has the same gap as Dates.PreviousMonth for years 0..99 and past the `Date` range.
- CalendarView.Calendar.GoToNextMonth: has the same gap as Dates.NextMonth for years 0..99 and past the `Date` range.

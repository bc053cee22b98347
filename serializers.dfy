/** The `maintenance` serializers: the computed fields they add to a row
    (display names, request counts, the overdue flag), the technician's
    write-only `user_id`, and the two ways `create` fills a new request's team
    and technician from its equipment. */
module Serializers {
  import opened Options
  import opened Text
  import opened Seqs
  import opened Dates
  import opened Domain
  import opened Models

  // ---------------------------------------------------------------------
  // Names

  /** Django's `User.get_full_name`: first and last name joined by a space,
      then stripped. */
  function FullName(u: User): (r: string)
    ensures |r| <= |u.firstName| + 1 + |u.lastName|
    ensures exists k: nat :: InnerAt(u.firstName + " " + u.lastName, r, k, IsPySpace)
    ensures r == [] || (!IsPySpace(r[0]) && !IsPySpace(r[|r| - 1]))
  {
    Strip(u.firstName + " " + u.lastName)
  }

  /** `get_full_name() or username`, the name shown for a user. */
  function DisplayName(u: User): (r: string)
    ensures FullName(u) != "" ==> r == FullName(u)
    ensures FullName(u) == "" ==> r == u.username
    ensures r == "" ==> u.username == ""
  {
    var full := FullName(u);
    if full != "" then full else u.username
  }

  /** A user with neither first nor last name is shown by username. */
  lemma DisplayNameOfUnnamed(u: User)
    requires u.firstName == "" && u.lastName == ""
    ensures DisplayName(u) == u.username
  {
    assert u.firstName + " " + u.lastName == " ";
    StripOfSpace();
  }

  /** A user with only a first name (no surrounding white space) is shown by
      that first name: the joining space is stripped. */
  lemma DisplayNameOfFirstOnly(u: User)
    requires u.lastName == "" && u.firstName != ""
    requires !IsPySpace(u.firstName[0]) && !IsPySpace(u.firstName[|u.firstName| - 1])
    ensures DisplayName(u) == u.firstName
  {
    assert u.firstName + " " + u.lastName == u.firstName + " ";
    StripOfThenSpace(u.firstName);
  }

  /** A user with only a last name (no surrounding white space) is shown by
      that last name. */
  lemma DisplayNameOfLastOnly(u: User)
    requires u.firstName == "" && u.lastName != ""
    requires !IsPySpace(u.lastName[0]) && !IsPySpace(u.lastName[|u.lastName| - 1])
    ensures DisplayName(u) == u.lastName
  {
    assert u.firstName + " " + u.lastName == " " + u.lastName;
    StripOfSpaceThen(u.lastName);
  }

  /** `EquipmentSerializer.get_default_technician_name`: the display name of
      the default technician's user, or none when there is no default
      technician. */
  function DefaultTechnicianName(e: Equipment, technicians: map<int, Technician>, users: map<int, User>): (r: Option<string>)
    requires e.defaultTechnician.Some? ==> e.defaultTechnician.value in technicians
    requires e.defaultTechnician.Some? ==> technicians[e.defaultTechnician.value].user in users
    ensures r.None? <==> e.defaultTechnician.None?
    ensures r.Some? ==> r.value == DisplayName(users[technicians[e.defaultTechnician.value].user])
  {
    match e.defaultTechnician
    case None => None
    case Some(t) => Some(DisplayName(users[technicians[t].user]))
  }

  // ---------------------------------------------------------------------
  // Counts

  /** The requests filed against `e`, in queryset order. */
  function RequestsOf(e: Equipment, requests: seq<Request>): seq<Request>
  {
    Filter(requests, (r: Request) => r.equipment == e.id)
  }

  /** `get_request_count`. */
  function RequestCount(e: Equipment, requests: seq<Request>): (n: nat)
    ensures n <= |requests|
  {
    |RequestsOf(e, requests)|
  }

  /** `get_open_request_count`: the requests of `e` outside REPAIRED and SCRAP. */
  function OpenRequestCount(e: Equipment, requests: seq<Request>): (n: nat)
    ensures n <= |requests|
  {
    |Filter(requests, (r: Request) => r.equipment == e.id && !IsClosedStage(r.stage))|
  }

  /** The open requests of `e` are its requests that are not closed, so
      there are never more open requests than requests. */
  lemma OpenRequestCountBound(e: Equipment, requests: seq<Request>)
    ensures OpenRequestCount(e, requests) == |Filter(RequestsOf(e, requests), IsOpen)|
    ensures OpenRequestCount(e, requests) <= RequestCount(e, requests)
  {
    FilterTwice(requests, (r: Request) => r.equipment == e.id, IsOpen,
                (r: Request) => r.equipment == e.id && !IsClosedStage(r.stage));
  }

  // ---------------------------------------------------------------------
  // Overdue

  /** `get_is_overdue`: scheduled, not closed, and scheduled before `now`. */
  predicate IsOverdue(r: Request, now: DateTime)
  {
    r.scheduledDate.Some? && !IsClosedStage(r.stage) && Before(r.scheduledDate.value, now)
  }

  /** Once overdue, a request stays overdue as time passes. */
  lemma OverdueStaysOverdue(r: Request, now: DateTime, later: DateTime)
    requires IsOverdue(r, now) && !Before(later, now)
    ensures IsOverdue(r, later)
  {
  }

  // ---------------------------------------------------------------------
  // Technicians

  /** A technician as the API returns it: `user` is the nested user, and
      `user_id`, declared write-only, is absent. */
  datatype TechnicianJson = TechnicianJson(id: int, user: User, userId: Option<int>, team: Option<int>)

  /** `TechnicianSerializer(t).data`. */
  function SerializeTechnician(t: Technician, users: map<int, User>): (j: TechnicianJson)
    requires t.user in users
    ensures j.id == t.id && j.user == users[t.user] && j.team == t.team
    ensures j.userId.None?
  {
    TechnicianJson(t.id, users[t.user], None, t.team)
  }

  // ---------------------------------------------------------------------
  // Creating a request

  /** `MaintenanceRequestSerializer.create`: a team or technician that was not
      supplied is taken from the equipment; a supplied one is kept. */
  method AutofillMissing(data: RequestFields, eq: Equipment) returns (filled: RequestFields)
    requires eq.id == data.equipment
    ensures data.maintenanceTeam.Some? ==> filled.maintenanceTeam == data.maintenanceTeam
    ensures data.maintenanceTeam.None? ==> filled.maintenanceTeam == eq.maintenanceTeam
    ensures data.assignedTechnician.Some? ==> filled.assignedTechnician == data.assignedTechnician
    ensures data.assignedTechnician.None? ==> filled.assignedTechnician == eq.defaultTechnician
    ensures filled == data.(maintenanceTeam := filled.maintenanceTeam, assignedTechnician := filled.assignedTechnician)
  {
    filled := data;
    if data.maintenanceTeam.None? && eq.maintenanceTeam.Some? {
      filled := filled.(maintenanceTeam := eq.maintenanceTeam);
    }
    if data.assignedTechnician.None? && eq.defaultTechnician.Some? {
      filled := filled.(assignedTechnician := eq.defaultTechnician);
    }
  }

  /** `MaintenanceRequestCreateSerializer.create`: team and technician are
      always the equipment's, even when the equipment has none. */
  method AutofillFromEquipment(data: RequestFields, eq: Equipment) returns (filled: RequestFields)
    requires eq.id == data.equipment
    ensures filled.maintenanceTeam == eq.maintenanceTeam
    ensures filled.assignedTechnician == eq.defaultTechnician
    ensures filled == data.(maintenanceTeam := filled.maintenanceTeam, assignedTechnician := filled.assignedTechnician)
  {
    filled := data;
    filled := filled.(maintenanceTeam := eq.maintenanceTeam);
    filled := filled.(assignedTechnician := eq.defaultTechnician);
  }

  /** The fields that `MaintenanceRequestCreateSerializer` accepts. */
  datatype CreateInput = CreateInput(
    subject: string,
    equipment: int,
    requestType: Option<string>,
    priority: Option<string>,
    scheduledDate: Option<DateTime>,
    requestedBy: Option<int>)

  /** `POST /requests/`: the create serializer fills team and technician from
      the equipment and the row is created under the fresh key `id`. The
      stage is not an accepted field, so it is NEW and the save scraps
      nothing. */
  method CreateRequest(db: Database, id: int, input: CreateInput) returns (r: Request)
    requires db.Valid()
    requires id !in db.requests && input.equipment in db.equipment
    modifies db
    ensures db.Valid()
    ensures r.id == id && r.subject == input.subject && r.equipment == input.equipment
    ensures r.stage == New.Code() && r.completedDate.None?
    ensures r.maintenanceTeam == old(db.equipment)[input.equipment].maintenanceTeam
    ensures r.assignedTechnician == old(db.equipment)[input.equipment].defaultTechnician
    ensures db.requests == old(db.requests)[id := r]
    ensures db.equipment == old(db.equipment)
    ensures db.technicians == old(db.technicians) && db.users == old(db.users)
  {
    var data := RequestFields(
      input.subject, input.equipment, input.requestType, None, input.priority,
      None, None, input.scheduledDate, input.requestedBy);
    data := AutofillFromEquipment(data, db.equipment[input.equipment]);
    r := NewRequest(id, data);
    db.SaveRequest(r);
  }
}

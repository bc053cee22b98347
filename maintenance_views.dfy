/** The custom actions of the `maintenance` API views: the request lifecycle
    updates `update_stage` and `assign_technician`, and the list filters
    `by_department`, `by_stage`, `by_team` and `calendar`.

    A detail action looks its row up by primary key in the database; a list
    action filters the table's queryset, given here as a sequence in queryset
    order. The current time is a parameter. */
module MaintenanceViews {
  import opened Options
  import opened Text
  import opened Seqs
  import opened Dates
  import opened Domain
  import opened Models
  import opened Serializers
  import opened Http
  import opened Forms

  // ---------------------------------------------------------------------
  // update_stage

  /** The request after `PATCH update_stage` with body stage `newStage`
      (`Null` when absent): a falsy value is refused with 400; any other is
      written, whatever the current stage, as the `CharField` keeps it
      (`str()` of a number or boolean), and the string "REPAIRED" also
      stamps the completion date. */
  function StageUpdate(req: Request, newStage: Value, now: DateTime): (r: Response<Request>)
    ensures r.Ok? <==> Truthy(newStage)
    ensures !r.Ok? ==> r == Error(400, "Stage is required")
    ensures r.Ok? ==> CharFieldText(newStage) == Some(r.body.stage)
    ensures r.Ok? && newStage == Str(Repaired.Code()) ==> r.body.completedDate == Some(now)
    ensures r.Ok? && newStage != Str(Repaired.Code()) ==> r.body.completedDate == req.completedDate
    ensures r.Ok? ==> r.body == req.(stage := r.body.stage, completedDate := r.body.completedDate)
  {
    if !Truthy(newStage) then Error(400, "Stage is required")
    else
      var staged := req.(stage := CharFieldText(newStage).value);
      Ok(if newStage == Str(Repaired.Code()) then staged.(completedDate := Some(now)) else staged)
  }

  /** No stage-to-stage move is refused, and the stage written need not be a
      declared choice. */
  lemma AnyStageIsAccepted(req: Request, now: DateTime)
    ensures forall s :: s != "" ==> StageUpdate(req, Str(s), now).Ok?
    ensures !RequestChoicesValid(StageUpdate(req, Str("DONE"), now).body)
  {
    assert "DONE" !in StageCodes;
  }

  /** A body stage that is not a string passes when truthy and is stored as
      Python's `str()` of it; `0` and `false` are refused like a missing
      stage. */
  lemma NonStringStages(req: Request, n: int, now: DateTime)
    requires n != 0
    ensures StageUpdate(req, Bool(true), now).Ok? && StageUpdate(req, Bool(true), now).body.stage == "True"
    ensures StageUpdate(req, Num(n), now).Ok? && PyInt(StageUpdate(req, Num(n), now).body.stage) == Some(n)
    ensures !RequestChoicesValid(StageUpdate(req, Bool(true), now).body)
    ensures StageUpdate(req, Num(0), now) == Error(400, "Stage is required")
    ensures StageUpdate(req, Bool(false), now) == Error(400, "Stage is required")
  {
    assert "True" !in StageCodes;
  }

  /** A request moved to REPAIRED is never overdue afterwards. */
  lemma RepairedIsNotOverdue(req: Request, now: DateTime, later: DateTime)
    ensures !IsOverdue(StageUpdate(req, Str(Repaired.Code()), now).body, later)
  {
  }

  /** `update_stage` on the request with key `pk`. */
  method UpdateStage(db: Database, pk: int, newStage: Value, now: DateTime) returns (resp: Response<Request>)
    requires db.Valid()
    modifies db
    ensures db.Valid()
    ensures pk !in old(db.requests) ==> resp == NotFound
    ensures pk in old(db.requests) ==> resp == StageUpdate(old(db.requests)[pk], newStage, now)
    ensures resp.Ok? ==> db.requests == old(db.requests)[pk := resp.body]
    ensures resp.Ok? ==> db.equipment == ScrapOnSave(old(db.equipment), resp.body)
    ensures !resp.Ok? ==> db.requests == old(db.requests) && db.equipment == old(db.equipment)
    ensures db.technicians == old(db.technicians) && db.users == old(db.users)
  {
    if pk !in db.requests {
      return NotFound;
    }
    resp := StageUpdate(db.requests[pk], newStage, now);
    if resp.Ok? {
      db.SaveRequest(resp.body);
    }
  }

  // ---------------------------------------------------------------------
  // assign_technician

  /** The key `Technician.objects.get(id=v)` looks up: Django converts the
      JSON value with `int()`, so `true` is 1, a number is itself and a
      string is parsed; a string that is not an integer raises `ValueError`,
      written `None`. */
  function TechnicianKey(v: Value): (k: Option<int>)
    ensures v == Bool(true) ==> k == Some(1)
    ensures v.Num? ==> k == Some(v.n)
    ensures v.Str? ==> k == PyInt(v.s)
  {
    match v
    case Null => None
    case Bool(b) => Some(if b then 1 else 0)
    case Num(n) => Some(n)
    case Str(s) => PyInt(s)
  }

  /** The request after `PATCH assign_technician` with body `technician_id`
      (`Null` when absent): a falsy value is refused with 400, a key that
      `int()` cannot read raises past the `DoesNotExist` handler (500), a key
      naming no technician is refused with 404, and otherwise only the
      assigned technician changes. */
  function TechnicianAssignment(req: Request, technicianId: Value, technicians: map<int, Technician>): (r: Response<Request>)
    ensures r == Error(400, "Technician ID is required") <==> !Truthy(technicianId)
    ensures r.ServerError? <==> Truthy(technicianId) && TechnicianKey(technicianId).None?
    ensures r == Error(404, "Technician not found") <==>
      Truthy(technicianId) && TechnicianKey(technicianId).Some? && TechnicianKey(technicianId).value !in technicians
    ensures r.Ok? <==>
      Truthy(technicianId) && TechnicianKey(technicianId).Some? && TechnicianKey(technicianId).value in technicians
    ensures r.Ok? ==> r.body == req.(assignedTechnician := TechnicianKey(technicianId))
  {
    if !Truthy(technicianId) then Error(400, "Technician ID is required")
    else
      match TechnicianKey(technicianId)
      case None => ServerError
      case Some(k) => if k in technicians then Ok(req.(assignedTechnician := Some(k))) else Error(404, "Technician not found")
  }

  /** The string "0" is truthy, so it passes the 400 check and is looked
      up as key 0, which no technician has; only a number 0 (or a falsy
      value) is refused with 400. */
  lemma ZeroStringIsLookedUp(req: Request, technicians: map<int, Technician>)
    requires 0 !in technicians
    ensures TechnicianAssignment(req, Str("0"), technicians) == Error(404, "Technician not found")
    ensures TechnicianAssignment(req, Num(0), technicians) == Error(400, "Technician ID is required")
  {
    PyIntOfIntToString(0);
    assert IntToString(0) == "0";
  }

  /** A string that is not a number raises past the handler. */
  lemma NonNumberIsServerError(req: Request, technicians: map<int, Technician>)
    ensures TechnicianAssignment(req, Str("abc"), technicians) == ServerError
  {
    var abc := "abc";
    assert abc[0] == 'a' && abc[|abc| - 1] == 'c';
    PyIntOfNonDigit(abc);
    assert Truthy(Str(abc)) && TechnicianKey(Str(abc)).None?;
  }

  /** `true` is looked up as key 1. */
  lemma TrueIsKeyOne(req: Request, technicians: map<int, Technician>)
    requires 1 in technicians
    ensures TechnicianAssignment(req, Bool(true), technicians) == Ok(req.(assignedTechnician := Some(1)))
  {
  }

  /** `assign_technician` on the request with key `pk`. The save may scrap
      equipment again, when the request is in stage SCRAP. */
  method AssignTechnician(db: Database, pk: int, technicianId: Value) returns (resp: Response<Request>)
    requires db.Valid()
    modifies db
    ensures db.Valid()
    ensures pk !in old(db.requests) ==> resp == NotFound
    ensures pk in old(db.requests) ==> resp == TechnicianAssignment(old(db.requests)[pk], technicianId, old(db.technicians))
    ensures resp.Ok? ==> db.requests == old(db.requests)[pk := resp.body]
    ensures resp.Ok? ==> db.equipment == ScrapOnSave(old(db.equipment), resp.body)
    ensures !resp.Ok? ==> db.requests == old(db.requests) && db.equipment == old(db.equipment)
    ensures db.technicians == old(db.technicians) && db.users == old(db.users)
  {
    if pk !in db.requests {
      return NotFound;
    }
    resp := TechnicianAssignment(db.requests[pk], technicianId, db.technicians);
    if resp.Ok? {
      db.SaveRequest(resp.body);
    }
  }

  // ---------------------------------------------------------------------
  // List filters

  /** `by_department`: the equipment of the given department; an absent or
      empty parameter is refused. */
  function ByDepartment(all: seq<Equipment>, department: Option<string>): (r: Response<seq<Equipment>>)
    ensures r.Ok? <==> department.Some? && department.value != ""
    ensures !r.Ok? ==> r == Error(400, "Department parameter required")
    ensures r.Ok? ==> forall i :: 0 <= i < |r.body| ==> r.body[i] in all && r.body[i].department == department.value
    ensures r.Ok? ==> forall i :: 0 <= i < |all| && all[i].department == department.value ==> all[i] in r.body
  {
    if department.None? || department.value == "" then Error(400, "Department parameter required")
    else
      var d := department.value;
      Ok(Filter(all, (e: Equipment) => e.department == d))
  }

  /** `by_stage`: the requests in the given stage. */
  function ByStage(all: seq<Request>, stage: Option<string>): (r: Response<seq<Request>>)
    ensures r.Ok? <==> stage.Some? && stage.value != ""
    ensures !r.Ok? ==> r == Error(400, "Stage parameter required")
    ensures r.Ok? ==> forall i :: 0 <= i < |r.body| ==> r.body[i] in all && r.body[i].stage == stage.value
    ensures r.Ok? ==> forall i :: 0 <= i < |all| && all[i].stage == stage.value ==> all[i] in r.body
  {
    if stage.None? || stage.value == "" then Error(400, "Stage parameter required")
    else
      var s := stage.value;
      Ok(Filter(all, (q: Request) => q.stage == s))
  }

  /** `by_team`: the requests of the team whose key is the parameter. The
      parameter is converted to an integer for the lookup; one that is not an
      integer raises, which the view does not catch. */
  function ByTeam(all: seq<Request>, teamId: Option<string>): (r: Response<seq<Request>>)
    ensures r == Error(400, "Team ID parameter required") <==> teamId.None? || teamId.value == ""
    ensures r.ServerError? <==> teamId.Some? && teamId.value != "" && PyInt(teamId.value).None?
    ensures r.Ok? <==> teamId.Some? && PyInt(teamId.value).Some?
    ensures r.Ok? ==> forall i :: 0 <= i < |r.body| ==>
      r.body[i] in all && r.body[i].maintenanceTeam == PyInt(teamId.value)
    ensures r.Ok? ==> forall i :: 0 <= i < |all| && all[i].maintenanceTeam == PyInt(teamId.value) ==> all[i] in r.body
  {
    if teamId.None? || teamId.value == "" then Error(400, "Team ID parameter required")
    else
      match PyInt(teamId.value)
      case Some(n) => Ok(Filter(all, (q: Request) => q.maintenanceTeam == Some(n)))
      case None => ServerError
  }

  /** `int()` strips white space, so a padded team key selects the same
      requests as the bare one. */
  lemma ByTeamOfPadded(all: seq<Request>, n: int)
    ensures ByTeam(all, Some(" " + IntToString(n) + "\n")) == ByTeam(all, Some(IntToString(n)))
    ensures ByTeam(all, Some(IntToString(n))).Ok?
  {
    PyIntOfPadded(n);
    PyIntOfIntToString(n);
  }

  /** `calendar`: the preventive requests that have a scheduled date. */
  function CalendarRequests(all: seq<Request>): (r: seq<Request>)
    ensures forall i :: 0 <= i < |r| ==>
      r[i] in all && r[i].requestType == Preventive.Code() && r[i].scheduledDate.Some?
    ensures forall i :: 0 <= i < |all| && all[i].requestType == Preventive.Code() && all[i].scheduledDate.Some? ==>
      all[i] in r
  {
    Filter(all, (q: Request) => q.requestType == Preventive.Code() && q.scheduledDate.Some?)
  }

  /** Every list filter keeps the queryset order. */
  lemma ListFiltersKeepOrder(requests: seq<Request>, equipment: seq<Equipment>, param: string)
    requires param != ""
    ensures IsSubsequence(ByDepartment(equipment, Some(param)).body, equipment)
    ensures IsSubsequence(ByStage(requests, Some(param)).body, requests)
    ensures PyInt(param).Some? ==> IsSubsequence(ByTeam(requests, Some(param)).body, requests)
    ensures IsSubsequence(CalendarRequests(requests), requests)
  {
    FilterIsSubsequence(equipment, (e: Equipment) => e.department == param);
    FilterIsSubsequence(requests, (q: Request) => q.stage == param);
    if PyInt(param).Some? {
      var n := PyInt(param).value;
      FilterIsSubsequence(requests, (q: Request) => q.maintenanceTeam == Some(n));
    }
    FilterIsSubsequence(requests, (q: Request) => q.requestType == Preventive.Code() && q.scheduledDate.Some?);
  }
}

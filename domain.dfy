/** The maintenance domain: the closed choice sets of the `maintenance` app and
    the records that the server stores and the client receives.

    A choice field is stored as its code string (`"IN_PROGRESS"`). Django does
    not check a choice on `save`, and the client renders whatever string it
    gets, so the records keep the strings; the enums say which strings are the
    declared choices. */
module Domain {
  import opened Options
  import opened Dates
  import opened Seqs

  // ---------------------------------------------------------------------
  // Choice sets

  /** The workflow stage of a request. */
  datatype Stage = New | InProgress | Repaired | Scrap
  {
    function Code(): string
    {
      match this
      case New => "NEW"
      case InProgress => "IN_PROGRESS"
      case Repaired => "REPAIRED"
      case Scrap => "SCRAP"
    }
  }

  datatype Priority = Low | Medium | High | Urgent
  {
    function Code(): string
    {
      match this
      case Low => "LOW"
      case Medium => "MEDIUM"
      case High => "HIGH"
      case Urgent => "URGENT"
    }
  }

  datatype RequestType = Corrective | Preventive
  {
    function Code(): string
    {
      match this
      case Corrective => "CORRECTIVE"
      case Preventive => "PREVENTIVE"
    }
  }

  datatype Category = Machine | Vehicle | Computer | Tool | Other
  {
    function Code(): string
    {
      match this
      case Machine => "MACHINE"
      case Vehicle => "VEHICLE"
      case Computer => "COMPUTER"
      case Tool => "TOOL"
      case Other => "OTHER"
    }
  }

  /** The codes in declaration order, as the choice lists and the client's
      column and row lists give them. */
  const StageCodes: seq<string> := ["NEW", "IN_PROGRESS", "REPAIRED", "SCRAP"]
  const PriorityCodes: seq<string> := ["LOW", "MEDIUM", "HIGH", "URGENT"]
  const RequestTypeCodes: seq<string> := ["CORRECTIVE", "PREVENTIVE"]
  const CategoryCodes: seq<string> := ["MACHINE", "VEHICLE", "COMPUTER", "TOOL", "OTHER"]

  /** No code is listed twice. */
  lemma CodesAreDistinct()
    ensures Distinct(StageCodes) && Distinct(PriorityCodes)
    ensures Distinct(RequestTypeCodes) && Distinct(CategoryCodes)
  {
  }

  /** The stage named by a stored code; none for a string outside the choices. */
  function ParseStage(code: string): (r: Option<Stage>)
    ensures r.Some? <==> code in StageCodes
    ensures r.Some? ==> r.value.Code() == code
  {
    if code == "NEW" then Some(New)
    else if code == "IN_PROGRESS" then Some(InProgress)
    else if code == "REPAIRED" then Some(Repaired)
    else if code == "SCRAP" then Some(Scrap)
    else None
  }

  function ParsePriority(code: string): (r: Option<Priority>)
    ensures r.Some? <==> code in PriorityCodes
    ensures r.Some? ==> r.value.Code() == code
  {
    if code == "LOW" then Some(Low)
    else if code == "MEDIUM" then Some(Medium)
    else if code == "HIGH" then Some(High)
    else if code == "URGENT" then Some(Urgent)
    else None
  }

  function ParseRequestType(code: string): (r: Option<RequestType>)
    ensures r.Some? <==> code in RequestTypeCodes
    ensures r.Some? ==> r.value.Code() == code
  {
    if code == "CORRECTIVE" then Some(Corrective)
    else if code == "PREVENTIVE" then Some(Preventive)
    else None
  }

  function ParseCategory(code: string): (r: Option<Category>)
    ensures r.Some? <==> code in CategoryCodes
    ensures r.Some? ==> r.value.Code() == code
  {
    if code == "MACHINE" then Some(Machine)
    else if code == "VEHICLE" then Some(Vehicle)
    else if code == "COMPUTER" then Some(Computer)
    else if code == "TOOL" then Some(Tool)
    else if code == "OTHER" then Some(Other)
    else None
  }

  /** Every value's code is listed, and reads back as that value. */
  lemma CodesRoundTrip(s: Stage, p: Priority, t: RequestType, c: Category)
    ensures s.Code() in StageCodes && ParseStage(s.Code()) == Some(s)
    ensures p.Code() in PriorityCodes && ParsePriority(p.Code()) == Some(p)
    ensures t.Code() in RequestTypeCodes && ParseRequestType(t.Code()) == Some(t)
    ensures c.Code() in CategoryCodes && ParseCategory(c.Code()) == Some(c)
  {
  }

  /** A request in REPAIRED or SCRAP is closed; every other stage string,
      including one outside the choices, counts as open. */
  predicate IsClosedStage(stage: string)
  {
    stage == Repaired.Code() || stage == Scrap.Code()
  }

  // ---------------------------------------------------------------------
  // Records

  /** `django.contrib.auth` user, with the fields the name helpers read. */
  datatype User = User(id: int, username: string, firstName: string, lastName: string)

  datatype Team = Team(id: int, name: string)

  /** A technician is one user, optionally in one team. */
  datatype Technician = Technician(id: int, user: int, team: Option<int>)

  datatype Equipment = Equipment(
    id: int,
    name: string,
    serialNumber: string,
    category: string,
    department: string,
    maintenanceTeam: Option<int>,
    defaultTechnician: Option<int>,
    isScrapped: bool)

  datatype Request = Request(
    id: int,
    subject: string,
    equipment: int,
    requestType: string,
    stage: string,
    priority: string,
    maintenanceTeam: Option<int>,
    assignedTechnician: Option<int>,
    scheduledDate: Option<DateTime>,
    completedDate: Option<DateTime>,
    requestedBy: Option<int>)

  /** The stage a request is grouped by. */
  function StageOf(r: Request): string
  {
    r.stage
  }

  /** A request counts as open while its stage is not a closed one. */
  predicate IsOpen(r: Request)
  {
    !IsClosedStage(r.stage)
  }

  /** The choice fields of a request hold declared codes. */
  predicate RequestChoicesValid(r: Request)
  {
    r.requestType in RequestTypeCodes && r.stage in StageCodes && r.priority in PriorityCodes
  }

  predicate EquipmentChoicesValid(e: Equipment)
  {
    e.category in CategoryCodes
  }
}

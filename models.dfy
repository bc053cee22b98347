/** The `maintenance` app's tables: field defaults, the unique serial number,
    and `MaintenanceRequest.save`, which scraps the request's equipment when
    the request is saved in stage SCRAP.

    The database is one object whose tables are maps from primary key to row;
    the ORM calls that write a row are the methods that reassign a map. */
module Models {
  import opened Options
  import opened Dates
  import opened Domain

  /** The columns a new request is created from; a choice left out is `None`
      and takes its column default. */
  datatype RequestFields = RequestFields(
    subject: string,
    equipment: int,
    requestType: Option<string>,
    stage: Option<string>,
    priority: Option<string>,
    maintenanceTeam: Option<int>,
    assignedTechnician: Option<int>,
    scheduledDate: Option<DateTime>,
    requestedBy: Option<int>)

  datatype EquipmentFields = EquipmentFields(
    name: string,
    serialNumber: string,
    category: Option<string>,
    department: string,
    maintenanceTeam: Option<int>,
    defaultTechnician: Option<int>)

  /** A new request row: stage NEW, type CORRECTIVE and priority MEDIUM unless
      given, and no completion date. */
  function NewRequest(id: int, f: RequestFields): (r: Request)
    ensures r.id == id && r.subject == f.subject && r.equipment == f.equipment
    ensures f.stage.None? ==> r.stage == New.Code()
    ensures f.requestType.None? ==> r.requestType == Corrective.Code()
    ensures f.priority.None? ==> r.priority == Medium.Code()
    ensures f.stage.Some? ==> r.stage == f.stage.value
    ensures f.requestType.Some? ==> r.requestType == f.requestType.value
    ensures f.priority.Some? ==> r.priority == f.priority.value
    ensures r.completedDate.None?
    ensures r.maintenanceTeam == f.maintenanceTeam && r.assignedTechnician == f.assignedTechnician
    ensures r.scheduledDate == f.scheduledDate && r.requestedBy == f.requestedBy
  {
    Request(
      id, f.subject, f.equipment,
      if f.requestType.Some? then f.requestType.value else Corrective.Code(),
      if f.stage.Some? then f.stage.value else New.Code(),
      if f.priority.Some? then f.priority.value else Medium.Code(),
      f.maintenanceTeam, f.assignedTechnician, f.scheduledDate, None, f.requestedBy)
  }

  /** A new equipment row: category OTHER unless given, and not scrapped. */
  function NewEquipment(id: int, f: EquipmentFields): (e: Equipment)
    ensures e.id == id && e.name == f.name && e.serialNumber == f.serialNumber
    ensures f.category.None? ==> e.category == Other.Code()
    ensures f.category.Some? ==> e.category == f.category.value
    ensures !e.isScrapped
    ensures e.department == f.department
    ensures e.maintenanceTeam == f.maintenanceTeam && e.defaultTechnician == f.defaultTechnician
  {
    Equipment(
      id, f.name, f.serialNumber,
      if f.category.Some? then f.category.value else Other.Code(),
      f.department, f.maintenanceTeam, f.defaultTechnician, false)
  }

  /** Defaults are declared choices, so a row created with only declared
      choices, or none, holds declared choices. */
  lemma DefaultsAreChoices(id: int, rf: RequestFields, ef: EquipmentFields)
    requires rf.stage.Some? ==> rf.stage.value in StageCodes
    requires rf.requestType.Some? ==> rf.requestType.value in RequestTypeCodes
    requires rf.priority.Some? ==> rf.priority.value in PriorityCodes
    requires ef.category.Some? ==> ef.category.value in CategoryCodes
    ensures RequestChoicesValid(NewRequest(id, rf))
    ensures EquipmentChoicesValid(NewEquipment(id, ef))
  {
  }

  /** No two equipment rows share a serial number. */
  ghost predicate SerialsUnique(equipment: map<int, Equipment>)
  {
    forall a, b :: a in equipment && b in equipment && equipment[a].serialNumber == equipment[b].serialNumber ==> a == b
  }

  /** The serial number `serial` is already taken. */
  predicate SerialTaken(equipment: map<int, Equipment>, serial: string)
  {
    exists k :: k in equipment && equipment[k].serialNumber == serial
  }

  /** The equipment table after saving request `r`: its equipment is marked
      scrapped when `r` is in stage SCRAP; nothing else changes. */
  function ScrapOnSave(equipment: map<int, Equipment>, r: Request): (e: map<int, Equipment>)
    requires r.equipment in equipment
    ensures e.Keys == equipment.Keys
    ensures forall k :: k in e ==> e[k] == equipment[k].(isScrapped := e[k].isScrapped)
    ensures forall k :: k in e ==>
      (e[k].isScrapped <==> equipment[k].isScrapped || (k == r.equipment && r.stage == Scrap.Code()))
    ensures r.stage != Scrap.Code() ==> e == equipment
  {
    if r.stage == Scrap.Code() then equipment[r.equipment := equipment[r.equipment].(isScrapped := true)]
    else equipment
  }

  /** The equipment table after saving the requests `rs` one after the other. */
  function SaveAll(equipment: map<int, Equipment>, rs: seq<Request>): (e: map<int, Equipment>)
    requires forall i :: 0 <= i < |rs| ==> rs[i].equipment in equipment
    ensures e.Keys == equipment.Keys
  {
    if rs == [] then equipment else SaveAll(ScrapOnSave(equipment, rs[0]), rs[1..])
  }

  /** Scrapping is monotone: after any run of saves, a piece of equipment is
      scrapped exactly when it was before or one of the saved requests for it
      was in stage SCRAP. In particular no save clears the flag. */
  lemma {:induction false} ScrappedAfterSaves(equipment: map<int, Equipment>, rs: seq<Request>, k: int)
    requires forall i :: 0 <= i < |rs| ==> rs[i].equipment in equipment
    requires k in equipment
    ensures SaveAll(equipment, rs)[k].isScrapped <==>
      equipment[k].isScrapped || exists i :: 0 <= i < |rs| && rs[i].equipment == k && rs[i].stage == Scrap.Code()
    ensures SaveAll(equipment, rs)[k] == equipment[k].(isScrapped := SaveAll(equipment, rs)[k].isScrapped)
  {
    if rs != [] {
      var next := ScrapOnSave(equipment, rs[0]);
      ScrappedAfterSaves(next, rs[1..], k);
      if exists i :: 0 <= i < |rs[1..]| && rs[1..][i].equipment == k && rs[1..][i].stage == Scrap.Code() {
        var i :| 0 <= i < |rs[1..]| && rs[1..][i].equipment == k && rs[1..][i].stage == Scrap.Code();
        assert rs[i + 1] == rs[1..][i];
      }
      if exists i :: 0 <= i < |rs| && rs[i].equipment == k && rs[i].stage == Scrap.Code() {
        var i :| 0 <= i < |rs| && rs[i].equipment == k && rs[i].stage == Scrap.Code();
        if i > 0 {
          assert rs[1..][i - 1] == rs[i];
        }
      }
    }
  }

  /** The tables of the `maintenance` app. */
  class Database {
    var equipment: map<int, Equipment>
    var requests: map<int, Request>
    var technicians: map<int, Technician>
    var users: map<int, User>

    /** Rows are stored under their own primary key, serial numbers are
        unique, and every request's equipment exists (the foreign key). */
    ghost predicate Valid()
      reads this
    {
      (forall k :: k in equipment ==> equipment[k].id == k) &&
      (forall k :: k in requests ==> requests[k].id == k) &&
      (forall k :: k in technicians ==> technicians[k].id == k) &&
      (forall k :: k in users ==> users[k].id == k) &&
      SerialsUnique(equipment) &&
      (forall k :: k in requests ==> requests[k].equipment in equipment)
    }

    constructor ()
      ensures Valid()
      ensures equipment == map[] && requests == map[] && technicians == map[] && users == map[]
    {
      equipment := map[];
      requests := map[];
      technicians := map[];
      users := map[];
    }

    /** `MaintenanceRequest.save`: the equipment is scrapped first when the
        request is in stage SCRAP, then the request row is written. */
    method SaveRequest(r: Request)
      requires Valid()
      requires r.equipment in equipment
      modifies this
      ensures Valid()
      ensures equipment == ScrapOnSave(old(equipment), r)
      ensures requests == old(requests)[r.id := r]
      ensures technicians == old(technicians) && users == old(users)
    {
      if r.stage == Scrap.Code() {
        var e := equipment[r.equipment];
        equipment := equipment[r.equipment := e.(isScrapped := true)];
      }
      requests := requests[r.id := r];
    }

    /** Inserting an equipment row under the fresh key `e.id`: the unique
        constraint on the serial number rejects a duplicate and then nothing
        is written. */
    method InsertEquipment(e: Equipment) returns (inserted: bool)
      requires Valid()
      requires e.id !in equipment
      modifies this
      ensures Valid()
      ensures inserted <==> !SerialTaken(old(equipment), e.serialNumber)
      ensures equipment == if inserted then old(equipment)[e.id := e] else old(equipment)
      ensures requests == old(requests) && technicians == old(technicians) && users == old(users)
    {
      inserted := !SerialTaken(equipment, e.serialNumber);
      if inserted {
        equipment := equipment[e.id := e];
      }
    }
  }
}

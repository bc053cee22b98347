/** The views of the older `requests` app, which keeps its own request table:
    `get_requests`, `update_stage`, which writes whatever stage is posted, and
    `statistics`, which counts all requests and those in NEW and IN_PROGRESS. */
module RequestsViews {
  import opened Options
  import opened Seqs
  import opened Dates
  import opened Http
  import Forms

  /** A row of the `requests` app's table. Its stage column is NOT NULL. */
  datatype LegacyRequest = LegacyRequest(
    id: int,
    subject: string,
    equipment: int,
    stage: string,
    priority: string,
    scheduledDate: Option<CivilDate>)

  function StageOf(r: LegacyRequest): string
  {
    r.stage
  }

  /** The body of `statistics`. */
  datatype Statistics = Statistics(totalRequests: nat, newCount: nat, inProgressCount: nat)

  /** `statistics`: the total and the counts of the two stages it reports.
      Requests in other stages, or in a stage outside the choices, are in the
      total only. */
  function ComputeStatistics(rows: seq<LegacyRequest>): (s: Statistics)
    ensures s.totalRequests == |rows|
    ensures s.newCount == |WithKey(rows, StageOf, "NEW")|
    ensures s.inProgressCount == |WithKey(rows, StageOf, "IN_PROGRESS")|
    ensures s.newCount + s.inProgressCount <= s.totalRequests
    ensures s.newCount + s.inProgressCount == s.totalRequests <==>
      forall i :: 0 <= i < |rows| ==> rows[i].stage == "NEW" || rows[i].stage == "IN_PROGRESS"
  {
    var ks := ["NEW", "IN_PROGRESS"];
    SumOfCountsBound(rows, StageOf, ks);
    assert ks[0] == "NEW" && ks[1..] == ["IN_PROGRESS"] && ks[1..][1..] == [];
    assert SumOfCounts(rows, StageOf, ks) ==
      |WithKey(rows, StageOf, "NEW")| + |WithKey(rows, StageOf, "IN_PROGRESS")| + SumOfCounts(rows, StageOf, []);
    Statistics(|rows|, |WithKey(rows, StageOf, "NEW")|, |WithKey(rows, StageOf, "IN_PROGRESS")|)
  }

  /** The request table, in primary-key order. */
  class RequestTable {
    var rows: seq<LegacyRequest>

    ghost predicate Valid()
      reads this
    {
      forall i, j :: 0 <= i < j < |rows| ==> rows[i].id != rows[j].id
    }

    constructor (initial: seq<LegacyRequest>)
      requires forall i, j :: 0 <= i < j < |initial| ==> initial[i].id != initial[j].id
      ensures Valid() && rows == initial
    {
      rows := initial;
    }

    /** `get_requests`: every row. */
    method GetRequests() returns (all: seq<LegacyRequest>)
      ensures all == rows
    {
      all := rows;
    }

    /** `MaintenanceRequest.objects.get(id=id)`: the position of the row with
        that key, if there is one. */
    method Find(id: int) returns (found: Option<nat>)
      ensures found.None? <==> forall i :: 0 <= i < |rows| ==> rows[i].id != id
      ensures found.Some? ==> found.value < |rows| && rows[found.value].id == id
    {
      var i := 0;
      while i < |rows|
        invariant 0 <= i <= |rows|
        invariant forall j :: 0 <= j < i ==> rows[j].id != id
      {
        if rows[i].id == id {
          return Some(i);
        }
        i := i + 1;
      }
      return None;
    }

    /** `update_stage`: the posted stage is written without any check and the
        answer is always "updated"; a value that is not a string is stored
        as Python's `str()` of it, so `false` becomes "False". A key naming
        no row raises `DoesNotExist`, and a missing or null stage writes
        NULL into the NOT NULL column, which the database refuses; neither
        is caught, and nothing is written. */
    method UpdateStage(id: int, stage: Forms.Value) returns (resp: Response<string>)
      requires Valid()
      modifies this
      ensures Valid()
      ensures |rows| == |old(rows)|
      ensures resp.Ok? <==> !stage.Null? && exists i :: 0 <= i < |old(rows)| && old(rows)[i].id == id
      ensures resp.Ok? ==> resp.body == "updated"
      ensures !resp.Ok? ==> resp == ServerError && rows == old(rows)
      ensures resp.Ok? ==> forall i :: 0 <= i < |rows| ==>
        rows[i] == if old(rows)[i].id == id then old(rows)[i].(stage := Forms.CharFieldText(stage).value) else old(rows)[i]
    {
      var found := Find(id);
      if found.None? || stage.Null? {
        return ServerError;
      }
      var i := found.value;
      rows := rows[i := rows[i].(stage := Forms.CharFieldText(stage).value)];
      resp := Ok("updated");
    }
  }
}

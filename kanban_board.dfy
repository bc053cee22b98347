/** The kanban board component: it fetches the requests itself, shows one
    column per stage, colours each card by priority, and moves a card to
    another column by drag and drop, which asks the server to change the
    request's stage. */
module KanbanBoard {
  import opened Options
  import opened Seqs
  import opened Domain

  /** `getRequestsByStage(stage)`: the requests of one column, in order. */
  function ColumnOf(requests: seq<Request>, stage: string): (column: seq<Request>)
    ensures |column| <= |requests|
    ensures forall i :: 0 <= i < |column| ==> column[i] in requests && column[i].stage == stage
    ensures forall i :: 0 <= i < |requests| && requests[i].stage == stage ==> requests[i] in column
  {
    WithKey(requests, StageOf, stage)
  }

  /** A card sits in the column of its own stage and in no other, so two
      different columns never share a card. */
  lemma ColumnsAreDisjoint(requests: seq<Request>, s1: string, s2: string)
    ensures forall i :: 0 <= i < |requests| ==> (requests[i] in ColumnOf(requests, s1) <==> requests[i].stage == s1)
    ensures s1 != s2 ==> forall i :: 0 <= i < |requests| ==>
      !(requests[i] in ColumnOf(requests, s1) && requests[i] in ColumnOf(requests, s2))
  {
    GroupsAreDisjoint(requests, StageOf, s1, s2);
  }

  /** The four columns together hold at most every request, and exactly
      every request when all stages are declared ones. */
  lemma ColumnsHoldAtMostAll(requests: seq<Request>)
    ensures SumOfCounts(requests, StageOf, StageCodes) <= |requests|
    ensures SumOfCounts(requests, StageOf, StageCodes) == |requests| <==>
      forall i :: 0 <= i < |requests| ==> requests[i].stage in StageCodes
  {
    CodesAreDistinct();
    SumOfCountsBound(requests, StageOf, StageCodes);
  }

  /** `getBadgeClass`: a fixed class per declared priority, and
      `badge-secondary` for anything else. */
  function BadgeClass(priority: string): (c: string)
    ensures priority == Low.Code() ==> c == "badge-secondary"
    ensures priority == Medium.Code() ==> c == "badge-new"
    ensures priority == High.Code() ==> c == "badge-warning"
    ensures priority == Urgent.Code() ==> c == "badge-scrap"
    ensures priority !in PriorityCodes ==> c == "badge-secondary"
  {
    var classes := map[
      Low.Code() := "badge-secondary",
      Medium.Code() := "badge-new",
      High.Code() := "badge-warning",
      Urgent.Code() := "badge-scrap"];
    if priority in classes && classes[priority] != "" then classes[priority] else "badge-secondary"
  }

  /** The `updateRequestStage(id, stage)` call a drop makes. */
  datatype StageCall = StageCall(id: int, stage: string)

  /** The call a drop onto `newStage` makes: none without a dragged card or
      when the card is already in that stage, else one call for the card. */
  function DropCall(dragged: Option<Request>, newStage: string): (c: Option<StageCall>)
    ensures c.Some? <==> dragged.Some? && dragged.value.stage != newStage
    ensures c.Some? ==> c.value == StageCall(dragged.value.id, newStage)
  {
    if dragged.Some? && dragged.value.stage != newStage then Some(StageCall(dragged.value.id, newStage))
    else None
  }

  /** The board's state. */
  class Board {
    var requests: seq<Request>
    var loading: bool
    var draggedItem: Option<Request>

    constructor ()
      ensures requests == [] && loading && draggedItem.None?
    {
      requests := [];
      loading := true;
      draggedItem := None;
    }

    /** `fetchRequests` with the API's answer (`None` when it fails). */
    method FetchRequests(response: Option<seq<Request>>)
      modifies this
      ensures !loading
      ensures requests == if response.Some? then response.value else old(requests)
      ensures draggedItem == old(draggedItem)
    {
      if response.Some? {
        requests := response.value;
      }
      loading := false;
    }

    /** `handleDragStart`: the picked card becomes the dragged item. */
    method HandleDragStart(r: Request)
      modifies this
      ensures draggedItem == Some(r)
      ensures requests == old(requests) && loading == old(loading)
    {
      draggedItem := Some(r);
    }

    /** `handleDrop` onto the column `newStage`. `updated` is whether the
        server accepted the call and `refetched` the list fetched after it.
        The dragged item is cleared in every case. */
    method HandleDrop(newStage: string, updated: bool, refetched: Option<seq<Request>>) returns (call: Option<StageCall>)
      modifies this
      ensures call == DropCall(old(draggedItem), newStage)
      ensures draggedItem.None?
      ensures call.Some? && updated ==> !loading && requests == if refetched.Some? then refetched.value else old(requests)
      ensures !(call.Some? && updated) ==> requests == old(requests) && loading == old(loading)
    {
      call := DropCall(draggedItem, newStage);
      if call.Some? && updated {
        FetchRequests(refetched);
      }
      draggedItem := None;
    }
  }
}

/** The equipment detail page: the equipment and its requests, the open
    requests among them, the edit modal, and which of the loading, not-found
    and detail views is shown. */
module EquipmentDetail {
  import opened Options
  import opened Seqs
  import opened Domain
  import opened Forms
  import opened Serializers

  /** `requests.filter(req => !['REPAIRED', 'SCRAP'].includes(req.stage))`. */
  function OpenRequests(requests: seq<Request>): (r: seq<Request>)
    ensures |r| <= |requests|
    ensures forall i :: 0 <= i < |r| ==> r[i] in requests && r[i].stage != "REPAIRED" && r[i].stage != "SCRAP"
    ensures forall i :: 0 <= i < |requests| && requests[i].stage != "REPAIRED" && requests[i].stage != "SCRAP" ==>
      requests[i] in r
  {
    Filter(requests, IsOpen)
  }

  /** The open requests keep the list's order, and the "Open" badge never
      shows more than the "Total" badge. */
  lemma OpenRequestsKeepOrder(requests: seq<Request>)
    ensures IsSubsequence(OpenRequests(requests), requests)
    ensures |OpenRequests(requests)| <= |requests|
  {
    FilterIsSubsequence(requests, IsOpen);
  }

  /** On the requests of one equipment, as its `requests` action lists them,
      the page's open count is the serializer's `open_request_count` and its
      total is `request_count`. */
  lemma CountsAgreeWithSerializer(e: Equipment, all: seq<Request>)
    ensures |OpenRequests(RequestsOf(e, all))| == OpenRequestCount(e, all)
    ensures |RequestsOf(e, all)| == RequestCount(e, all)
  {
    OpenRequestCountBound(e, all);
  }

  /** What the page renders. */
  datatype View = Loading | NotFound | Details

  /** The two answers of `fetchEquipmentDetails`. */
  datatype Fetched = Fetched(equipment: Equipment, requests: seq<Request>)

  /** The page's state for the equipment with key `id`. */
  class Page {
    const id: int
    var equipment: Option<Equipment>
    var requests: seq<Request>
    var loading: bool
    var showEditModal: bool

    constructor (id: int)
      ensures this.id == id
      ensures equipment.None? && requests == [] && loading && !showEditModal
    {
      this.id := id;
      equipment := None;
      requests := [];
      loading := true;
      showEditModal := false;
    }

    /** The spinner while loading, then the not-found message when no
        equipment arrived, else the details. */
    function View(): (v: View)
      reads this
      ensures v == Loading <==> loading
      ensures v == NotFound <==> !loading && equipment.None?
      ensures v == Details <==> !loading && equipment.Some?
    {
      if loading then Loading
      else if equipment.None? then NotFound
      else Details
    }

    /** `fetchEquipmentDetails` with both answers, or `None` when a request
        failed: loading ends either way. */
    method FetchEquipmentDetails(response: Option<Fetched>)
      modifies this`equipment, this`requests, this`loading
      ensures !loading
      ensures View() == if equipment.Some? then Details else NotFound
      ensures response.Some? ==> equipment == Some(response.value.equipment) && requests == response.value.requests
      ensures response.None? ==> equipment == old(equipment) && requests == old(requests)
    {
      if response.Some? {
        equipment := Some(response.value.equipment);
        requests := response.value.requests;
      }
      loading := false;
    }

    /** The "Edit" button. */
    method OpenEditModal()
      modifies this`showEditModal
      ensures showEditModal
    {
      showEditModal := true;
    }

    /** `handleUpdate(formData)`: the form is sent for this equipment; on
        success the modal closes and the details are fetched again; on
        failure the error is passed back to the form and the modal stays. */
    method HandleUpdate(formData: Form, succeeded: bool) returns (sentTo: int, sent: Form, refetch: bool, rethrown: bool)
      modifies this`showEditModal
      ensures sentTo == id && sent == formData
      ensures refetch == succeeded && rethrown == !succeeded
      ensures succeeded ==> !showEditModal
      ensures !succeeded ==> showEditModal == old(showEditModal)
    {
      sentTo := id;
      sent := formData;
      if succeeded {
        showEditModal := false;
      }
      refetch := succeeded;
      rethrown := !succeeded;
    }
  }
}

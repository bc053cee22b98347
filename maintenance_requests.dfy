/** The maintenance requests page: the data it fetches, the new-request form
    with its submit payload and reset, and the grouping of the fetched
    requests by stage that it hands to the kanban board as a prop (the board
    ignores it and fetches on its own). */
module MaintenanceRequests {
  import opened Options
  import opened Seqs
  import opened Domain
  import opened Text
  import opened Forms

  /** The stages the page groups by, in column order. */
  const Stages: seq<string> := StageCodes

  /** `requestsByStage`, built by a loop over the stages: one entry per
      stage, holding the requests in that stage. */
  method GroupByStage(requests: seq<Request>) returns (byStage: map<string, seq<Request>>)
    ensures byStage.Keys == set s | s in Stages
    ensures forall s :: s in byStage ==> byStage[s] == WithKey(requests, StageOf, s)
  {
    byStage := map[];
    var i := 0;
    while i < |Stages|
      invariant 0 <= i <= |Stages|
      invariant byStage.Keys == set j | 0 <= j < i :: Stages[j]
      invariant forall s :: s in byStage ==> byStage[s] == WithKey(requests, StageOf, s)
    {
      byStage := byStage[Stages[i] := WithKey(requests, StageOf, Stages[i])];
      i := i + 1;
    }
  }

  /** Each group is the order-preserving sublist of the requests in its
      stage. */
  lemma GroupIsStageSublist(requests: seq<Request>, s: string)
    ensures IsSubsequence(WithKey(requests, StageOf, s), requests)
    ensures forall i :: 0 <= i < |requests| ==> (requests[i] in WithKey(requests, StageOf, s) <==> requests[i].stage == s)
  {
    FilterIsSubsequence(requests, KeyIs(StageOf, s));
    GroupsAreDisjoint(requests, StageOf, s, s);
  }

  /** The form's starting and reset value. */
  const DefaultForm: Form := map[
    "subject" := Str(""),
    "description" := Str(""),
    "equipment" := Str(""),
    "request_type" := Str(Corrective.Code()),
    "priority" := Str(Medium.Code()),
    "scheduled_date" := Str(""),
    "requested_by" := Str("")]

  /** The fields the payload converts. */
  predicate HasPayloadFields(form: Form)
  {
    "equipment" in form && "requested_by" in form && "scheduled_date" in form
  }

  lemma DefaultFormHasPayloadFields()
    ensures HasPayloadFields(DefaultForm)
  {
  }

  /** The form with the three converted fields replaced. */
  function WithPayloadFields(form: Form, equipment: Value, requestedBy: Value, scheduledDate: Value): (p: Form)
    requires HasPayloadFields(form)
    ensures p.Keys == form.Keys
    ensures p["equipment"] == equipment && p["requested_by"] == requestedBy && p["scheduled_date"] == scheduledDate
    ensures forall k :: k in form && k != "equipment" && k != "requested_by" && k != "scheduled_date" ==> p[k] == form[k]
  {
    form["equipment" := equipment]["requested_by" := requestedBy]["scheduled_date" := scheduledDate]
  }

  /** `submitData`: the equipment parsed as an integer, the requester parsed
      with NaN and 0 sent as null, a blank scheduled date sent as null, and
      every other field as it is. */
  function SubmitPayload(form: Form): (p: Form)
    requires HasPayloadFields(form)
    ensures p.Keys == form.Keys
    ensures p["equipment"] == IntOrNull(form["equipment"])
    ensures p["requested_by"] == NonZeroIntOrNull(form["requested_by"])
    ensures p["scheduled_date"] == OrElse(form["scheduled_date"], Null)
    ensures forall k :: k in form && k != "equipment" && k != "requested_by" && k != "scheduled_date" ==> p[k] == form[k]
  {
    WithPayloadFields(form, IntOrNull(form["equipment"]), NonZeroIntOrNull(form["requested_by"]),
                      OrElse(form["scheduled_date"], Null))
  }

  /** What the user's typing turns into: a blank date and a blank requester
      go as null, and a typed equipment key goes as that number. */
  lemma PayloadOfTypedForm(form: Form, equipment: int)
    requires HasPayloadFields(form)
    requires form["equipment"] == Str(IntToString(equipment))
    requires form["requested_by"] == Str("") && form["scheduled_date"] == Str("")
    ensures SubmitPayload(form)["equipment"] == Num(equipment)
    ensures SubmitPayload(form)["requested_by"] == Null
    ensures SubmitPayload(form)["scheduled_date"] == Null
  {
    ParseIntValueOfNumber(equipment);
    ParseIntValueOfBlank();
  }

  /** The three lists `fetchData` asks for. */
  datatype PageData = PageData(equipment: seq<Equipment>, users: seq<User>, requests: seq<Request>)

  /** The page's state. */
  class RequestsPage {
    var showModal: bool
    var equipment: seq<Equipment>
    var users: seq<User>
    var requests: seq<Request>
    var formData: Form

    ghost predicate Valid()
      reads this
    {
      HasPayloadFields(formData)
    }

    constructor ()
      ensures Valid()
      ensures !showModal && equipment == [] && users == [] && requests == [] && formData == DefaultForm
    {
      showModal := false;
      equipment := [];
      users := [];
      requests := [];
      formData := DefaultForm;
      DefaultFormHasPayloadFields();
    }

    /** `fetchData`: the three lists are set together when every call
        succeeds, and none of them when one fails. */
    method FetchData(response: Option<PageData>)
      modifies this
      ensures response.Some? ==> equipment == response.value.equipment && users == response.value.users && requests == response.value.requests
      ensures response.None? ==> equipment == old(equipment) && users == old(users) && requests == old(requests)
      ensures showModal == old(showModal) && formData == old(formData)
    {
      if response.Some? {
        equipment, users, requests := response.value.equipment, response.value.users, response.value.requests;
      }
    }

    /** `handleChange`: only the named field takes the typed value. */
    method HandleChange(name: string, value: string)
      requires Valid()
      modifies this`formData
      ensures Valid()
      ensures formData == SetField(old(formData), name, Str(value))
    {
      formData := SetField(formData, name, Str(value));
    }

    /** `handleSubmit`: the payload is sent; on success the modal closes,
        the form is reset and `fetchData` runs again (`refetch`); on failure
        (an alert) nothing changes. */
    method HandleSubmit(created: bool) returns (payload: Form, refetch: bool)
      requires Valid()
      modifies this`showModal, this`formData
      ensures Valid()
      ensures payload == SubmitPayload(old(formData))
      ensures refetch == created
      ensures created ==> !showModal && formData == DefaultForm
      ensures !created ==> showModal == old(showModal) && formData == old(formData)
    {
      var submitted := formData;
      if created {
        showModal := false;
        formData := DefaultForm;
        DefaultFormHasPayloadFields();
      }
      payload := SubmitPayload(submitted);
      refetch := created;
    }
  }
}

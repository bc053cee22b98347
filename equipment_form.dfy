/** The equipment form component: its fields start from defaults overridden
    by the initial data, change one at a time, and are handed unchanged to the
    caller's submit handler while a loading flag is raised. The technician
    select lists only the technicians of the chosen maintenance team. */
module EquipmentForm {
  import opened Options
  import opened Seqs
  import opened Text
  import opened Domain
  import opened Forms
  import opened Serializers

  /** The fields of the form with their first values. */
  const DefaultForm: Form := map[
    "name" := Str(""), "serial_number" := Str(""), "category" := Str(Other.Code()), "department" := Str(""),
    "assigned_employee" := Str(""), "maintenance_team" := Str(""), "default_technician" := Str(""),
    "purchase_date" := Str(""), "warranty_expiry" := Str(""), "location" := Str(""), "notes" := Str("")
  ]

  /** Every field starts empty except the category, which starts as OTHER. */
  lemma DefaultsAreBlankButCategory()
    ensures "category" in DefaultForm && DefaultForm["category"] == Str("OTHER")
    ensures "maintenance_team" in DefaultForm
    ensures forall k :: k in DefaultForm && k != "category" ==> DefaultForm[k] == Str("")
  {
  }

  /** The form's first state: the defaults spread, then `initialData` spread
      over them (an absent `initialData` is the empty object). */
  function InitialForm(initialData: Form): (f: Form)
    ensures f.Keys == DefaultForm.Keys + initialData.Keys
    ensures forall k :: k in initialData ==> f[k] == initialData[k]
    ensures forall k :: k in DefaultForm && k !in initialData ==> f[k] == DefaultForm[k]
  {
    Merge(DefaultForm, initialData)
  }

  /** Without initial data the form is the defaults; a key of the initial
      data overrides its default, and the others keep theirs. */
  lemma InitialFormValues(initialData: Form)
    ensures InitialForm(map[]) == DefaultForm
    ensures "category" !in initialData ==> InitialForm(initialData)["category"] == Str("OTHER")
    ensures "category" in initialData ==> InitialForm(initialData)["category"] == initialData["category"]
    ensures forall k :: k in DefaultForm && k != "category" && k !in initialData ==> InitialForm(initialData)[k] == Str("")
  {
    DefaultsAreBlankButCategory();
  }

  /** `formData.maintenance_team` is truthy. */
  predicate TeamChosen(form: Form)
  {
    "maintenance_team" in form && Truthy(form["maintenance_team"])
  }

  /** The test `tech.team === team`, where `team` is `parseInt` of the chosen
      value: NaN equals nothing, and a technician without a team has `null`. */
  function OnTeam(team: Option<int>): TechnicianJson -> bool
  {
    (t: TechnicianJson) => team.Some? && t.team == team
  }

  /** `filteredTechnicians`: every technician while no team is chosen, else
      those whose team is the chosen one, in order. */
  function FilteredTechnicians(technicians: seq<TechnicianJson>, form: Form): (r: seq<TechnicianJson>)
    ensures !TeamChosen(form) ==> r == technicians
    ensures TeamChosen(form) ==> forall i :: 0 <= i < |r| ==>
      r[i] in technicians && r[i].team.Some? && r[i].team == ParseIntValue(form["maintenance_team"])
    ensures TeamChosen(form) ==> forall i :: 0 <= i < |technicians| ==>
      (technicians[i].team.Some? && technicians[i].team == ParseIntValue(form["maintenance_team"]) ==> technicians[i] in r)
  {
    if TeamChosen(form) then Filter(technicians, OnTeam(ParseIntValue(form["maintenance_team"])))
    else technicians
  }

  /** The select offers technicians in the order they were fetched. */
  lemma FilteredTechniciansKeepOrder(technicians: seq<TechnicianJson>, form: Form)
    ensures IsSubsequence(FilteredTechnicians(technicians, form), technicians)
  {
    if TeamChosen(form) {
      FilterIsSubsequence(technicians, OnTeam(ParseIntValue(form["maintenance_team"])));
    } else {
      SubsequenceOfItself(technicians);
    }
  }

  /** Choosing team `n` in the team select, whose option values are the team
      keys as text, offers exactly the technicians of team `n`. */
  lemma ChosenTeamFilters(technicians: seq<TechnicianJson>, form: Form, n: int)
    ensures FilteredTechnicians(technicians, SetField(form, "maintenance_team", Str(IntToString(n)))) ==
      Filter(technicians, OnTeam(Some(n)))
  {
    ParseIntValueOfNumber(n);
    assert IntToString(n) != "" by {
      ParseIntValueOfBlank();
    }
  }

  /** A chosen value that is not a number (NaN) matches no technician. */
  lemma UnparsableTeamOffersNone(technicians: seq<TechnicianJson>, form: Form)
    requires TeamChosen(form) && ParseIntValue(form["maintenance_team"]).None?
    ensures FilteredTechnicians(technicians, form) == []
  {
    FilterOfNone(technicians, OnTeam(None));
  }

  /** What the component fetches: the teams and the technicians. */
  datatype Lists = Lists(teams: seq<Team>, technicians: seq<TechnicianJson>)

  /** The component's state. */
  class Component {
    var formData: Form
    var teams: seq<Team>
    var technicians: seq<TechnicianJson>
    var loading: bool

    /** Every field of the form is present. */
    predicate HasAllFields()
      reads this
    {
      DefaultForm.Keys <= formData.Keys
    }

    constructor (initialData: Form)
      ensures formData == InitialForm(initialData)
      ensures HasAllFields()
      ensures teams == [] && technicians == [] && !loading
    {
      formData := InitialForm(initialData);
      teams := [];
      technicians := [];
      loading := false;
    }

    /** `fetchTeamsAndTechnicians` with both answers, or `None` when either
        request failed (the error is only logged). */
    method FetchTeamsAndTechnicians(response: Option<Lists>)
      modifies this`teams, this`technicians
      ensures response.Some? ==> teams == response.value.teams && technicians == response.value.technicians
      ensures response.None? ==> teams == old(teams) && technicians == old(technicians)
    {
      if response.Some? {
        teams := response.value.teams;
        technicians := response.value.technicians;
      }
    }

    /** `handleChange`: the named field takes the typed value. */
    method HandleChange(name: string, value: Value)
      requires HasAllFields()
      modifies this`formData
      ensures HasAllFields()
      ensures formData == SetField(old(formData), name, value)
    {
      formData := SetField(formData, name, value);
    }

    /** `handleSubmit` up to the `await`: loading is raised and the form as it
        stands is handed to `onSubmit`. */
    method BeginSubmit() returns (submitted: Form)
      modifies this`loading
      ensures loading
      ensures submitted == formData
    {
      loading := true;
      submitted := formData;
    }

    /** `handleSubmit` after `onSubmit` settled: a failure raises the alert,
        and loading is lowered either way. The form keeps its values. */
    method FinishSubmit(succeeded: bool) returns (alerted: bool)
      modifies this`loading
      ensures !loading
      ensures alerted <==> !succeeded
    {
      alerted := !succeeded;
      loading := false;
    }
  }
}

/** The teams page: the summary figures computed from the fetched teams,
    technicians and users, the technician payload, and the create handlers
    that reset a form and close its modal only on success. */
module Teams {
  import opened Options
  import opened Seqs
  import opened Domain
  import opened Forms
  import opened Serializers

  // ---------------------------------------------------------------------
  // Summary figures

  /** The `stats` object. */
  datatype Stats = Stats(totalTeams: nat, totalTechnicians: nat, availableUsers: nat, avgTeamSize: nat)

  /** `technicians.some(t => t.user_id === u.id)`: a technician's `user_id`
      is absent when the API leaves it out, and absent equals no id. */
  predicate IsTechnician(technicians: seq<TechnicianJson>, u: User)
  {
    exists i :: 0 <= i < |technicians| && technicians[i].userId == Some(u.id)
  }

  function NotTechnician(technicians: seq<TechnicianJson>): User -> bool
  {
    (u: User) => !IsTechnician(technicians, u)
  }

  /** `Math.round(technicians / teams)`, or 0 without teams. `Math.round`
      rounds halves up. */
  function AvgTeamSize(technicians: nat, teams: nat): (r: nat)
    ensures teams == 0 ==> r == 0
    ensures teams > 0 ==> 2 * teams * r <= 2 * technicians + teams < 2 * teams * (r + 1)
  {
    if teams == 0 then 0
    else
      var q := (2 * technicians + teams) / (2 * teams);
      assert 2 * teams * q + (2 * technicians + teams) % (2 * teams) == 2 * technicians + teams;
      q
  }

  /** A positive factor keeps the sign of a product. */
  lemma SignOfProduct(t: int, x: int)
    requires t > 0
    ensures t * x <= 0 ==> x <= 0
    ensures t * x < 0 ==> x < 0
  {
    if x > 0 {
      assert t * x >= t;
    }
  }

  /** An even split rounds to itself: `k` technicians per team on average
      gives an average team size of `k`. */
  lemma AvgOfEvenSplit(teams: nat, k: nat)
    requires teams > 0
    ensures AvgTeamSize(k * teams, teams) == k
  {
    var r := AvgTeamSize(k * teams, teams);
    assert teams * (2 * r - 2 * k - 1) <= 0 by {
      assert 2 * teams * r <= 2 * (k * teams) + teams;
    }
    SignOfProduct(teams, 2 * r - 2 * k - 1);
    assert teams * (2 * k - 2 * r - 1) < 0 by {
      assert 2 * (k * teams) + teams < 2 * teams * (r + 1);
    }
    SignOfProduct(teams, 2 * k - 2 * r - 1);
  }

  /** The figures computed by `fetchData`. */
  function ComputeStats(teams: seq<Team>, technicians: seq<TechnicianJson>, users: seq<User>): (s: Stats)
    ensures s.totalTeams == |teams| && s.totalTechnicians == |technicians|
    ensures s.availableUsers <= |users|
    ensures s.availableUsers == |Filter(users, NotTechnician(technicians))|
    ensures s.avgTeamSize == AvgTeamSize(|technicians|, |teams|)
  {
    Stats(|teams|, |technicians|, |Filter(users, NotTechnician(technicians))|, AvgTeamSize(|technicians|, |teams|))
  }

  /** Technicians as the API serializes them carry no `user_id`, so every
      user counts as available, technicians included. */
  lemma EveryUserIsAvailable(teams: seq<Team>, technicians: seq<TechnicianJson>, users: seq<User>)
    requires forall i :: 0 <= i < |technicians| ==> technicians[i].userId.None?
    ensures ComputeStats(teams, technicians, users).availableUsers == |users|
  {
    FilterKeepsAll(users, NotTechnician(technicians));
  }

  // ---------------------------------------------------------------------
  // Forms

  /** The two forms with every field empty. */
  const BlankTeamForm: Form := map["name" := Str(""), "description" := Str("")]
  const BlankTechForm: Form := map["user_id" := Str(""), "team" := Str(""), "phone" := Str(""), "specialization" := Str("")]

  /** `{...techForm, user_id: parseInt(techForm.user_id), team: parseInt(techForm.team)}`
      as sent: NaN goes out as `null`. */
  function TechnicianPayload(techForm: Form): (r: Form)
    ensures r.Keys == techForm.Keys + {"user_id", "team"}
    ensures r["user_id"] == IntOrNull(Field(techForm, "user_id"))
    ensures r["team"] == IntOrNull(Field(techForm, "team"))
    ensures forall k :: k in techForm && k != "user_id" && k != "team" ==> r[k] == techForm[k]
  {
    var userId := IntOrNull(Field(techForm, "user_id"));
    var team := IntOrNull(Field(techForm, "team"));
    SetField(SetField(techForm, "user_id", userId), "team", team)
  }

  /** A user and a team picked in the selects, whose option values are the
      keys as text, are sent as those keys; a team left blank is sent as
      `null`. */
  lemma PayloadOfSelection(techForm: Form, user: int, team: int)
    ensures TechnicianPayload(techForm["user_id" := Str(Text.IntToString(user))]["team" := Str(Text.IntToString(team))])["user_id"] == Num(user)
    ensures TechnicianPayload(techForm["user_id" := Str(Text.IntToString(user))]["team" := Str(Text.IntToString(team))])["team"] == Num(team)
    ensures TechnicianPayload(techForm["team" := Str("")])["team"] == Null
  {
    ParseIntValueOfNumber(user);
    ParseIntValueOfNumber(team);
    ParseIntValueOfBlank();
  }

  /** The lists `fetchData` receives. */
  datatype PageData = PageData(teams: seq<Team>, technicians: seq<TechnicianJson>, users: seq<User>)

  /** The page's state. */
  class Page {
    var teams: seq<Team>
    var technicians: seq<TechnicianJson>
    var users: seq<User>
    var loading: bool
    var showTeamModal: bool
    var showTechModal: bool
    var stats: Stats
    var teamForm: Form
    var techForm: Form

    /** Both forms hold their fields. */
    predicate Valid()
      reads this
    {
      BlankTeamForm.Keys <= teamForm.Keys && BlankTechForm.Keys <= techForm.Keys
    }

    constructor ()
      ensures Valid()
      ensures teams == [] && technicians == [] && users == [] && loading
      ensures !showTeamModal && !showTechModal && stats == Stats(0, 0, 0, 0)
      ensures teamForm == BlankTeamForm && techForm == BlankTechForm
    {
      teams := [];
      technicians := [];
      users := [];
      loading := true;
      showTeamModal := false;
      showTechModal := false;
      stats := Stats(0, 0, 0, 0);
      teamForm := BlankTeamForm;
      techForm := BlankTechForm;
    }

    /** `fetchData` with the three answers, or `None` when a request failed:
        the lists and the figures are replaced on success, and loading ends
        either way. */
    method FetchData(response: Option<PageData>)
      modifies this`teams, this`technicians, this`users, this`stats, this`loading
      ensures !loading
      ensures response.Some? ==>
        teams == response.value.teams && technicians == response.value.technicians &&
        users == response.value.users && stats == ComputeStats(teams, technicians, users)
      ensures response.None? ==>
        teams == old(teams) && technicians == old(technicians) && users == old(users) && stats == old(stats)
    {
      if response.Some? {
        teams := response.value.teams;
        technicians := response.value.technicians;
        users := response.value.users;
        stats := ComputeStats(teams, technicians, users);
      }
      loading := false;
    }

    /** Typing into the team form. */
    method ChangeTeamForm(name: string, value: Value)
      requires Valid()
      modifies this`teamForm
      ensures Valid()
      ensures teamForm == SetField(old(teamForm), name, value)
    {
      teamForm := SetField(teamForm, name, value);
    }

    /** Typing into the technician form. */
    method ChangeTechForm(name: string, value: Value)
      requires Valid()
      modifies this`techForm
      ensures Valid()
      ensures techForm == SetField(old(techForm), name, value)
    {
      techForm := SetField(techForm, name, value);
    }

    /** `handleCreateTeam`: the form is sent as it stands; on success the
        modal closes, the form is cleared and the data is fetched again; on
        failure the alert is raised and nothing changes. */
    method HandleCreateTeam(succeeded: bool) returns (sent: Form, refetch: bool)
      requires Valid()
      modifies this`showTeamModal, this`teamForm
      ensures Valid()
      ensures sent == old(teamForm)
      ensures refetch == succeeded
      ensures succeeded ==> !showTeamModal && teamForm == BlankTeamForm
      ensures !succeeded ==> showTeamModal == old(showTeamModal) && teamForm == old(teamForm)
    {
      sent := teamForm;
      if succeeded {
        showTeamModal := false;
        teamForm := BlankTeamForm;
      }
      refetch := succeeded;
    }

    /** `handleCreateTechnician`: the payload has the two keys parsed; the
        outcome handling is that of `HandleCreateTeam`. */
    method HandleCreateTechnician(succeeded: bool) returns (sent: Form, refetch: bool)
      requires Valid()
      modifies this`showTechModal, this`techForm
      ensures Valid()
      ensures sent == TechnicianPayload(old(techForm))
      ensures refetch == succeeded
      ensures succeeded ==> !showTechModal && techForm == BlankTechForm
      ensures !succeeded ==> showTechModal == old(showTechModal) && techForm == old(techForm)
    {
      var form := techForm;
      if succeeded {
        showTechModal := false;
        techForm := BlankTechForm;
      }
      sent := TechnicianPayload(form);
      refetch := succeeded;
    }
  }
}

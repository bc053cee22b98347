/** The equipment list page: the search box and category filter over the
    fetched equipment, the loading flag of the fetch, creation from the modal
    form, and deletion behind a confirmation. */
module EquipmentList {
  import opened Options
  import opened Text
  import opened Seqs
  import opened Domain

  /** The lower-cased name or serial number contains the lower-cased term. */
  predicate MatchesSearch(e: Equipment, term: string)
  {
    Contains(ToLower(e.name), ToLower(term)) || Contains(ToLower(e.serialNumber), ToLower(term))
  }

  /** No category chosen, or the equipment's category is the chosen one. */
  predicate MatchesCategory(e: Equipment, category: string)
  {
    category == "" || e.category == category
  }

  /** `filteredEquipment`: the equipment that matches both the search term
      and the category filter. */
  function FilterEquipment(all: seq<Equipment>, term: string, category: string): (r: seq<Equipment>)
    ensures forall i :: 0 <= i < |r| ==> r[i] in all && MatchesSearch(r[i], term) && MatchesCategory(r[i], category)
    ensures forall i :: 0 <= i < |all| && MatchesSearch(all[i], term) && MatchesCategory(all[i], category) ==> all[i] in r
  {
    Filter(all, (e: Equipment) => MatchesSearch(e, term) && MatchesCategory(e, category))
  }

  /** The search agrees with its definition by position: the lower-cased
      term occurs at some index of the lower-cased name or serial number. */
  lemma MatchesSearchIffOccurs(e: Equipment, term: string)
    ensures MatchesSearch(e, term) <==>
      (exists i :: OccursAt(ToLower(e.name), ToLower(term), i)) ||
      (exists i :: OccursAt(ToLower(e.serialNumber), ToLower(term), i))
  {
    ContainsIffOccurs(ToLower(e.name), ToLower(term));
    ContainsIffOccurs(ToLower(e.serialNumber), ToLower(term));
  }

  /** With an empty search term and no category the whole list is shown. */
  lemma NoFilterShowsAll(all: seq<Equipment>)
    ensures FilterEquipment(all, "", "") == all
  {
    forall i | 0 <= i < |all|
      ensures MatchesSearch(all[i], "") && MatchesCategory(all[i], "")
    {
      ContainsEmpty(ToLower(all[i].name));
    }
    FilterKeepsAll(all, (e: Equipment) => MatchesSearch(e, "") && MatchesCategory(e, ""));
  }

  /** The shown list keeps the fetched order, and filtering it again with the
      same term and category changes nothing. */
  lemma FilterKeepsOrderAndIsIdempotent(all: seq<Equipment>, term: string, category: string)
    ensures IsSubsequence(FilterEquipment(all, term, category), all)
    ensures FilterEquipment(FilterEquipment(all, term, category), term, category) == FilterEquipment(all, term, category)
  {
    var p := (e: Equipment) => MatchesSearch(e, term) && MatchesCategory(e, category);
    FilterIsSubsequence(all, p);
    FilterIdempotent(all, p);
  }

  /** The page's state. */
  class EquipmentListPage {
    var equipment: seq<Equipment>
    var loading: bool
    var showModal: bool
    var searchTerm: string
    var filterCategory: string

    constructor ()
      ensures equipment == [] && loading && !showModal && searchTerm == "" && filterCategory == ""
    {
      equipment := [];
      loading := true;
      showModal := false;
      searchTerm := "";
      filterCategory := "";
    }

    /** What the page lists. */
    function Shown(): seq<Equipment>
      reads this
    {
      FilterEquipment(equipment, searchTerm, filterCategory)
    }

    /** `fetchEquipment` with the API's answer (`None` when the call fails):
        the list is replaced on success and kept on failure, and loading ends
        either way. */
    method FetchEquipment(response: Option<seq<Equipment>>)
      modifies this
      ensures !loading
      ensures equipment == if response.Some? then response.value else old(equipment)
      ensures showModal == old(showModal) && searchTerm == old(searchTerm) && filterCategory == old(filterCategory)
    {
      if response.Some? {
        equipment := response.value;
      }
      loading := false;
    }

    /** `handleCreateEquipment`: on success the modal closes and the list is
        fetched again; a failure is passed back to the form (`rethrown`) and
        nothing changes. */
    method HandleCreateEquipment(created: bool, refetched: Option<seq<Equipment>>) returns (rethrown: bool)
      modifies this
      ensures rethrown == !created
      ensures created ==> !showModal && !loading
      ensures created ==> equipment == if refetched.Some? then refetched.value else old(equipment)
      ensures !created ==> showModal == old(showModal) && loading == old(loading) && equipment == old(equipment)
      ensures searchTerm == old(searchTerm) && filterCategory == old(filterCategory)
    {
      if !created {
        return true;
      }
      showModal := false;
      FetchEquipment(refetched);
      rethrown := false;
    }

    /** `handleDelete`: the delete call is made only when the user confirms;
        a successful delete refetches the list, and a declined confirmation
        or a failed delete (an alert) changes nothing. */
    method HandleDelete(id: int, confirmed: bool, deleted: bool, refetched: Option<seq<Equipment>>) returns (deleteCalled: bool)
      modifies this
      ensures deleteCalled == confirmed
      ensures confirmed && deleted ==> !loading && equipment == if refetched.Some? then refetched.value else old(equipment)
      ensures !(confirmed && deleted) ==> equipment == old(equipment) && loading == old(loading)
      ensures showModal == old(showModal) && searchTerm == old(searchTerm) && filterCategory == old(filterCategory)
    {
      deleteCalled := confirmed;
      if confirmed && deleted {
        FetchEquipment(refetched);
      }
    }
  }
}

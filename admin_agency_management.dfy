/**
 * The admin agency page (src/pages/AdminAgencyManagement.tsx): the agency list
 * state, the name-or-location search (the same predicate as the admin agency
 * list), inline creation from the `newAgency` form, and the verification
 * toggle with its toast.
 */
module AdminAgencyManagement {
  import opened Wrappers
  import opened Seqs
  import opened Types
  import opened MockData
  import opened AgencyList
  import opened CreateAgencyForm

  /** `prev.map(a => a.id === agencyId ? { ...a, verified: !a.verified } : a)` */
  function ToggleById(ags: seq<Agency>, agencyId: string): seq<Agency> {
    if ags == [] then []
    else
      var a := if ags[0].id == agencyId then ags[0].(verified := !ags[0].verified) else ags[0];
      [a] + ToggleById(ags[1..], agencyId)
  }

  /** The toggle keeps the length and flips `verified` at exactly the positions carrying the id. */
  lemma {:induction false} ToggleByIdSpec(ags: seq<Agency>, agencyId: string)
    ensures |ToggleById(ags, agencyId)| == |ags|
    ensures forall k :: 0 <= k < |ags| ==>
      ToggleById(ags, agencyId)[k] ==
        (if ags[k].id == agencyId then ags[k].(verified := !ags[k].verified) else ags[k])
  {
    if ags != [] {
      ToggleByIdSpec(ags[1..], agencyId);
    }
  }

  /** Toggling the same id twice restores the list. */
  lemma ToggleTwice(ags: seq<Agency>, agencyId: string)
    ensures ToggleById(ToggleById(ags, agencyId), agencyId) == ags
  {
    ToggleByIdSpec(ags, agencyId);
    ToggleByIdSpec(ToggleById(ags, agencyId), agencyId);
  }

  /** Toggling an id no agency carries changes nothing. */
  lemma ToggleAbsent(ags: seq<Agency>, agencyId: string)
    requires forall k :: 0 <= k < |ags| ==> ags[k].id != agencyId
    ensures ToggleById(ags, agencyId) == ags
  {
    ToggleByIdSpec(ags, agencyId);
  }

  /**
   * The toast of `toggleVerification`, read from the list before the toggle:
   * none for an unknown id, otherwise the title and text naming the new state.
   */
  function ToggleToast(ags: seq<Agency>, agencyId: string): Option<(string, string)> {
    match FindAgency(ags, agencyId)
    case None => None
    case Some(a) =>
      if a.verified then Some(("Agency Unverified", a.name + " has been unverified."))
      else Some(("Agency Verified", a.name + " has been verified."))
  }

  /** Finding the id after the toggle gives the agency found before it, flipped. */
  lemma {:induction false} FindAfterToggle(ags: seq<Agency>, agencyId: string)
    ensures FindAgency(ToggleById(ags, agencyId), agencyId) ==
      match FindAgency(ags, agencyId)
      case None => None
      case Some(a) => Some(a.(verified := !a.verified))
  {
    if ags != [] {
      var toggled := ToggleById(ags, agencyId);
      assert toggled[1..] == ToggleById(ags[1..], agencyId);
      if !HasId(agencyId, ags[0]) {
        FindAfterToggle(ags[1..], agencyId);
      }
    }
  }

  /**
   * Reading the flag before the toggle makes the toast match the state after
   * it: there is a toast exactly when some agency has the id, and its title
   * says "Agency Verified" exactly when that agency is verified afterwards.
   */
  lemma ToastMatchesNewState(ags: seq<Agency>, agencyId: string)
    ensures ToggleToast(ags, agencyId).None? <==> forall k :: 0 <= k < |ags| ==> ags[k].id != agencyId
    ensures ToggleToast(ags, agencyId).Some? ==>
      FindAgency(ToggleById(ags, agencyId), agencyId).Some? &&
      (ToggleToast(ags, agencyId).value.0 == "Agency Verified" <==>
       FindAgency(ToggleById(ags, agencyId), agencyId).value.verified)
  {
    FindSpec(ags, a => HasId(agencyId, a));
    FindAfterToggle(ags, agencyId);
  }

  /** The page state. */
  class Page {
    var agencies: seq<Agency>
    var searchTerm: string
    var newAgency: AgencyFormData

    /** The list starts as the mock agencies, the search and the form empty. */
    constructor ()
      ensures agencies == MockAgencies && searchTerm == "" && newAgency == EmptyForm
    {
      agencies := MockAgencies;
      searchTerm := "";
      newAgency := EmptyForm;
    }

    /** The agencies on screen. */
    function Shown(): seq<Agency>
      reads this
    {
      ListedAgencies(agencies, searchTerm)
    }

    method SetSearchTerm(term: string)
      modifies this
      ensures searchTerm == term && agencies == old(agencies) && newAgency == old(newAgency)
      ensures Shown() == ListedAgencies(agencies, term)
    {
      searchTerm := term;
    }

    method InputChange(field: FormField, value: string)
      modifies this
      ensures newAgency == WithField(old(newAgency), field, value)
      ensures agencies == old(agencies) && searchTerm == old(searchTerm)
    {
      newAgency := WithField(newAgency, field, value);
    }

    method SelectChange(plan: Plan)
      modifies this
      ensures newAgency == old(newAgency).(subscriptionPlan := plan)
      ensures agencies == old(agencies) && searchTerm == old(searchTerm)
    {
      newAgency := newAgency.(subscriptionPlan := plan);
    }

    /** `handleCreateAgency`: no validation; the built agency is appended and the form reset. */
    method CreateAgency(now: nat) returns (toast: (string, string))
      modifies this
      ensures agencies == old(agencies) + [BuildAgency(old(newAgency), now)]
      ensures |agencies| == |old(agencies)| + 1
      ensures newAgency == EmptyForm && searchTerm == old(searchTerm)
      ensures toast == CreatedToast(BuildAgency(old(newAgency), now))
    {
      var agency := BuildAgency(newAgency, now);
      agencies := agencies + [agency];
      newAgency := EmptyForm;
      toast := CreatedToast(agency);
    }

    /** `toggleVerification`: the list is mapped, and the toast comes from the list before it. */
    method ToggleVerification(agencyId: string) returns (toast: Option<(string, string)>)
      modifies this
      ensures agencies == ToggleById(old(agencies), agencyId)
      ensures |agencies| == |old(agencies)|
      ensures toast == ToggleToast(old(agencies), agencyId)
      ensures searchTerm == old(searchTerm) && newAgency == old(newAgency)
    {
      toast := ToggleToast(agencies, agencyId);
      ToggleByIdSpec(agencies, agencyId);
      agencies := ToggleById(agencies, agencyId);
    }
  }
}

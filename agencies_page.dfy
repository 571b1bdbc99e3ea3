/**
 * The public agency directory (src/pages/Agencies.tsx): `handleSearch` narrows
 * the loaded agencies by the search term (a substring of the name), the
 * location filter (whole-string equality) and the plan filter, each applied only
 * when its value is truthy.
 */
module AgenciesPage {
  import opened Wrappers
  import opened Seqs
  import opened Text
  import opened Types
  import opened SearchFilters
  import opened MockData

  /** `agency.name.toLowerCase().includes(searchTerm.toLowerCase())` */
  predicate MatchesTerm(term: string, a: Agency) {
    Contains(Lower(a.name), Lower(term))
  }

  /** `agency.location.toLowerCase() === location.toLowerCase()` */
  predicate MatchesLocation(location: string, a: Agency) {
    Lower(a.location) == Lower(location)
  }

  /** `filters.location` is truthy: present and not the empty string. */
  predicate LocationActive(f: Filters) {
    f.location.Some? && f.location.value != ""
  }

  /** The term stage: skipped for the empty term. */
  predicate TermOk(term: string, a: Agency) {
    term == "" || MatchesTerm(term, a)
  }

  predicate LocationOk(f: Filters, a: Agency) {
    !LocationActive(f) || MatchesLocation(f.location.value, a)
  }

  /** Every plan name is a non-empty string, so a present plan is always applied. */
  predicate PlanOk(f: Filters, a: Agency) {
    f.subscriptionPlan.None? || a.subscriptionPlan == f.subscriptionPlan.value
  }

  /** An agency survives the search when every active stage accepts it. */
  predicate AgencyMatches(term: string, f: Filters, a: Agency) {
    TermOk(term, a) && LocationOk(f, a) && PlanOk(f, a)
  }

  /** The reference result: one filter by the conjunction of the three stages. */
  function AgencySearch(ags: seq<Agency>, term: string, f: Filters): seq<Agency> {
    Filter(ags, a => AgencyMatches(term, f, a))
  }

  function ByTerm(ags: seq<Agency>, term: string): seq<Agency> {
    Filter(ags, a => TermOk(term, a))
  }

  function ByLocation(ags: seq<Agency>, f: Filters): seq<Agency> {
    Filter(ags, a => LocationOk(f, a))
  }

  function ByPlan(ags: seq<Agency>, f: Filters): seq<Agency> {
    Filter(ags, a => PlanOk(f, a))
  }

  /** The three successive filters of `handleSearch` are the one conjunctive filter. */
  lemma StagesAreConjunction(ags: seq<Agency>, term: string, f: Filters)
    ensures ByPlan(ByLocation(ByTerm(ags, term), f), f) == AgencySearch(ags, term, f)
  {
    var both := a => TermOk(term, a) && LocationOk(f, a);
    FilterCompose(ags, a => TermOk(term, a), a => LocationOk(f, a), both);
    FilterCompose(ags, both, a => PlanOk(f, a), a => AgencyMatches(term, f, a));
  }

  /** An inactive stage keeps every agency. */
  lemma InactiveStagesKeepAll(ags: seq<Agency>, term: string, f: Filters)
    ensures term == "" ==> ByTerm(ags, term) == ags
    ensures !LocationActive(f) ==> ByLocation(ags, f) == ags
    ensures f.subscriptionPlan.None? ==> ByPlan(ags, f) == ags
  {
    if term == "" {
      FilterKeepsAll(ags, a => TermOk(term, a));
    }
    if !LocationActive(f) {
      FilterKeepsAll(ags, a => LocationOk(f, a));
    }
    if f.subscriptionPlan.None? {
      FilterKeepsAll(ags, a => PlanOk(f, a));
    }
  }

  /** `handleSearch` on a value: `results` passes through each truthy stage in turn. */
  method SearchAgencies(agencies: seq<Agency>, searchTerm: string, filters: Filters) returns (results: seq<Agency>)
    ensures results == AgencySearch(agencies, searchTerm, filters)
  {
    results := agencies;
    if searchTerm != "" {
      results := ByTerm(results, searchTerm);
    }
    if LocationActive(filters) {
      results := ByLocation(results, filters);
    }
    if filters.subscriptionPlan.Some? {
      results := ByPlan(results, filters);
    }
    InactiveStagesKeepAll(agencies, searchTerm, filters);
    InactiveStagesKeepAll(ByTerm(agencies, searchTerm), searchTerm, filters);
    InactiveStagesKeepAll(ByLocation(ByTerm(agencies, searchTerm), filters), searchTerm, filters);
    StagesAreConjunction(agencies, searchTerm, filters);
  }

  /** An agency is listed exactly when it is loaded and every active stage accepts it. */
  lemma SearchMembership(ags: seq<Agency>, term: string, f: Filters, a: Agency)
    ensures a in AgencySearch(ags, term, f) <==>
      a in ags &&
      (term == "" || Contains(Lower(a.name), Lower(term))) &&
      (!LocationActive(f) || Lower(a.location) == Lower(f.location.value)) &&
      (f.subscriptionPlan.None? || a.subscriptionPlan == f.subscriptionPlan.value)
  {
    FilterMembership(ags, a => AgencyMatches(term, f, a), a);
  }

  /** The result keeps the loaded agencies' order and adds nothing. */
  lemma SearchIsSubsequence(ags: seq<Agency>, term: string, f: Filters)
    ensures IsSubsequence(AgencySearch(ags, term, f), ags)
  {
    FilterIsSubsequence(ags, a => AgencyMatches(term, f, a));
  }

  /** "Clear Filters" (`handleSearch('', {})`) lists every agency again. */
  lemma ClearListsAll(ags: seq<Agency>)
    ensures AgencySearch(ags, "", Empty) == ags
  {
    FilterKeepsAll(ags, a => AgencyMatches("", Empty, a));
  }

  /** Only the term, the location and the plan matter: price, bedroom, status and featured keys are ignored. */
  lemma SearchIgnoresOtherKeys(ags: seq<Agency>, term: string, f: Filters, g: Filters)
    requires f.location == g.location && f.subscriptionPlan == g.subscriptionPlan
    ensures AgencySearch(ags, term, f) == AgencySearch(ags, term, g)
  {
    FilterCongruent(ags, a => AgencyMatches(term, f, a), a => AgencyMatches(term, g, a));
  }

  /** The term is compared case-insensitively: lowering it first changes nothing. */
  lemma SearchTermCaseInsensitive(ags: seq<Agency>, term: string, f: Filters)
    ensures AgencySearch(ags, Lower(term), f) == AgencySearch(ags, term, f)
  {
    LowerIdempotent(term);
    FilterCongruent(ags, a => AgencyMatches(Lower(term), f, a), a => AgencyMatches(term, f, a));
  }

  /** A search whose every match also matches a looser search lists a subsequence of it. */
  lemma SearchMonotone(ags: seq<Agency>, term: string, f: Filters, term': string, g: Filters)
    requires forall a :: a in ags && AgencyMatches(term', g, a) ==> AgencyMatches(term, f, a)
    ensures IsSubsequence(AgencySearch(ags, term', g), AgencySearch(ags, term, f))
  {
    FilterStronger(ags, a => AgencyMatches(term, f, a), a => AgencyMatches(term', g, a));
  }

  /** Choosing a location when none is set never enlarges the result, whatever plan is chosen. */
  lemma AddingLocationNarrows(ags: seq<Agency>, term: string, f: Filters, location: string)
    requires f.location.None?
    ensures IsSubsequence(AgencySearch(ags, term, f.(location := Some(location))), AgencySearch(ags, term, f))
  {
    SearchMonotone(ags, term, f, term, f.(location := Some(location)));
  }

  /** Choosing a plan when none is set never enlarges the result, whatever location is chosen. */
  lemma AddingPlanNarrows(ags: seq<Agency>, term: string, f: Filters, plan: Plan)
    requires f.subscriptionPlan.None?
    ensures IsSubsequence(AgencySearch(ags, term, f.(subscriptionPlan := Some(plan))), AgencySearch(ags, term, f))
  {
    SearchMonotone(ags, term, f, term, f.(subscriptionPlan := Some(plan)));
  }

  /** Adding a search term to an empty one never enlarges the result. */
  lemma AddingTermNarrows(ags: seq<Agency>, term: string, f: Filters)
    ensures IsSubsequence(AgencySearch(ags, term, f), AgencySearch(ags, "", f))
  {
    SearchMonotone(ags, "", f, term, f);
  }

  /** The locations the mock agencies carry. */
  const AgencyLocations: seq<string> := ["New York, NY", "Los Angeles, CA", "Miami, FL", "Chicago, IL"]

  /**
   * The location menu offers city names ("New York") while the agencies carry
   * "city, state" ("New York, NY"), so no offered location equals an agency's.
   * Lengths differ in every pair but "Chicago, IL" and "Los Angeles", which
   * differ in the first letter.
   */
  lemma OfferedLocationMatchesNoAgencyLocation(location: string, offered: string)
    requires location in AgencyLocations && offered in Locations
    ensures offered != ""
    ensures |location| != |offered| || LowerChar(location[0]) != LowerChar(offered[0])
  {
  }

  /** Agencies at the four mock locations match no offered location, whatever the term. */
  lemma OfferedLocationsMatchNone(ags: seq<Agency>, term: string, offered: string)
    requires forall k :: 0 <= k < |ags| ==> ags[k].location in AgencyLocations
    requires offered in Locations
    ensures AgencySearch(ags, term, Empty.(location := Some(offered))) == []
  {
    var f := Empty.(location := Some(offered));
    forall a | a in ags ensures !AgencyMatches(term, f, a) {
      OfferedLocationMatchesNoAgencyLocation(a.location, offered);
      if |a.location| == |offered| {
        assert Lower(a.location)[0] != Lower(offered)[0];
      }
    }
    FilterKeepsNone(ags, a => AgencyMatches(term, f, a));
  }

  /** Scenario: on the mock agencies, every offered location yields an empty list. */
  lemma OfferedLocationsMatchNoMockAgency(term: string, offered: string)
    requires offered in Locations
    ensures AgencySearch(MockAgencies, term, Empty.(location := Some(offered))) == []
  {
    assert forall k :: 0 <= k < |MockAgencies| ==> MockAgencies[k].location == AgencyLocations[k];
    OfferedLocationsMatchNone(MockAgencies, term, offered);
  }

  /** The page state: the loaded agencies and the list on screen. */
  class Page {
    var agencies: seq<Agency>
    var filteredAgencies: seq<Agency>
    var isLoading: bool

    constructor ()
      ensures agencies == [] && filteredAgencies == [] && isLoading
    {
      agencies := [];
      filteredAgencies := [];
      isLoading := true;
    }

    /** The mount effect, given the agencies `initializeMockData` returns. */
    method Load(data: seq<Agency>)
      modifies this
      ensures agencies == data && filteredAgencies == data && !isLoading
    {
      agencies := data;
      filteredAgencies := data;
      isLoading := false;
    }

    /** `handleSearch`: the loaded list is kept and the shown list replaced. */
    method HandleSearch(searchTerm: string, filters: Filters)
      modifies this
      ensures agencies == old(agencies) && isLoading == old(isLoading)
      ensures filteredAgencies == AgencySearch(agencies, searchTerm, filters)
    {
      filteredAgencies := SearchAgencies(agencies, searchTerm, filters);
    }

    /** The "Clear Filters" button. */
    method ClearFilters()
      modifies this
      ensures agencies == old(agencies) && isLoading == old(isLoading)
      ensures filteredAgencies == agencies
    {
      HandleSearch("", Empty);
      ClearListsAll(agencies);
    }
  }
}

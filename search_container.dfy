/**
 * The search bar and filter state (src/components/search/AdvancedSearchContainer.tsx):
 * the active-filter counter, and the `searchTerm`/`filters` state whose every
 * filter change re-runs the search callback.
 */
module SearchContainer {
  import opened Wrappers
  import opened Seqs
  import opened Text
  import opened Types
  import opened SearchFilters

  /** `Object.entries(filters)` values, one per key in declaration order (`undefined` for a missing key). */
  function Entries(f: Filters): (vs: seq<Value>)
    ensures |vs| == |Keys|
    ensures forall k :: vs[KeyIndex(k)] == Get(f, k)
  {
    seq(|Keys|, i requires 0 <= i < |Keys| => Get(f, Keys[i]))
  }

  /** The entry filter of `countActiveFilters`: neither `undefined` nor the boolean `false`. */
  predicate IsActive(v: Value) {
    v != Undefined && v != Flag(false)
  }

  predicate IsPresent(v: Value) {
    v != Undefined
  }

  /** `countActiveFilters(filters)` */
  function CountActiveFilters(f: Filters): (n: nat)
    ensures n <= |Keys|
  {
    |Filter(Entries(f), IsActive)|
  }

  /** Position of a key in `Keys`. */
  function KeyIndex(k: Key): (i: nat)
    ensures i < |Keys| && Keys[i] == k
  {
    match k
    case LocationKey => 0
    case PropertyTypeKey => 1
    case MinPriceKey => 2
    case MaxPriceKey => 3
    case MinBedroomsKey => 4
    case MinBathroomsKey => 5
    case SubscriptionPlanKey => 6
    case StatusKey => 7
    case FeaturedKey => 8
  }

  function Indicator(b: bool): nat {
    if b then 1 else 0
  }

  /** The empty filter object counts nothing. */
  lemma CountEmpty()
    ensures CountActiveFilters(Empty) == 0
  {
    FilterKeepsNone(Entries(Empty), IsActive);
  }

  /** A change to one key moves the count by what that key's old and new values contribute. */
  lemma {:induction false} CountAfterChange(f: Filters, k: Key, v: Value)
    requires Fits(k, v)
    ensures CountActiveFilters(ChangeFilter(f, k, v)) ==
            CountActiveFilters(f) - Indicator(IsActive(Get(f, k))) + Indicator(IsActive(v))
  {
    var i := KeyIndex(k);
    var g := ChangeFilter(f, k, v);
    assert Keys[i] == k;
    assert forall j :: 0 <= j < |Keys| && j != i ==> Keys[j] != k by {
      forall j | 0 <= j < |Keys| && j != i ensures Keys[j] != k {
        assert Keys[j] != Keys[i];
      }
    }
    assert Entries(g) == Entries(f)[i := v];
    FilterUpdateLength(Entries(f), i, v, IsActive);
  }

  /** `featured: false` counts like an absent key; `featured: true` counts one. */
  lemma CountFeatured(f: Filters)
    ensures CountActiveFilters(ToggleFeatured(f, false)) == CountActiveFilters(ChangeFilter(f, FeaturedKey, Undefined))
    ensures CountActiveFilters(ToggleFeatured(f, true)) == CountActiveFilters(ChangeFilter(f, FeaturedKey, Undefined)) + 1
  {
    var h := ChangeFilter(f, FeaturedKey, Undefined);
    CountAfterChange(h, FeaturedKey, Flag(false));
    CountAfterChange(h, FeaturedKey, Flag(true));
    ChangeFilterOverwrite(f, FeaturedKey, Undefined, Flag(false));
    ChangeFilterOverwrite(f, FeaturedKey, Undefined, Flag(true));
  }

  /** The count never exceeds the number of keys holding a value. */
  lemma CountAtMostPresent(f: Filters)
    ensures CountActiveFilters(f) <= |Filter(Entries(f), IsPresent)|
  {
    FilterStronger(Entries(f), IsPresent, IsActive);
    SubsequenceLength(Filter(Entries(f), IsActive), Filter(Entries(f), IsPresent));
  }

  /**
   * Choosing any price range, "Any Price" included, makes both bounds count:
   * the count grows by the number of bounds that were missing.
   */
  lemma {:induction false} CountAfterPriceRange(f: Filters, rangeIndex: string)
    requires PriceRangeChange(f, rangeIndex).Some?
    ensures CountActiveFilters(PriceRangeChange(f, rangeIndex).value) ==
            CountActiveFilters(f) + Indicator(f.minPrice.None?) + Indicator(f.maxPrice.None?)
  {
    var g := PriceRangeChange(f, rangeIndex).value;
    var h := ChangeFilter(f, MinPriceKey, Num(g.minPrice.value));
    CountAfterChange(f, MinPriceKey, Num(g.minPrice.value));
    CountAfterChange(h, MaxPriceKey, Num(g.maxPrice.value));
    FiltersExtensional(ChangeFilter(h, MaxPriceKey, Num(g.maxPrice.value)), g);
  }

  /** From no filters, "Any Price" alone already shows two active filters. */
  lemma AnyPriceCountsTwo()
    ensures PriceRangeChange(Empty, "0").Some?
    ensures CountActiveFilters(PriceRangeChange(Empty, "0").value) == 2
  {
    assert NatToString(0) == "0";
    PriceRangeRoundTrip(Empty, 0);
    CountEmpty();
    CountAfterPriceRange(Empty, "0");
  }

  /**
   * The container's state. `searches` records the calls made to `onSearch`,
   * oldest first; the mount effect makes the first one.
   */
  class Container {
    var searchTerm: string
    var filters: Filters
    var searches: seq<(string, Filters)>

    constructor (initialSearchTerm: string, initialFilters: Filters)
      ensures searchTerm == initialSearchTerm && filters == initialFilters
      ensures searches == [(initialSearchTerm, initialFilters)]
    {
      searchTerm := initialSearchTerm;
      filters := initialFilters;
      searches := [(initialSearchTerm, initialFilters)];
    }

    function ActiveFiltersCount(): nat
      reads this
    {
      CountActiveFilters(filters)
    }

    /** Typing in the search box changes the term only; it does not search. */
    method SetSearchTerm(term: string)
      modifies this
      ensures searchTerm == term
      ensures filters == old(filters) && searches == old(searches)
    {
      searchTerm := term;
    }

    /** `handleSearch` (the Search button or Enter). */
    method Search()
      modifies this
      ensures searchTerm == old(searchTerm) && filters == old(filters)
      ensures searches == old(searches) + [(searchTerm, filters)]
    {
      searches := searches + [(searchTerm, filters)];
    }

    /** `clearFilters`: the filters become `{}`; the search term stays. */
    method ClearFilters()
      modifies this
      ensures filters == Empty && searchTerm == old(searchTerm)
      ensures searches == old(searches) + [(old(searchTerm), Empty)]
      ensures ActiveFiltersCount() == 0
    {
      filters := Empty;
      CountEmpty();
      searches := searches + [(searchTerm, filters)];
    }

    /** `handleFilterChange`: the whole object is replaced, and the effect searches with it. */
    method HandleFilterChange(newFilters: Filters)
      modifies this
      ensures filters == newFilters && searchTerm == old(searchTerm)
      ensures searches == old(searches) + [(old(searchTerm), newFilters)]
    {
      filters := newFilters;
      searches := searches + [(searchTerm, filters)];
    }

    /**
     * `setFilters(newFilters)` inside an event handler that goes on running:
     * the state is replaced, and the effect waits for the render.
     */
    method SetFilters(newFilters: Filters)
      modifies this
      ensures filters == newFilters && searchTerm == old(searchTerm) && searches == old(searches)
    {
      filters := newFilters;
    }
  }

  /**
   * Clicking the price badge: the panel emits its two objects within one click
   * handler, so both updates are batched into one render, the second object
   * wins, and the effect searches once with it. The range survives with only
   * `maxPrice` cleared.
   */
  method RemovePriceBadgeIn(c: Container)
    modifies c
    ensures c.filters == old(c.filters).(maxPrice := None)
    ensures c.filters.minPrice == old(c.filters.minPrice)
    ensures c.searchTerm == old(c.searchTerm)
    ensures c.searches == old(c.searches) + [(old(c.searchTerm), old(c.filters).(maxPrice := None))]
  {
    var emitted := RemovePriceBadge(c.filters);
    c.SetFilters(emitted[0]);
    c.SetFilters(emitted[1]);
    c.Search();
  }
}

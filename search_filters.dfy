/**
 * The filter panel (src/components/search/AdvancedSearchFilters.tsx): the
 * `SearchFilters` record, the key-replacing change handler, the select
 * handlers with their "any-…" sentinels, the seven price ranges and the
 * lookups from the current bounds back to a range.
 *
 * Every handler here only computes the object it passes to `onFilterChange`;
 * it is modelled as a function returning that object.
 */
module SearchFilters {
  import opened Wrappers
  import opened Text
  import opened Types

  /** `SearchFilters`; `None` is a key that is absent or holds `undefined`. */
  datatype Filters = Filters(
    location: Option<string>,
    propertyType: Option<string>,
    minPrice: Option<int>,
    maxPrice: Option<int>,
    minBedrooms: Option<int>,
    minBathrooms: Option<int>,
    subscriptionPlan: Option<Plan>,
    status: Option<string>,
    featured: Option<bool>)

  /** `{}` */
  const Empty := Filters(None, None, None, None, None, None, None, None, None)

  /** `keyof SearchFilters`, in declaration order. */
  datatype Key =
    | LocationKey | PropertyTypeKey | MinPriceKey | MaxPriceKey
    | MinBedroomsKey | MinBathroomsKey | SubscriptionPlanKey | StatusKey | FeaturedKey

  const Keys: seq<Key> := [LocationKey, PropertyTypeKey, MinPriceKey, MaxPriceKey,
    MinBedroomsKey, MinBathroomsKey, SubscriptionPlanKey, StatusKey, FeaturedKey]

  /** A value stored under a key. */
  datatype Value = Undefined | Str(s: string) | Num(n: int) | PlanValue(plan: Plan) | Flag(b: bool)

  /** The value has the type the interface declares for the key (or is `undefined`). */
  predicate Fits(k: Key, v: Value) {
    v.Undefined? ||
    match k
    case LocationKey | PropertyTypeKey | StatusKey => v.Str?
    case MinPriceKey | MaxPriceKey | MinBedroomsKey | MinBathroomsKey => v.Num?
    case SubscriptionPlanKey => v.PlanValue?
    case FeaturedKey => v.Flag?
  }

  function StrValue(o: Option<string>): Value {
    if o.Some? then Str(o.value) else Undefined
  }

  function NumValue(o: Option<int>): Value {
    if o.Some? then Num(o.value) else Undefined
  }

  /** `filters[k]` */
  function Get(f: Filters, k: Key): (v: Value)
    ensures Fits(k, v)
  {
    match k
    case LocationKey => StrValue(f.location)
    case PropertyTypeKey => StrValue(f.propertyType)
    case MinPriceKey => NumValue(f.minPrice)
    case MaxPriceKey => NumValue(f.maxPrice)
    case MinBedroomsKey => NumValue(f.minBedrooms)
    case MinBathroomsKey => NumValue(f.minBathrooms)
    case SubscriptionPlanKey => if f.subscriptionPlan.Some? then PlanValue(f.subscriptionPlan.value) else Undefined
    case StatusKey => StrValue(f.status)
    case FeaturedKey => if f.featured.Some? then Flag(f.featured.value) else Undefined
  }

  /** Two filter objects that agree on every key are the same object. */
  lemma {:induction false} FiltersExtensional(f: Filters, g: Filters)
    requires forall k :: Get(f, k) == Get(g, k)
    ensures f == g
  {
    assert Get(f, LocationKey) == Get(g, LocationKey);
    assert Get(f, PropertyTypeKey) == Get(g, PropertyTypeKey);
    assert Get(f, MinPriceKey) == Get(g, MinPriceKey);
    assert Get(f, MaxPriceKey) == Get(g, MaxPriceKey);
    assert Get(f, MinBedroomsKey) == Get(g, MinBedroomsKey);
    assert Get(f, MinBathroomsKey) == Get(g, MinBathroomsKey);
    assert Get(f, SubscriptionPlanKey) == Get(g, SubscriptionPlanKey);
    assert Get(f, StatusKey) == Get(g, StatusKey);
    assert Get(f, FeaturedKey) == Get(g, FeaturedKey);
  }

  /** `handleFilterChange(k, v)`: the object `{ ...filters, [k]: v }` passed on. */
  function ChangeFilter(f: Filters, k: Key, v: Value): (g: Filters)
    requires Fits(k, v)
    ensures Get(g, k) == v
    ensures forall k' :: k' != k ==> Get(g, k') == Get(f, k')
  {
    match k
    case LocationKey => f.(location := if v.Str? then Some(v.s) else None)
    case PropertyTypeKey => f.(propertyType := if v.Str? then Some(v.s) else None)
    case MinPriceKey => f.(minPrice := if v.Num? then Some(v.n) else None)
    case MaxPriceKey => f.(maxPrice := if v.Num? then Some(v.n) else None)
    case MinBedroomsKey => f.(minBedrooms := if v.Num? then Some(v.n) else None)
    case MinBathroomsKey => f.(minBathrooms := if v.Num? then Some(v.n) else None)
    case SubscriptionPlanKey => f.(subscriptionPlan := if v.PlanValue? then Some(v.plan) else None)
    case StatusKey => f.(status := if v.Str? then Some(v.s) else None)
    case FeaturedKey => f.(featured := if v.Flag? then Some(v.b) else None)
  }

  lemma ChangeFilterSameValue(f: Filters, k: Key)
    ensures ChangeFilter(f, k, Get(f, k)) == f
  {
    FiltersExtensional(ChangeFilter(f, k, Get(f, k)), f);
  }

  /** Writing a key twice keeps only the second write. */
  lemma ChangeFilterOverwrite(f: Filters, k: Key, v: Value, w: Value)
    requires Fits(k, v) && Fits(k, w)
    ensures ChangeFilter(ChangeFilter(f, k, v), k, w) == ChangeFilter(f, k, w)
  {
    FiltersExtensional(ChangeFilter(ChangeFilter(f, k, v), k, w), ChangeFilter(f, k, w));
  }

  /** Writes to different keys commute. */
  lemma ChangeFilterCommutes(f: Filters, k: Key, v: Value, k': Key, v': Value)
    requires k != k' && Fits(k, v) && Fits(k', v')
    ensures ChangeFilter(ChangeFilter(f, k, v), k', v') == ChangeFilter(ChangeFilter(f, k', v'), k, v)
  {
    FiltersExtensional(ChangeFilter(ChangeFilter(f, k, v), k', v'), ChangeFilter(ChangeFilter(f, k', v'), k, v));
  }

  // ---------------------------------------------------------------------------
  // Select handlers: a sentinel option maps to `undefined`

  const AnyLocation := "any-location"
  const AnyType := "any-type"
  const AnyBedrooms := "any-bedrooms"
  const AnyBathrooms := "any-bathrooms"
  const AnyPlan := "any-plan"
  const AnyStatus := "any-status"

  /** `value === sentinel ? undefined : value` */
  function StringChoice(value: string, sentinel: string): (v: Value)
    ensures v.Undefined? <==> value == sentinel
    ensures v.Str? ==> v.s == value
  {
    if value == sentinel then Undefined else Str(value)
  }

  /** `value === sentinel ? undefined : Number(value)`, for the digit-string options the select offers. */
  function NumberChoice(value: string, sentinel: string): (v: Value)
    requires value == sentinel || IsDigits(value)
    ensures v.Undefined? <==> value == sentinel
    ensures v.Num? ==> v.n == DigitsValue(value)
  {
    if value == sentinel then Undefined else Num(DigitsValue(value))
  }

  function SelectLocation(f: Filters, value: string): (g: Filters)
    ensures g.location == (if value == AnyLocation then None else Some(value))
    ensures forall k :: k != LocationKey ==> Get(g, k) == Get(f, k)
  {
    ChangeFilter(f, LocationKey, StringChoice(value, AnyLocation))
  }

  function SelectPropertyType(f: Filters, value: string): (g: Filters)
    ensures g.propertyType == (if value == AnyType then None else Some(value))
    ensures forall k :: k != PropertyTypeKey ==> Get(g, k) == Get(f, k)
  {
    ChangeFilter(f, PropertyTypeKey, StringChoice(value, AnyType))
  }

  function SelectStatus(f: Filters, value: string): (g: Filters)
    ensures g.status == (if value == AnyStatus then None else Some(value))
    ensures forall k :: k != StatusKey ==> Get(g, k) == Get(f, k)
  {
    ChangeFilter(f, StatusKey, StringChoice(value, AnyStatus))
  }

  function SelectMinBedrooms(f: Filters, value: string): (g: Filters)
    requires value == AnyBedrooms || IsDigits(value)
    ensures g.minBedrooms.None? <==> value == AnyBedrooms
    ensures value != AnyBedrooms ==> g.minBedrooms == Some(DigitsValue(value) as int)
    ensures forall k :: k != MinBedroomsKey ==> Get(g, k) == Get(f, k)
  {
    ChangeFilter(f, MinBedroomsKey, NumberChoice(value, AnyBedrooms))
  }

  function SelectMinBathrooms(f: Filters, value: string): (g: Filters)
    requires value == AnyBathrooms || IsDigits(value)
    ensures g.minBathrooms.None? <==> value == AnyBathrooms
    ensures value != AnyBathrooms ==> g.minBathrooms == Some(DigitsValue(value) as int)
    ensures forall k :: k != MinBathroomsKey ==> Get(g, k) == Get(f, k)
  {
    ChangeFilter(f, MinBathroomsKey, NumberChoice(value, AnyBathrooms))
  }

  /** `value === "any-plan" ? undefined : value as SubscriptionPlan`; the select offers only plan names. */
  function SelectPlan(f: Filters, value: string): (g: Filters)
    requires value == AnyPlan || PlanFromName(value).Some?
    ensures g.subscriptionPlan.None? <==> value == AnyPlan
    ensures g.subscriptionPlan.Some? ==> PlanName(g.subscriptionPlan.value) == value
    ensures forall k :: k != SubscriptionPlanKey ==> Get(g, k) == Get(f, k)
  {
    ChangeFilter(f, SubscriptionPlanKey,
      if value == AnyPlan then Undefined else PlanValue(PlanFromName(value).value))
  }

  /** The featured checkbox: its checked state, so unchecking stores `false`, not `undefined`. */
  function ToggleFeatured(f: Filters, checked: bool): (g: Filters)
    ensures g.featured == Some(checked)
    ensures forall k :: k != FeaturedKey ==> Get(g, k) == Get(f, k)
  {
    ChangeFilter(f, FeaturedKey, Flag(checked))
  }

  /** The single-key badges (location, type, bedrooms, bathrooms, plan, status) remove their key. */
  function RemoveBadge(f: Filters, k: Key): (g: Filters)
    requires k != FeaturedKey && k != MinPriceKey && k != MaxPriceKey
    ensures Get(g, k) == Undefined
    ensures forall k' :: k' != k ==> Get(g, k') == Get(f, k')
  {
    ChangeFilter(f, k, Undefined)
  }

  /** The featured badge writes `false` rather than removing the key. */
  function RemoveFeaturedBadge(f: Filters): (g: Filters)
    ensures g.featured == Some(false)
    ensures forall k :: k != FeaturedKey ==> Get(g, k) == Get(f, k)
  {
    ChangeFilter(f, FeaturedKey, Flag(false))
  }

  /**
   * The price badge calls the change handler twice, and both calls spread the
   * same `filters` snapshot: the objects passed on, in order.
   */
  function RemovePriceBadge(f: Filters): (emitted: seq<Filters>)
    ensures |emitted| == 2
    ensures emitted[0].minPrice.None? && forall k :: k != MinPriceKey ==> Get(emitted[0], k) == Get(f, k)
    ensures emitted[1].maxPrice.None? && forall k :: k != MaxPriceKey ==> Get(emitted[1], k) == Get(f, k)
  {
    [ChangeFilter(f, MinPriceKey, Undefined), ChangeFilter(f, MaxPriceKey, Undefined)]
  }

  /**
   * The object that survives is the second one: `maxPrice` is cleared but
   * `minPrice` keeps its old value, so the badge does not clear the range.
   */
  lemma PriceBadgeKeepsMinPrice(f: Filters)
    ensures var last := RemovePriceBadge(f)[1];
      last.maxPrice.None? && last.minPrice == f.minPrice &&
      forall k :: k != MaxPriceKey ==> Get(last, k) == Get(f, k)
  {
  }

  /** The two emissions disagree whenever both bounds were set. */
  lemma PriceBadgeEmissionsDiffer(f: Filters)
    requires f.minPrice.Some? && f.maxPrice.Some?
    ensures RemovePriceBadge(f)[0] != RemovePriceBadge(f)[1]
  {
    assert RemovePriceBadge(f)[0].minPrice.None?;
  }

  // ---------------------------------------------------------------------------
  // Option lists

  const PropertyTypes: seq<string> := ["Apartment", "House", "Villa", "Office", "Commercial", "Land", "Industrial"]

  const Locations: seq<string> := ["New York", "Los Angeles", "Chicago", "San Francisco", "Miami", "Seattle", "Austin"]

  /** The option values of the property-type select: the type names lowercased. */
  function PropertyTypeOptionValues(): (vs: seq<string>)
    ensures |vs| == |PropertyTypes|
    ensures forall i :: 0 <= i < |vs| ==> vs[i] == Lower(PropertyTypes[i]) && IsLowerString(vs[i])
  {
    seq(|PropertyTypes|, i requires 0 <= i < |PropertyTypes| => Lower(PropertyTypes[i]))
  }

  /** The status select offers pending, approved and sold; it has no "rejected" option. */
  const StatusOptionValues: seq<string> := ["pending", "approved", "sold"]

  const BedroomOptionValues: seq<string> := ["1", "2", "3", "4", "5"]
  const BathroomOptionValues: seq<string> := ["1", "2", "3", "4"]

  /** The option "n" of the bedroom select stores the number n. */
  lemma BedroomOptionValue(f: Filters, i: nat)
    requires i < |BedroomOptionValues|
    ensures SelectMinBedrooms(f, BedroomOptionValues[i]).minBedrooms == Some(i + 1)
  {
    assert NatToString(i + 1) == BedroomOptionValues[i];
    NatToStringValue(i + 1);
  }

  // ---------------------------------------------------------------------------
  // Price ranges

  datatype PriceRange = PriceRange(caption: string, min: int, max: int)

  const PriceRanges: seq<PriceRange> := [
    PriceRange("Any Price", 0, 10000000),
    PriceRange("Under $100k", 0, 100000),
    PriceRange("$100k - $250k", 100000, 250000),
    PriceRange("$250k - $500k", 250000, 500000),
    PriceRange("$500k - $750k", 500000, 750000),
    PriceRange("$750k - $1M", 750000, 1000000),
    PriceRange("Over $1M", 1000000, 10000000)
  ]

  predicate RangeMatches(i: nat, min: int, max: int)
    requires i < |PriceRanges|
  {
    PriceRanges[i].min == min && PriceRanges[i].max == max
  }

  /** No two ranges share both bounds. */
  lemma PriceRangesDistinct()
    ensures forall i, j :: 0 <= i < j < |PriceRanges| ==>
      PriceRanges[i].min != PriceRanges[j].min || PriceRanges[i].max != PriceRanges[j].max
  {
  }

  /** `PRICE_RANGES.findIndex(...)` started at `from`: the first matching index, if any. */
  function FindRange(min: int, max: int, from: nat): (r: Option<nat>)
    requires from <= |PriceRanges|
    ensures r.Some? ==> from <= r.value < |PriceRanges| && RangeMatches(r.value, min, max)
    ensures r.Some? ==> forall j :: from <= j < r.value ==> !RangeMatches(j, min, max)
    ensures r.None? ==> forall j :: from <= j < |PriceRanges| ==> !RangeMatches(j, min, max)
    decreases |PriceRanges| - from
  {
    if from == |PriceRanges| then None
    else if RangeMatches(from, min, max) then Some(from)
    else FindRange(min, max, from + 1)
  }

  /** The bounds of range `i` are found at `i`. */
  lemma FindRangeOfRange(i: nat)
    requires i < |PriceRanges|
    ensures FindRange(PriceRanges[i].min, PriceRanges[i].max, 0) == Some(i)
  {
    PriceRangesDistinct();
  }

  /**
   * `handlePriceRangeChange(rangeIndex)`: the object passed on, or `None` when
   * `parseInt` does not give an index into the table (no call at all).
   */
  function PriceRangeChange(f: Filters, rangeIndex: string): (r: Option<Filters>)
    ensures r.Some? <==> var i := ParseInt(rangeIndex); i.Some? && 0 <= i.value < |PriceRanges|
    ensures r.Some? ==>
      var i := ParseInt(rangeIndex).value;
      r.value.minPrice == Some(PriceRanges[i].min) && r.value.maxPrice == Some(PriceRanges[i].max) &&
      forall k :: k != MinPriceKey && k != MaxPriceKey ==> Get(r.value, k) == Get(f, k)
  {
    var index := ParseInt(rangeIndex);
    if index.Some? && 0 <= index.value < |PriceRanges| then
      var range := PriceRanges[index.value];
      Some(f.(minPrice := Some(range.min), maxPrice := Some(range.max)))
    else
      None
  }

  /** `getCurrentPriceRangeLabel()` */
  function PriceRangeLabel(f: Filters): (shown: string)
    ensures (f.minPrice.None? || f.maxPrice.None?) ==> shown == "Any Price"
    ensures f.minPrice.Some? && f.maxPrice.Some? ==>
      match FindRange(f.minPrice.value, f.maxPrice.value, 0)
      case Some(i) => shown == PriceRanges[i].caption
      case None => shown == "Custom Range"
  {
    if f.minPrice.None? || f.maxPrice.None? then "Any Price"
    else
      match FindRange(f.minPrice.value, f.maxPrice.value, 0)
      case Some(i) => if PriceRanges[i].caption != "" then PriceRanges[i].caption else "Custom Range"
      case None => "Custom Range"
  }

  /** `getCurrentPriceRangeIndex()`: the select's value, '0' for missing bounds and for custom bounds. */
  function PriceRangeIndex(f: Filters): (s: string)
    ensures (f.minPrice.None? || f.maxPrice.None?) ==> s == "0"
    ensures f.minPrice.Some? && f.maxPrice.Some? ==>
      match FindRange(f.minPrice.value, f.maxPrice.value, 0)
      case Some(i) => s == NatToString(i)
      case None => s == "0"
  {
    if f.minPrice.None? || f.maxPrice.None? then "0"
    else
      match FindRange(f.minPrice.value, f.maxPrice.value, 0)
      case Some(i) => NatToString(i)
      case None => "0"
  }

  /**
   * Choosing range `i` in the select and reading the panel back gives `i`
   * and its label: the bounds identify the range.
   */
  lemma {:induction false} PriceRangeRoundTrip(f: Filters, i: nat)
    requires i < |PriceRanges|
    ensures PriceRangeChange(f, NatToString(i)).Some?
    ensures PriceRangeIndex(PriceRangeChange(f, NatToString(i)).value) == NatToString(i)
    ensures PriceRangeLabel(PriceRangeChange(f, NatToString(i)).value) == PriceRanges[i].caption
  {
    ParseIntOfNatToString(i);
    FindRangeOfRange(i);
  }

  /** The index shown by the select is always one of its seven options. */
  lemma {:induction false} PriceRangeIndexIsOption(f: Filters)
    ensures var s := PriceRangeIndex(f);
      exists i :: 0 <= i < |PriceRanges| && s == NatToString(i)
  {
    var s := PriceRangeIndex(f);
    assert NatToString(0) == "0";
    if f.minPrice.Some? && f.maxPrice.Some? {
      match FindRange(f.minPrice.value, f.maxPrice.value, 0)
      case Some(i) =>
        assert s == NatToString(i);
      case None =>
        assert s == NatToString(0);
    } else {
      assert s == NatToString(0);
    }
  }

  /** Any index outside 0..6 ('7', '-1', 'abc') leaves the filters alone. */
  lemma PriceRangeChangeRejects(f: Filters, rangeIndex: string)
    requires rangeIndex in ["7", "-1", "abc", ""]
    ensures PriceRangeChange(f, rangeIndex).None?
  {
    if rangeIndex == "7" {
      ParseIntOfNatToString(7);
    } else if rangeIndex == "-1" {
      ParseIntOfDecimal(1, true, "");
      assert "-" + (NatToString(1) + "") == "-1";
    }
  }
}

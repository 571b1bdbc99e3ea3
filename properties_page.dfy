/**
 * The property management page (src/pages/Properties.tsx): the list state,
 * the search box filter over title, city and type, delete by id, and the
 * add/edit dialog whose save either replaces by id or appends.
 */
module PropertiesPage {
  import opened Wrappers
  import opened Seqs
  import opened Text
  import opened Types
  import opened MockData
  import opened PropertyDialog

  /** The term occurs, ignoring case, in the title, the city or the property type. */
  predicate PropertyMatches(term: string, p: Property) {
    Contains(Lower(p.title), Lower(term)) ||
    Contains(Lower(p.city), Lower(term)) ||
    Contains(Lower(p.propertyType), Lower(term))
  }

  /** `filteredProperties` */
  function FilteredProperties(ps: seq<Property>, term: string): seq<Property> {
    Filter(ps, p => PropertyMatches(term, p))
  }

  /** A property is shown exactly when it is in the list and one of its three fields holds the term. */
  lemma FilteredMembership(ps: seq<Property>, term: string, p: Property)
    ensures p in FilteredProperties(ps, term) <==>
      p in ps &&
      (Contains(Lower(p.title), Lower(term)) || Contains(Lower(p.city), Lower(term)) ||
       Contains(Lower(p.propertyType), Lower(term)))
  {
    FilterMembership(ps, p => PropertyMatches(term, p), p);
  }

  /** The shown list keeps the list's order and adds nothing. */
  lemma FilteredIsSubsequence(ps: seq<Property>, term: string)
    ensures IsSubsequence(FilteredProperties(ps, term), ps)
  {
    FilterIsSubsequence(ps, p => PropertyMatches(term, p));
  }

  /** The empty search box shows every property, in order. */
  lemma EmptyTermShowsAll(ps: seq<Property>)
    ensures FilteredProperties(ps, "") == ps
  {
    forall p | p in ps ensures PropertyMatches("", p) {
      ContainsEmpty(Lower(p.title));
    }
    FilterKeepsAll(ps, p => PropertyMatches("", p));
  }

  /** Extending the term (so that the old one occurs in the new one) never adds a property. */
  lemma RefiningTermNarrows(ps: seq<Property>, term: string, term': string)
    requires Contains(Lower(term'), Lower(term))
    ensures IsSubsequence(FilteredProperties(ps, term'), FilteredProperties(ps, term))
  {
    forall p | p in ps && PropertyMatches(term', p) ensures PropertyMatches(term, p) {
      if Contains(Lower(p.title), Lower(term')) {
        ContainsTransitive(Lower(p.title), Lower(term'), Lower(term));
      } else if Contains(Lower(p.city), Lower(term')) {
        ContainsTransitive(Lower(p.city), Lower(term'), Lower(term));
      } else {
        ContainsTransitive(Lower(p.propertyType), Lower(term'), Lower(term));
      }
    }
    FilterStronger(ps, p => PropertyMatches(term, p), p => PropertyMatches(term', p));
  }

  predicate OtherId(id: string, p: Property) {
    p.id != id
  }

  /** `properties.filter(p => p.id !== propertyId)` */
  function WithoutId(ps: seq<Property>, id: string): seq<Property> {
    Filter(ps, p => OtherId(id, p))
  }

  /** Delete keeps exactly the properties with another id, in their order. */
  lemma WithoutIdSpec(ps: seq<Property>, id: string, p: Property)
    ensures p in WithoutId(ps, id) <==> p in ps && p.id != id
    ensures IsSubsequence(WithoutId(ps, id), ps)
  {
    FilterMembership(ps, q => OtherId(id, q), p);
    FilterIsSubsequence(ps, q => OtherId(id, q));
  }

  /** Deleting an id that no property carries changes nothing. */
  lemma WithoutAbsentId(ps: seq<Property>, id: string)
    requires forall k :: 0 <= k < |ps| ==> ps[k].id != id
    ensures WithoutId(ps, id) == ps
  {
    FilterKeepsAll(ps, q => OtherId(id, q));
  }

  /** Deleting the same id twice is deleting it once. */
  lemma WithoutIdIdempotent(ps: seq<Property>, id: string)
    ensures WithoutId(WithoutId(ps, id), id) == WithoutId(ps, id)
  {
    FilterKeepsAll(WithoutId(ps, id), q => OtherId(id, q));
  }

  /** `properties.map(p => p.id === property.id ? property : p)` */
  function ReplaceById(ps: seq<Property>, q: Property): seq<Property> {
    if ps == [] then []
    else [if ps[0].id == q.id then q else ps[0]] + ReplaceById(ps[1..], q)
  }

  /** The update keeps the length, puts `q` at every position with its id and leaves the rest alone. */
  lemma {:induction false} ReplaceByIdSpec(ps: seq<Property>, q: Property)
    ensures |ReplaceById(ps, q)| == |ps|
    ensures forall k :: 0 <= k < |ps| ==>
      ReplaceById(ps, q)[k] == (if ps[k].id == q.id then q else ps[k])
  {
    if ps != [] {
      ReplaceByIdSpec(ps[1..], q);
    }
  }

  /** Every position keeps its id, so the update never changes which ids are listed. */
  lemma ReplaceKeepsIds(ps: seq<Property>, q: Property)
    ensures PropertyIds(ReplaceById(ps, q)) == PropertyIds(ps)
  {
    ReplaceByIdSpec(ps, q);
  }

  /** Saving a record whose id is not listed changes nothing. */
  lemma ReplaceAbsent(ps: seq<Property>, q: Property)
    requires forall k :: 0 <= k < |ps| ==> ps[k].id != q.id
    ensures ReplaceById(ps, q) == ps
  {
    ReplaceByIdSpec(ps, q);
  }

  /** Saving the same record twice is saving it once. */
  lemma ReplaceIdempotent(ps: seq<Property>, q: Property)
    ensures ReplaceById(ReplaceById(ps, q), q) == ReplaceById(ps, q)
  {
    ReplaceByIdSpec(ps, q);
    ReplaceByIdSpec(ReplaceById(ps, q), q);
  }

  /**
   * Editing `p` and saving: the submitted record keeps `p`'s id, so it takes
   * the place of `p` (and of any other record sharing that id).
   */
  lemma EditSaveReplacesEdited(ps: seq<Property>, p: Property, data: FormValues, freshId: string, now: int)
    requires IsInteger(data.bedrooms) && p.id != "" && p in ps
    ensures var r := OnSubmit(data, Some(p), freshId, now);
      r.id == p.id && r in ReplaceById(ps, r) && |ReplaceById(ps, r)| == |ps| &&
      (r != p ==> p !in ReplaceById(ps, r))
  {
    var r := OnSubmit(data, Some(p), freshId, now);
    ReplaceByIdSpec(ps, r);
    var k :| 0 <= k < |ps| && ps[k] == p;
    assert ReplaceById(ps, r)[k] == r;
  }

  /** The empty-state hint under "No properties found". */
  function EmptyStateHint(searchTerm: string): (hint: string)
    ensures searchTerm != "" <==> hint == "Try adjusting your search terms."
    ensures searchTerm == "" <==> hint == "Add your first property to get started."
  {
    if searchTerm != "" then "Try adjusting your search terms." else "Add your first property to get started."
  }

  /** The page state. */
  class Page {
    var properties: seq<Property>
    var searchTerm: string
    var showPropertyDialog: bool
    var currentProperty: Option<Property>

    /** The list starts as the mock properties, the search empty and the dialog closed. */
    constructor ()
      ensures properties == MockProperties && searchTerm == ""
      ensures !showPropertyDialog && currentProperty.None?
    {
      properties := MockProperties;
      searchTerm := "";
      showPropertyDialog := false;
      currentProperty := None;
    }

    /** The properties on screen. */
    function Shown(): seq<Property>
      reads this
    {
      FilteredProperties(properties, searchTerm)
    }

    method SetSearchTerm(term: string)
      modifies this
      ensures searchTerm == term && properties == old(properties)
      ensures showPropertyDialog == old(showPropertyDialog) && currentProperty == old(currentProperty)
      ensures Shown() == FilteredProperties(properties, term)
    {
      searchTerm := term;
    }

    /** `handleAddProperty`: the dialog opens on an empty form. */
    method AddProperty()
      modifies this
      ensures currentProperty.None? && showPropertyDialog
      ensures properties == old(properties) && searchTerm == old(searchTerm)
    {
      currentProperty := None;
      showPropertyDialog := true;
    }

    /** `handleEditProperty`: the dialog opens on `property`. */
    method EditProperty(property: Property)
      modifies this
      ensures currentProperty == Some(property) && showPropertyDialog
      ensures properties == old(properties) && searchTerm == old(searchTerm)
    {
      currentProperty := Some(property);
      showPropertyDialog := true;
    }

    /** The dialog's `onOpenChange`. */
    method SetDialogOpen(open: bool)
      modifies this
      ensures showPropertyDialog == open && currentProperty == old(currentProperty)
      ensures properties == old(properties) && searchTerm == old(searchTerm)
    {
      showPropertyDialog := open;
    }

    /** `handleDeleteProperty` */
    method DeleteProperty(propertyId: string)
      modifies this
      ensures properties == WithoutId(old(properties), propertyId)
      ensures forall p :: p in properties <==> p in old(properties) && p.id != propertyId
      ensures searchTerm == old(searchTerm) && showPropertyDialog == old(showPropertyDialog)
      ensures currentProperty == old(currentProperty)
    {
      forall p ensures p in WithoutId(properties, propertyId) <==> p in properties && p.id != propertyId {
        WithoutIdSpec(properties, propertyId, p);
      }
      properties := WithoutId(properties, propertyId);
    }

    /** `handleSaveProperty`: replace by id when editing, append when adding; the dialog closes. */
    method SaveProperty(property: Property)
      modifies this
      ensures old(currentProperty).Some? ==> properties == ReplaceById(old(properties), property)
      ensures old(currentProperty).Some? ==> |properties| == |old(properties)|
      ensures old(currentProperty).None? ==> properties == old(properties) + [property]
      ensures !showPropertyDialog
      ensures searchTerm == old(searchTerm) && currentProperty == old(currentProperty)
    {
      if currentProperty.Some? {
        ReplaceByIdSpec(properties, property);
        properties := ReplaceById(properties, property);
      } else {
        properties := properties + [property];
      }
      showPropertyDialog := false;
    }
  }
}

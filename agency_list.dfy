/**
 * The admin agency list (src/components/admin/AgencyList.tsx): a search box
 * over name and location, the empty-state hint, and the verify button, which
 * only reports an id to its caller.
 */
module AgencyList {
  import opened Seqs
  import opened Text
  import opened Types

  /** The term occurs, ignoring case, in the agency's name or its location. */
  predicate NameOrLocationMatches(term: string, a: Agency) {
    Contains(Lower(a.name), Lower(term)) || Contains(Lower(a.location), Lower(term))
  }

  /** `filteredAgencies` */
  function ListedAgencies(ags: seq<Agency>, term: string): seq<Agency> {
    Filter(ags, a => NameOrLocationMatches(term, a))
  }

  /** An agency is listed exactly when the term occurs in its name or location. */
  lemma ListedMembership(ags: seq<Agency>, term: string, a: Agency)
    ensures a in ListedAgencies(ags, term) <==>
      a in ags && (Contains(Lower(a.name), Lower(term)) || Contains(Lower(a.location), Lower(term)))
  {
    FilterMembership(ags, a => NameOrLocationMatches(term, a), a);
  }

  /** The list keeps the given order and adds nothing. */
  lemma ListedIsSubsequence(ags: seq<Agency>, term: string)
    ensures IsSubsequence(ListedAgencies(ags, term), ags)
  {
    FilterIsSubsequence(ags, a => NameOrLocationMatches(term, a));
  }

  /** The empty term lists every agency, in order. */
  lemma EmptyTermListsAll(ags: seq<Agency>)
    ensures ListedAgencies(ags, "") == ags
  {
    forall a | a in ags ensures NameOrLocationMatches("", a) {
      ContainsEmpty(Lower(a.name));
    }
    FilterKeepsAll(ags, a => NameOrLocationMatches("", a));
  }

  /** Extending the term never adds an agency. */
  lemma RefiningTermNarrows(ags: seq<Agency>, term: string, term': string)
    requires Contains(Lower(term'), Lower(term))
    ensures IsSubsequence(ListedAgencies(ags, term'), ListedAgencies(ags, term))
  {
    forall a | a in ags && NameOrLocationMatches(term', a) ensures NameOrLocationMatches(term, a) {
      if Contains(Lower(a.name), Lower(term')) {
        ContainsTransitive(Lower(a.name), Lower(term'), Lower(term));
      } else {
        ContainsTransitive(Lower(a.location), Lower(term'), Lower(term));
      }
    }
    FilterStronger(ags, a => NameOrLocationMatches(term, a), a => NameOrLocationMatches(term', a));
  }

  /** The hint under "No agencies found" depends only on whether a term is typed. */
  function EmptyStateHint(searchTerm: string): (hint: string)
    ensures searchTerm != "" <==> hint == "Try adjusting your search terms."
    ensures searchTerm == "" <==> hint == "Create your first agency to get started."
  {
    if searchTerm != "" then "Try adjusting your search terms." else "Create your first agency to get started."
  }

  /** The verify button's caption follows the agency's current flag. */
  function VerifyCaption(a: Agency): (caption: string)
    ensures a.verified <==> caption == "Unverify"
  {
    if a.verified then "Unverify" else "Verify"
  }

  /**
   * Clicking the button of the `k`-th listed agency: the list is a prop and is
   * not touched; the result is the id handed to `onVerification`: that of the
   * clicked card's agency, which is an agency of the given list.
   */
  function VerificationClick(ags: seq<Agency>, term: string, k: nat): (agencyId: string)
    requires k < |ListedAgencies(ags, term)|
    ensures agencyId == ListedAgencies(ags, term)[k].id && ListedAgencies(ags, term)[k] in ags
  {
    var a := ListedAgencies(ags, term)[k];
    ListedMembership(ags, term, a);
    a.id
  }
}

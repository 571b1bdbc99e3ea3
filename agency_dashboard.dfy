/**
 * The agency dashboard (src/pages/AgencyDashboard.tsx): the first linked
 * agency with its listings and agents, the plan badge, the listing limit, the
 * three-card preview with its "View All" link, and the agency-only guard.
 */
module AgencyDashboard {
  import opened Wrappers
  import opened Seqs
  import opened Text
  import opened Types
  import opened MockData

  /** `plan === 'basic' ? 5 : plan === 'standard' ? 20 : 100` */
  function ListingLimit(p: Plan): nat {
    if p == Basic then 5 else if p == Standard then 20 else 100
  }

  /** The hard-coded limits are the plan table's `propertyLimit`s. */
  lemma ListingLimitIsPlanLimit(p: Plan)
    ensures ListingLimit(p) == DetailsOf(p).propertyLimit
  {
  }

  /** A dearer plan allows more listings. */
  lemma ListingLimitFollowsPrice(p: Plan, q: Plan)
    requires DetailsOf(p).price < DetailsOf(q).price
    ensures ListingLimit(p) < ListingLimit(q)
  {
    ListingLimitIsPlanLimit(p);
    ListingLimitIsPlanLimit(q);
    PriceOrdersLimit(p, q);
  }

  /** The badge next to the agency name. */
  function PlanBadge(p: Plan): string {
    Capitalize(PlanName(p)) + " Plan"
  }

  /** The badge names the plan by its display name. */
  lemma BadgeShowsDisplayName(p: Plan)
    ensures PlanBadge(p) == DetailsOf(p).displayName + " Plan"
  {
    match p
    case Basic => assert Capitalize("basic") == "Basic";
    case Standard => assert Capitalize("standard") == "Standard";
    case Premium => assert Capitalize("premium") == "Premium";
  }

  const PreviewSize: nat := 3

  /** `properties.slice(0, 3)` */
  function Preview(ps: seq<Property>): (shown: seq<Property>)
    ensures |shown| <= PreviewSize && |shown| <= |ps|
    ensures shown == ps[..|shown|]
    ensures |shown| == |ps| || |shown| == PreviewSize
  {
    if |ps| <= PreviewSize then ps else ps[..PreviewSize]
  }

  /** The "View All Properties" link. */
  predicate ShowViewAll(ps: seq<Property>) {
    |ps| > PreviewSize
  }

  /** The link appears exactly when the preview hides a listing. */
  lemma ViewAllIffHidden(ps: seq<Property>)
    ensures ShowViewAll(ps) <==> |Preview(ps)| < |ps|
  {
  }

  /** The page is left for "/" unless an agency account is signed in. */
  predicate Redirected(user: Option<User>) {
    user.None? || user.value.role != AgencyRole
  }

  /**
   * The mount effect: `initializeMockData()` links the records, and the page
   * keeps the first agency with its derived listings and agents.
   */
  function DashboardData(ags: seq<Agency>, gs: seq<Agent>, ps: seq<Property>): (data: (Agency, seq<Property>, seq<Agent>))
    requires |ags| > 0
    ensures data.0.id == ags[0].id && data.0.(agents := ags[0].agents, properties := ags[0].properties) == ags[0]
    ensures data.1 == AgencyListings(ps, ags[0].id) && data.2 == AgencyStaff(LinkAgents(gs, ps), ags[0].id)
  {
    var first := Initialize(ags, gs, ps).0[0];
    (first, first.properties, first.agents)
  }

  /**
   * The dashboard shows exactly the properties carrying the first agency's id,
   * in their order, and as many agents as carry that id.
   */
  lemma DashboardListsFirstAgency(ags: seq<Agency>, gs: seq<Agent>, ps: seq<Property>, p: Property)
    requires |ags| > 0
    ensures IsSubsequence(DashboardData(ags, gs, ps).1, ps)
    ensures p in DashboardData(ags, gs, ps).1 <==> p in ps && p.agencyId == Some(ags[0].id)
    ensures |DashboardData(ags, gs, ps).2| == |AgencyStaff(gs, ags[0].id)|
  {
    AgencyListingsSpec(ps, ags[0].id);
    StaffCountIgnoresLinking(gs, ps, ags[0].id);
  }

  /**
   * Scenario: the first mock agency ("1"), linked as the dashboard shows it,
   * has listings "1" and "5", both previewed, and no "View All"; which agents
   * it is linked against does not matter.
   */
  lemma MockDashboard(gs: seq<Agent>)
    ensures var data := DashboardData(MockAgencies, gs, MockProperties);
      data.0.id == "1" && PropertyIds(Preview(data.1)) == ["1", "5"] && !ShowViewAll(data.1)
  {
    assert MockAgencies[0].id == "1";
    MockAgencyOneListings();
  }
}

/**
 * The in-memory data set (src/data/mockData.ts): four agencies, four agents and
 * six properties, and `initializeMockData`, the pass that fills each agent's and
 * each agency's derived lists from the foreign keys. The shared mock arrays are
 * `array`s because the pass writes their records in place.
 */
module MockData {
  import opened Wrappers
  import opened Seqs
  import opened Types

  /** An Unsplash image address, as every logo, photo and listing image in the data set is written. */
  function Unsplash(photo: string, width: string): string {
    "https://images.unsplash.com/photo-" + photo + "?q=80&w=" + width + "&auto=format&fit=crop"
  }

  const MockAgencies: seq<Agency> := [
    Agency("1", "101", "Luxury Homes Real Estate",
      Some(Unsplash("1560518883-ce09059eeffa", "100")),
      Some("https://luxuryhomes.example.com"), Some("luxuryhomes"), Some("luxuryhomesrealestate"),
      "New York, NY", "123 Fifth Avenue, New York, NY 10001", Premium, true, [], [], 1673740800000),
    Agency("2", "102", "Urban Living Properties",
      Some(Unsplash("1618005182384-a83a8bd57fbe", "100")),
      Some("https://urbanliving.example.com"), Some("urbanlivingproperties"), Some("urbanlivingre"),
      "Los Angeles, CA", "456 Wilshire Blvd, Los Angeles, CA 90024", Standard, true, [], [], 1676851200000),
    Agency("3", "103", "Coastal Realty Group",
      Some(Unsplash("1502005229762-cf1b2da7c5d6", "100")),
      Some("https://coastalrealty.example.com"), Some("coastalrealtygroup"), Some("coastalrealty"),
      "Miami, FL", "789 Ocean Drive, Miami, FL 33139", Basic, true, [], [], 1678406400000),
    Agency("4", "104", "Metropolitan Properties",
      Some(Unsplash("1555980457-13dd21a13870", "100")),
      Some("https://metropolitan.example.com"), Some("metropolitanproperties"), Some("metropolitan_re"),
      "Chicago, IL", "321 Michigan Ave, Chicago, IL 60601", Premium, true, [], [], 1680652800000)
  ]

  const MockAgents: seq<Agent> := [
    Agent("1", "201", "Sarah Johnson", "sarah@luxuryhomes.example.com", "+1 (212) 555-1234",
      Some(Unsplash("1573496359142-b8d87734a5a2", "100")),
      Some("Specializing in luxury properties in Manhattan with over 10 years of experience."),
      Some("1"), [], true, 1674172800000),
    Agent("2", "202", "Michael Chen", "michael@urbanliving.example.com", "+1 (323) 555-5678",
      Some(Unsplash("1566492031773-4f4e44671857", "100")),
      Some("Focused on urban lofts and condos throughout Los Angeles."),
      Some("2"), [], true, 1677283200000),
    Agent("3", "203", "Sophia Rodriguez", "sophia@coastalrealty.example.com", "+1 (305) 555-9876",
      Some(Unsplash("1508214751196-bcfd4ca60f91", "100")),
      Some("Miami native with expertise in waterfront properties and vacation homes."),
      Some("3"), [], true, 1678838400000),
    Agent("4", "204", "David Williams", "david@metropolitan.example.com", "+1 (312) 555-4321",
      Some(Unsplash("1519085360753-af0119f7cbe7", "100")),
      Some("Commercial real estate specialist with a focus on downtown Chicago properties."),
      Some("4"), [], true, 1681084800000)
  ]

  const MockProperties: seq<Property> := [
    Property("1", "Luxury Penthouse with City Views",
      "Stunning penthouse with panoramic views of the Manhattan skyline, featuring high-end finishes and a private roof terrace.",
      4500000, Some(3), Some(3.5), Some(2800), [
        Unsplash("1512917774080-9991f1c4c750", "500"),
        Unsplash("1600210492486-724fe5c67fb0", "500"),
        Unsplash("1600607687939-ce8a6c25118c", "500")
      ], "150 Central Park South", "New York", Some("NY"), "USA", Some("10019"), "Apartment",
      Approved, true, Some("1"), Some("1"), 1674604800000),
    Property("2", "Modern Loft in Downtown",
      "Industrial-chic loft with exposed brick walls, high ceilings, and state-of-the-art appliances in the heart of downtown.",
      1750000, Some(2), Some(2.0), Some(1600), [
        Unsplash("1600585154340-be6161a56a0c", "500"),
        Unsplash("1600566752355-35792bedcfea", "500"),
        Unsplash("1615873968403-89e068629265", "500")
      ], "520 Broadway", "Los Angeles", Some("CA"), "USA", Some("90013"), "Loft",
      Approved, true, Some("2"), Some("2"), 1677628800000),
    Property("3", "Beachfront Villa with Private Pool",
      "Exquisite beachfront villa offering direct access to the white sand beaches, with a private infinity pool and lush tropical gardens.",
      6800000, Some(5), Some(5.5), Some(4500), [
        Unsplash("1600607687644-c7f34c52d337", "500"),
        Unsplash("1584738766473-61c083514bf4", "500"),
        Unsplash("1613977257363-707ba9348227", "500")
      ], "2300 Collins Avenue", "Miami", Some("FL"), "USA", Some("33139"), "Villa",
      Approved, true, Some("3"), Some("3"), 1679270400000),
    Property("4", "High-Rise Condo in the Loop",
      "Elegant high-rise condo featuring floor-to-ceiling windows with stunning views of Lake Michigan and Millennium Park.",
      2200000, Some(3), Some(2.0), Some(1800), [
        Unsplash("1600566753086-00f18fb6b3ea", "500"),
        Unsplash("1598928506311-c55ded91a20c", "500"),
        Unsplash("1617104876903-c8f7309a8d66", "500")
      ], "400 E Randolph St", "Chicago", Some("IL"), "USA", Some("60601"), "Condo",
      Approved, false, Some("4"), Some("4"), 1681516800000),
    Property("5", "Classic Brownstone Townhouse",
      "Historic brownstone townhouse with original details beautifully preserved, featuring a renovated kitchen and private garden.",
      3750000, Some(4), Some(3.5), Some(3200), [
        Unsplash("1600585152220-90363fe7e115", "500"),
        Unsplash("1600047509807-ba8f99d2cdde", "500"),
        Unsplash("1560448204-603b3fc33ddc", "500")
      ], "25 W 88th St", "New York", Some("NY"), "USA", Some("10024"), "Townhouse",
      Approved, false, Some("1"), Some("1"), 1683676800000),
    Property("6", "Contemporary Hollywood Hills Home",
      "Architectural masterpiece in the Hollywood Hills with sweeping views, an infinity pool, and a home theater.",
      8500000, Some(5), Some(6.0), Some(5200), [
        Unsplash("1600596542815-ffad4c1539a9", "500"),
        Unsplash("1600585154526-990dced4db0d", "500"),
        Unsplash("1592247350045-b3e5301f11f2", "500")
      ], "1500 Blue Jay Way", "Los Angeles", Some("CA"), "USA", Some("90069"), "House",
      Approved, true, Some("2"), Some("2"), 1684972800000)
  ]

  predicate ListedByAgent(agentId: string, p: Property) {
    p.agentId == Some(agentId)
  }

  predicate ListedByAgency(agencyId: string, p: Property) {
    p.agencyId == Some(agencyId)
  }

  predicate WorksFor(agencyId: string, a: Agent) {
    a.agencyId == Some(agencyId)
  }

  /** `properties.filter(prop => prop.agentId === agentId)` */
  function AgentListings(ps: seq<Property>, agentId: string): seq<Property> {
    if ps == [] then []
    else (if ps[0].agentId == Some(agentId) then [ps[0]] else []) + AgentListings(ps[1..], agentId)
  }

  /** `AgentListings` is the `filter` by the foreign key. */
  lemma {:induction false} AgentListingsIsFilter(ps: seq<Property>, agentId: string)
    ensures AgentListings(ps, agentId) == Filter(ps, p => ListedByAgent(agentId, p))
  {
    if ps != [] {
      AgentListingsIsFilter(ps[1..], agentId);
    }
  }

  /** `AgentListings` keeps, in order, exactly the elements carrying the id. */
  lemma AgentListingsSpec(ps: seq<Property>, agentId: string)
    ensures IsSubsequence(AgentListings(ps, agentId), ps)
    ensures forall p :: p in AgentListings(ps, agentId) <==> p in ps && p.agentId == Some(agentId)
  {
    AgentListingsIsFilter(ps, agentId);
    FilterIsSubsequence(ps, p => ListedByAgent(agentId, p));
    forall p ensures p in AgentListings(ps, agentId) <==> p in ps && p.agentId == Some(agentId) {
      FilterMembership(ps, p => ListedByAgent(agentId, p), p);
    }
  }

  /** `properties.filter(prop => prop.agencyId === agencyId)` */
  function AgencyListings(ps: seq<Property>, agencyId: string): seq<Property> {
    if ps == [] then []
    else (if ps[0].agencyId == Some(agencyId) then [ps[0]] else []) + AgencyListings(ps[1..], agencyId)
  }

  /** `AgencyListings` is the `filter` by the foreign key. */
  lemma {:induction false} AgencyListingsIsFilter(ps: seq<Property>, agencyId: string)
    ensures AgencyListings(ps, agencyId) == Filter(ps, p => ListedByAgency(agencyId, p))
  {
    if ps != [] {
      AgencyListingsIsFilter(ps[1..], agencyId);
    }
  }

  /** `AgencyListings` keeps, in order, exactly the elements carrying the id. */
  lemma AgencyListingsSpec(ps: seq<Property>, agencyId: string)
    ensures IsSubsequence(AgencyListings(ps, agencyId), ps)
    ensures forall p :: p in AgencyListings(ps, agencyId) <==> p in ps && p.agencyId == Some(agencyId)
  {
    AgencyListingsIsFilter(ps, agencyId);
    FilterIsSubsequence(ps, p => ListedByAgency(agencyId, p));
    forall p ensures p in AgencyListings(ps, agencyId) <==> p in ps && p.agencyId == Some(agencyId) {
      FilterMembership(ps, p => ListedByAgency(agencyId, p), p);
    }
  }

  /** `agents.filter(agent => agent.agencyId === agencyId)` */
  function AgencyStaff(gs: seq<Agent>, agencyId: string): seq<Agent> {
    if gs == [] then []
    else (if gs[0].agencyId == Some(agencyId) then [gs[0]] else []) + AgencyStaff(gs[1..], agencyId)
  }

  /** `AgencyStaff` is the `filter` by the foreign key. */
  lemma {:induction false} AgencyStaffIsFilter(gs: seq<Agent>, agencyId: string)
    ensures AgencyStaff(gs, agencyId) == Filter(gs, a => WorksFor(agencyId, a))
  {
    if gs != [] {
      AgencyStaffIsFilter(gs[1..], agencyId);
    }
  }

  /** `AgencyStaff` keeps, in order, exactly the elements carrying the id. */
  lemma AgencyStaffSpec(gs: seq<Agent>, agencyId: string)
    ensures IsSubsequence(AgencyStaff(gs, agencyId), gs)
    ensures forall a :: a in AgencyStaff(gs, agencyId) <==> a in gs && a.agencyId == Some(agencyId)
  {
    AgencyStaffIsFilter(gs, agencyId);
    FilterIsSubsequence(gs, a => WorksFor(agencyId, a));
    forall a ensures a in AgencyStaff(gs, agencyId) <==> a in gs && a.agencyId == Some(agencyId) {
      FilterMembership(gs, a => WorksFor(agencyId, a), a);
    }
  }

  /** An agent after the first loop: only `properties` is derived. */
  function LinkAgent(a: Agent, ps: seq<Property>): Agent {
    a.(properties := AgentListings(ps, a.id))
  }

  /** An agency after the second loop, given the already linked agents. */
  function LinkAgency(ag: Agency, gs: seq<Agent>, ps: seq<Property>): Agency {
    ag.(agents := AgencyStaff(gs, ag.id), properties := AgencyListings(ps, ag.id))
  }

  /** The agents array after the first loop: each agent lists the properties carrying its id, and nothing else changes. */
  function LinkAgents(gs: seq<Agent>, ps: seq<Property>): (r: seq<Agent>)
    ensures |r| == |gs|
    ensures forall i :: 0 <= i < |gs| ==>
      r[i].properties == Filter(ps, p => ListedByAgent(gs[i].id, p)) &&
      r[i].(properties := gs[i].properties) == gs[i]
  {
    AllAgentListingsAreFilters(gs, ps);
    seq(|gs|, i requires 0 <= i < |gs| => LinkAgent(gs[i], ps))
  }

  /**
   * The agencies array after the second loop: each agency lists the agents
   * and the properties carrying its id, and nothing else changes.
   */
  function LinkAgencies(ags: seq<Agency>, gs: seq<Agent>, ps: seq<Property>): (r: seq<Agency>)
    ensures |r| == |ags|
    ensures forall i :: 0 <= i < |ags| ==>
      r[i].agents == Filter(gs, a => WorksFor(ags[i].id, a)) &&
      r[i].properties == Filter(ps, p => ListedByAgency(ags[i].id, p)) &&
      r[i].(agents := ags[i].agents, properties := ags[i].properties) == ags[i]
  {
    AllAgencyListsAreFilters(ags, gs, ps);
    seq(|ags|, i requires 0 <= i < |ags| => LinkAgency(ags[i], gs, ps))
  }

  lemma AllAgentListingsAreFilters(gs: seq<Agent>, ps: seq<Property>)
    ensures forall i :: 0 <= i < |gs| ==>
      AgentListings(ps, gs[i].id) == Filter(ps, p => ListedByAgent(gs[i].id, p))
  {
    forall i | 0 <= i < |gs| ensures AgentListings(ps, gs[i].id) == Filter(ps, p => ListedByAgent(gs[i].id, p)) {
      AgentListingsIsFilter(ps, gs[i].id);
    }
  }

  lemma AllAgencyListsAreFilters(ags: seq<Agency>, gs: seq<Agent>, ps: seq<Property>)
    ensures forall i :: 0 <= i < |ags| ==>
      AgencyStaff(gs, ags[i].id) == Filter(gs, a => WorksFor(ags[i].id, a)) &&
      AgencyListings(ps, ags[i].id) == Filter(ps, p => ListedByAgency(ags[i].id, p))
  {
    forall i | 0 <= i < |ags|
      ensures AgencyStaff(gs, ags[i].id) == Filter(gs, a => WorksFor(ags[i].id, a))
      ensures AgencyListings(ps, ags[i].id) == Filter(ps, p => ListedByAgency(ags[i].id, p))
    {
      AgencyStaffIsFilter(gs, ags[i].id);
      AgencyListingsIsFilter(ps, ags[i].id);
    }
  }

  /** The whole pass on values: agencies are linked against the linked agents. */
  function Initialize(ags: seq<Agency>, gs: seq<Agent>, ps: seq<Property>): (seq<Agency>, seq<Agent>) {
    var linked := LinkAgents(gs, ps);
    (LinkAgencies(ags, linked, ps), linked)
  }

  /** The first `forEach`: every agent gets the properties carrying its id. */
  method LinkAgentsInPlace(agents: array<Agent>, ps: seq<Property>)
    modifies agents
    ensures agents[..] == LinkAgents(old(agents[..]), ps)
  {
    for i := 0 to agents.Length
      invariant forall j :: 0 <= j < i ==> agents[j] == LinkAgent(old(agents[j]), ps)
      invariant forall j :: i <= j < agents.Length ==> agents[j] == old(agents[j])
    {
      agents[i] := agents[i].(properties := AgentListings(ps, agents[i].id));
    }
  }

  /** The second `forEach`: every agency gets the agents and properties carrying its id. */
  method LinkAgenciesInPlace(agencies: array<Agency>, gs: seq<Agent>, ps: seq<Property>)
    modifies agencies
    ensures agencies[..] == LinkAgencies(old(agencies[..]), gs, ps)
  {
    for i := 0 to agencies.Length
      invariant forall j :: 0 <= j < i ==> agencies[j] == LinkAgency(old(agencies[j]), gs, ps)
      invariant forall j :: i <= j < agencies.Length ==> agencies[j] == old(agencies[j])
    {
      agencies[i] := agencies[i].(agents := AgencyStaff(gs, agencies[i].id),
                                  properties := AgencyListings(ps, agencies[i].id));
    }
  }

  /**
   * `initializeMockData()`: both loops write the shared records in place and the
   * same three arrays come back; the properties array is only read.
   */
  method InitializeMockData(agencies: array<Agency>, agents: array<Agent>, properties: array<Property>)
    returns (rAgencies: array<Agency>, rAgents: array<Agent>, rProperties: array<Property>)
    modifies agencies, agents
    ensures rAgencies == agencies && rAgents == agents && rProperties == properties
    ensures properties[..] == old(properties[..])
    ensures (agencies[..], agents[..]) == Initialize(old(agencies[..]), old(agents[..]), properties[..])
  {
    var ps := properties[..];
    LinkAgentsInPlace(agents, ps);
    LinkAgenciesInPlace(agencies, agents[..], ps);
    rAgencies, rAgents, rProperties := agencies, agents, properties;
  }

  /** Linking only rewrites the derived lists: ids and foreign keys survive. */
  lemma LinkAgentsKeepsKeys(gs: seq<Agent>, ps: seq<Property>)
    ensures forall i :: 0 <= i < |gs| ==>
      LinkAgents(gs, ps)[i].id == gs[i].id && LinkAgents(gs, ps)[i].agencyId == gs[i].agencyId &&
      LinkAgents(gs, ps)[i] == gs[i].(properties := LinkAgents(gs, ps)[i].properties)
  {
  }

  /** Running the pass a second time changes nothing. */
  lemma InitializeIdempotent(ags: seq<Agency>, gs: seq<Agent>, ps: seq<Property>)
    ensures Initialize(Initialize(ags, gs, ps).0, Initialize(ags, gs, ps).1, ps) == Initialize(ags, gs, ps)
  {
    var (ags1, gs1) := Initialize(ags, gs, ps);
    var gs2 := LinkAgents(gs1, ps);
    assert gs2 == gs1 by {
      forall i | 0 <= i < |gs| ensures gs2[i] == gs1[i] {
        assert gs1[i].id == gs[i].id;
      }
    }
    var ags2 := LinkAgencies(ags1, gs2, ps);
    assert ags2 == ags1 by {
      forall i | 0 <= i < |ags| ensures ags2[i] == ags1[i] {
        assert ags1[i].id == ags[i].id;
      }
    }
  }

  /** An agent's derived list holds exactly the properties carrying that agent's id. */
  lemma AgentListMembership(gs: seq<Agent>, ps: seq<Property>, i: nat, p: Property)
    requires i < |gs|
    ensures p in LinkAgents(gs, ps)[i].properties <==> p in ps && p.agentId == Some(gs[i].id)
  {
    AgentListingsSpec(ps, gs[i].id);
  }

  /** A property without an `agentId` is in no agent's list. */
  lemma UnassignedPropertyInNoAgent(gs: seq<Agent>, ps: seq<Property>, p: Property)
    requires p.agentId.None?
    ensures forall a :: a in LinkAgents(gs, ps) ==> p !in a.properties
  {
    forall a | a in LinkAgents(gs, ps) ensures p !in a.properties {
      var i :| 0 <= i < |gs| && LinkAgents(gs, ps)[i] == a;
      AgentListingsSpec(ps, gs[i].id);
    }
  }

  /** An agency's derived lists hold exactly the agents and properties with its id. */
  lemma AgencyListsMembership(ags: seq<Agency>, gs: seq<Agent>, ps: seq<Property>, i: nat, a: Agent, p: Property)
    requires i < |ags|
    ensures a in LinkAgencies(ags, gs, ps)[i].agents <==> a in gs && a.agencyId == Some(ags[i].id)
    ensures p in LinkAgencies(ags, gs, ps)[i].properties <==> p in ps && p.agencyId == Some(ags[i].id)
  {
    AgencyStaffSpec(gs, ags[i].id);
    AgencyListingsSpec(ps, ags[i].id);
  }

  function PropertyIds(ps: seq<Property>): (ids: seq<string>)
    ensures |ids| == |ps| && forall i :: 0 <= i < |ps| ==> ids[i] == ps[i].id
  {
    if ps == [] then [] else [ps[0].id] + PropertyIds(ps[1..])
  }

  /** How many of four agents work for an agency, from their `agencyId`s alone. */
  lemma AgencyStaffOfFour(gs: seq<Agent>, agencyId: string)
    requires |gs| == 4
    ensures |AgencyStaff(gs, agencyId)| ==
      (if gs[0].agencyId == Some(agencyId) then 1 else 0) +
      (if gs[1].agencyId == Some(agencyId) then 1 else 0) +
      (if gs[2].agencyId == Some(agencyId) then 1 else 0) +
      (if gs[3].agencyId == Some(agencyId) then 1 else 0)
  {
    assert gs[1..][1..] == gs[2..] && gs[2..][1..] == gs[3..] && gs[3..][1..] == [];
    assert |AgencyStaff(gs[3..], agencyId)| == (if gs[3].agencyId == Some(agencyId) then 1 else 0);
    assert |AgencyStaff(gs[2..], agencyId)| ==
      (if gs[2].agencyId == Some(agencyId) then 1 else 0) + |AgencyStaff(gs[3..], agencyId)|;
    assert |AgencyStaff(gs[1..], agencyId)| ==
      (if gs[1].agencyId == Some(agencyId) then 1 else 0) + |AgencyStaff(gs[2..], agencyId)|;
  }

  /** Linking the agents leaves each agency's staff count as the raw `agencyId`s give it. */
  lemma {:induction false} StaffCountIgnoresLinking(gs: seq<Agent>, ps: seq<Property>, agencyId: string)
    ensures |AgencyStaff(LinkAgents(gs, ps), agencyId)| == |AgencyStaff(gs, agencyId)|
  {
    if gs != [] {
      assert LinkAgents(gs, ps)[1..] == LinkAgents(gs[1..], ps);
      StaffCountIgnoresLinking(gs[1..], ps, agencyId);
    }
  }

  /** Of six properties, the listings of an agency that owns exactly the first and the fifth. */
  lemma AgencyListingsFirstAndFifth(ps: seq<Property>, agencyId: string)
    requires |ps| == 6
    requires ps[0].agencyId == Some(agencyId) && ps[4].agencyId == Some(agencyId)
    requires ps[1].agencyId != Some(agencyId) && ps[2].agencyId != Some(agencyId)
    requires ps[3].agencyId != Some(agencyId) && ps[5].agencyId != Some(agencyId)
    ensures AgencyListings(ps, agencyId) == [ps[0], ps[4]]
  {
    assert ps[5..][1..] == [] && ps[4..][1..] == ps[5..] && ps[3..][1..] == ps[4..];
    assert ps[2..][1..] == ps[3..] && ps[1..][1..] == ps[2..];
    assert AgencyListings(ps[5..], agencyId) == [];
    assert AgencyListings(ps[4..], agencyId) == [ps[4]];
    assert AgencyListings(ps[3..], agencyId) == [ps[4]];
    assert AgencyListings(ps[2..], agencyId) == [ps[4]];
  }

  /** On the mock data, agency "1" lists properties "1" and "5". */
  lemma MockAgencyOneListings()
    ensures PropertyIds(AgencyListings(MockProperties, "1")) == ["1", "5"]
  {
    AgencyListingsFirstAndFifth(MockProperties, "1");
  }

  /** On the mock data, every agency has exactly one agent. */
  lemma MockOneAgentEach()
    ensures |MockAgencies| == 4
    ensures forall i :: 0 <= i < 4 ==> |AgencyStaff(MockAgents, MockAgencies[i].id)| == 1
  {
    forall i | 0 <= i < 4
      ensures |AgencyStaff(MockAgents, MockAgencies[i].id)| == 1
    {
      AgencyStaffOfFour(MockAgents, MockAgencies[i].id);
    }
  }

  predicate HasId(agencyId: string, a: Agency) {
    a.id == agencyId
  }

  /** `agencies.find(a => a.id === agencyId)` */
  function FindAgency(ags: seq<Agency>, agencyId: string): Option<Agency> {
    Find(ags, a => HasId(agencyId, a))
  }
}

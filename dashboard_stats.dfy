/**
 * The admin statistics cards (src/components/dashboard/DashboardStats.tsx):
 * the number of agencies, of properties, and the agents summed over agencies.
 */
module DashboardStats {
  import opened Types
  import opened MockData

  /** `agencies.reduce((acc, agency) => acc + agency.agents.length, 0)`, folding from the left. */
  function TotalAgents(ags: seq<Agency>): nat {
    if ags == [] then 0
    else TotalAgents(ags[..|ags| - 1]) + |ags[|ags| - 1].agents|
  }

  /** The sum is additive over concatenation. */
  lemma {:induction false} TotalAgentsConcat(a: seq<Agency>, b: seq<Agency>)
    ensures TotalAgents(a + b) == TotalAgents(a) + TotalAgents(b)
    decreases |b|
  {
    if b == [] {
      assert a + b == a;
    } else {
      assert (a + b)[..|a + b| - 1] == a + b[..|b| - 1];
      TotalAgentsConcat(a, b[..|b| - 1]);
    }
  }

  /** No agencies, no agents; one agency contributes its own staff. */
  lemma TotalAgentsBase(a: Agency)
    ensures TotalAgents([]) == 0
    ensures TotalAgents([a]) == |a.agents|
  {
    assert [a][..0] == [];
  }

  /** The total is at least the staff of any single agency. */
  lemma TotalAgentsAtLeastEach(ags: seq<Agency>, k: nat)
    requires k < |ags|
    ensures |ags[k].agents| <= TotalAgents(ags)
  {
    assert ags == ags[..k] + [ags[k]] + ags[k + 1..];
    TotalAgentsConcat(ags[..k] + [ags[k]], ags[k + 1..]);
    TotalAgentsConcat(ags[..k], [ags[k]]);
    TotalAgentsBase(ags[k]);
  }

  /** The three card values: agencies, properties, agents. */
  function Stats(ags: seq<Agency>, ps: seq<Property>): (values: (nat, nat, nat))
    ensures values.0 == |ags| && values.1 == |ps|
  {
    (|ags|, |ps|, TotalAgents(ags))
  }

  /** Four agencies with one agent each make four agents in all. */
  lemma TotalOfFourSingles(ags: seq<Agency>)
    requires |ags| == 4 && forall k :: 0 <= k < 4 ==> |ags[k].agents| == 1
    ensures TotalAgents(ags) == 4
  {
    assert ags == ags[..3] + [ags[3]];
    assert ags[..3] == ags[..2] + [ags[2]];
    assert ags[..2] == ags[..1] + [ags[1]];
    TotalAgentsBase(ags[0]);
    assert ags[..1] == [ags[0]];
    TotalAgentsConcat(ags[..1], [ags[1]]);
    TotalAgentsBase(ags[1]);
    TotalAgentsConcat(ags[..2], [ags[2]]);
    TotalAgentsBase(ags[2]);
    TotalAgentsConcat(ags[..3], [ags[3]]);
    TotalAgentsBase(ags[3]);
  }

  /** Four agencies that each employ one of the agents have four agents in all once linked. */
  lemma LinkedTotalOfFour(ags: seq<Agency>, gs: seq<Agent>, ps: seq<Property>)
    requires |ags| == 4 && forall k :: 0 <= k < 4 ==> |AgencyStaff(gs, ags[k].id)| == 1
    ensures TotalAgents(Initialize(ags, gs, ps).0) == 4
  {
    var linked := Initialize(ags, gs, ps).0;
    forall k | 0 <= k < 4 ensures |linked[k].agents| == 1 {
      StaffCountIgnoresLinking(gs, ps, ags[k].id);
    }
    TotalOfFourSingles(linked);
  }

  /** Scenario: once the mock data is linked, the agents card shows 4. */
  lemma MockTotalAgents()
    ensures TotalAgents(Initialize(MockAgencies, MockAgents, MockProperties).0) == 4
  {
    MockOneAgentEach();
    LinkedTotalOfFour(MockAgencies, MockAgents, MockProperties);
  }
}

/**
 * The entities of the marketplace and the constant subscription-plan table
 * (src/types/index.ts). Dates are milliseconds since the epoch.
 */
module Types {
  import opened Wrappers
  import opened Text

  datatype Role = AgentRole | AgencyRole | AdminRole

  datatype User = User(id: string, email: string, name: string, role: Role, createdAt: int)

  datatype Plan = Basic | Standard | Premium

  /** The string value of a `SubscriptionPlan`. */
  function PlanName(p: Plan): string {
    match p
    case Basic => "basic"
    case Standard => "standard"
    case Premium => "premium"
  }

  /** The `value as SubscriptionPlan` cast, defined only on the three plan names. */
  function PlanFromName(s: string): (r: Option<Plan>)
    ensures r.Some? ==> PlanName(r.value) == s
    ensures r.None? ==> forall p: Plan :: PlanName(p) != s
  {
    if s == "basic" then Some(Basic)
    else if s == "standard" then Some(Standard)
    else if s == "premium" then Some(Premium)
    else None
  }

  lemma PlanNameRoundTrip(p: Plan)
    ensures PlanFromName(PlanName(p)) == Some(p)
  {
  }

  datatype Status = Pending | Approved | Rejected | Sold

  datatype Property = Property(
    id: string,
    title: string,
    description: string,
    price: int,
    bedrooms: Option<int>,
    bathrooms: Option<real>,
    area: Option<int>,
    images: seq<string>,
    address: string,
    city: string,
    state: Option<string>,
    country: string,
    zipCode: Option<string>,
    propertyType: string,
    status: Status,
    featured: bool,
    agentId: Option<string>,
    agencyId: Option<string>,
    createdAt: int)

  datatype Agent = Agent(
    id: string,
    userId: string,
    name: string,
    email: string,
    phone: string,
    photo: Option<string>,
    bio: Option<string>,
    agencyId: Option<string>,
    properties: seq<Property>,
    verified: bool,
    createdAt: int)

  datatype Agency = Agency(
    id: string,
    userId: string,
    name: string,
    logo: Option<string>,
    website: Option<string>,
    facebook: Option<string>,
    instagram: Option<string>,
    location: string,
    address: string,
    subscriptionPlan: Plan,
    verified: bool,
    agents: seq<Agent>,
    properties: seq<Property>,
    createdAt: int)

  datatype PlanDetails = PlanDetails(
    name: Plan,
    displayName: string,
    price: nat,
    propertyLimit: nat,
    features: seq<string>,
    recommended: Option<bool>)

  const SubscriptionPlans: seq<PlanDetails> := [
    PlanDetails(Basic, "Basic", 29, 5, [
      "List up to 5 properties",
      "Basic agency profile",
      "Email support",
      "Standard visibility in search"
    ], None),
    PlanDetails(Standard, "Standard", 79, 20, [
      "List up to 20 properties",
      "Enhanced agency profile",
      "Priority email support",
      "Higher visibility in search",
      "Property analytics"
    ], Some(true)),
    PlanDetails(Premium, "Premium", 199, 100, [
      "List up to 100 properties",
      "Premium agency profile with custom branding",
      "Priority phone & email support",
      "Top visibility in search",
      "Advanced property analytics",
      "Featured listings",
      "Dedicated account manager"
    ], None)
  ]

  /** Position of a plan in the table. */
  function PlanIndex(p: Plan): (i: nat)
    ensures i < |SubscriptionPlans| && SubscriptionPlans[i].name == p
    ensures forall j :: 0 <= j < |SubscriptionPlans| && SubscriptionPlans[j].name == p ==> j == i
  {
    match p
    case Basic => 0
    case Standard => 1
    case Premium => 2
  }

  /** `SUBSCRIPTION_PLANS.find(plan => plan.name === p)`; every plan has exactly one row. */
  function DetailsOf(p: Plan): (d: PlanDetails)
    ensures d in SubscriptionPlans && d.name == p
  {
    SubscriptionPlans[PlanIndex(p)]
  }

  /** Table order is basic, standard, premium, and prices and limits strictly increase along it. */
  lemma PlanTableOrdered()
    ensures |SubscriptionPlans| == 3
    ensures [SubscriptionPlans[0].name, SubscriptionPlans[1].name, SubscriptionPlans[2].name]
         == [Basic, Standard, Premium]
    ensures forall i, j :: 0 <= i < j < |SubscriptionPlans| ==>
      SubscriptionPlans[i].price < SubscriptionPlans[j].price &&
      SubscriptionPlans[i].propertyLimit < SubscriptionPlans[j].propertyLimit
  {
  }

  /** A plan that costs more allows more listings. */
  lemma PriceOrdersLimit(p: Plan, q: Plan)
    requires DetailsOf(p).price < DetailsOf(q).price
    ensures DetailsOf(p).propertyLimit < DetailsOf(q).propertyLimit
  {
    PlanTableOrdered();
  }

  /** Each plan's first feature announces exactly its property limit. */
  lemma FirstFeatureStatesLimit(p: Plan)
    ensures |DetailsOf(p).features| > 0
    ensures DetailsOf(p).features[0] ==
            "List up to " + NatToString(DetailsOf(p).propertyLimit) + " properties"
  {
    LimitNames();
  }

  /** The decimal forms of the three property limits. */
  lemma LimitNames()
    ensures NatToString(5) == "5" && NatToString(20) == "20" && NatToString(100) == "100"
  {
    assert NatToString(20) == NatToString(2) + [DigitChar(0)];
    assert NatToString(10) == NatToString(1) + [DigitChar(0)];
    assert NatToString(100) == NatToString(10) + [DigitChar(0)];
  }

  /** Standard is the one recommended plan. */
  lemma OnlyStandardRecommended(p: Plan)
    ensures DetailsOf(p).recommended == Some(true) <==> p == Standard
  {
  }
}

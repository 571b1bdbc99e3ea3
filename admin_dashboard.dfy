/**
 * The administrator dashboard (src/pages/AdminDashboard.tsx): the mount
 * effect that marks the first agencies unverified and the first properties
 * pending in the shared mock records, the pending lists it shows, approve and
 * reject, and the admin-only guard.
 *
 * The shared records are array cells: copying the array with `[...xs]` keeps
 * the same record objects, so writing a field through the copy writes the
 * cell of the shared array.
 */
module AdminDashboard {
  import opened Wrappers
  import opened Seqs
  import opened Types
  import opened PropertiesPage

  /** How many agencies and properties the demo marks as pending. */
  const PendingAgencyCount: nat := 2
  const PendingPropertyCount: nat := 3

  function Min(a: nat, b: nat): nat {
    if a < b then a else b
  }

  /** The agencies after the first `forEach`: the first `n` have `verified` cleared. */
  function UnverifyFirst(s: seq<Agency>, n: nat): seq<Agency> {
    seq(|s|, i requires 0 <= i < |s| => if i < n then s[i].(verified := false) else s[i])
  }

  /** The properties after the second `forEach`: the first `n` are pending. */
  function MarkPendingFirst(s: seq<Property>, n: nat): seq<Property> {
    seq(|s|, i requires 0 <= i < |s| => if i < n then s[i].(status := Pending) else s[i])
  }

  /** Only `verified` changes, only at the first `n` cells, and there it is false. */
  lemma UnverifyFirstSpec(s: seq<Agency>, n: nat)
    ensures |UnverifyFirst(s, n)| == |s|
    ensures forall k :: 0 <= k < |s| && k < n ==>
      !UnverifyFirst(s, n)[k].verified && UnverifyFirst(s, n)[k].(verified := s[k].verified) == s[k]
    ensures forall k :: n <= k < |s| ==> UnverifyFirst(s, n)[k] == s[k]
  {
  }

  /** Only `status` changes, only at the first `n` cells, and there it is pending. */
  lemma MarkPendingFirstSpec(s: seq<Property>, n: nat)
    ensures |MarkPendingFirst(s, n)| == |s|
    ensures forall k :: 0 <= k < |s| && k < n ==>
      MarkPendingFirst(s, n)[k].status == Pending && MarkPendingFirst(s, n)[k].(status := s[k].status) == s[k]
    ensures forall k :: n <= k < |s| ==> MarkPendingFirst(s, n)[k] == s[k]
  {
  }

  /** Marking twice is marking once. */
  lemma MarkingIdempotent(s: seq<Agency>, t: seq<Property>, n: nat)
    ensures UnverifyFirst(UnverifyFirst(s, n), n) == UnverifyFirst(s, n)
    ensures MarkPendingFirst(MarkPendingFirst(t, n), n) == MarkPendingFirst(t, n)
  {
  }

  /**
   * `[...data.agencies].slice(0, 2).forEach(a => { a.verified = false })`:
   * the shared cells are written, and the pending list is the first cells.
   */
  method SetupPendingAgencies(agencies: array<Agency>) returns (pending: seq<Agency>)
    modifies agencies
    ensures agencies[..] == UnverifyFirst(old(agencies[..]), PendingAgencyCount)
    ensures pending == agencies[..Min(PendingAgencyCount, agencies.Length)]
    ensures |pending| == Min(PendingAgencyCount, agencies.Length)
    ensures forall k :: 0 <= k < |pending| ==> !pending[k].verified
  {
    var n := Min(PendingAgencyCount, agencies.Length);
    for i := 0 to n
      invariant forall j :: 0 <= j < i ==> agencies[j] == old(agencies[j]).(verified := false)
      invariant forall j :: i <= j < agencies.Length ==> agencies[j] == old(agencies[j])
    {
      agencies[i] := agencies[i].(verified := false);
    }
    pending := agencies[..n];
  }

  /** The same for the first three properties and their `status`. */
  method SetupPendingProperties(properties: array<Property>) returns (pending: seq<Property>)
    modifies properties
    ensures properties[..] == MarkPendingFirst(old(properties[..]), PendingPropertyCount)
    ensures pending == properties[..Min(PendingPropertyCount, properties.Length)]
    ensures |pending| == Min(PendingPropertyCount, properties.Length)
    ensures forall k :: 0 <= k < |pending| ==> pending[k].status == Pending
  {
    var n := Min(PendingPropertyCount, properties.Length);
    for i := 0 to n
      invariant forall j :: 0 <= j < i ==> properties[j] == old(properties[j]).(status := Pending)
      invariant forall j :: i <= j < properties.Length ==> properties[j] == old(properties[j])
    {
      properties[i] := properties[i].(status := Pending);
    }
    pending := properties[..n];
  }

  predicate OtherAgency(agencyId: string, a: Agency) {
    a.id != agencyId
  }

  /** `prev.filter(agency => agency.id !== agencyId)` */
  function WithoutAgency(ags: seq<Agency>, agencyId: string): seq<Agency> {
    Filter(ags, a => OtherAgency(agencyId, a))
  }

  /** Removal keeps exactly the entries with another id, in order. */
  lemma WithoutAgencySpec(ags: seq<Agency>, agencyId: string, a: Agency)
    ensures a in WithoutAgency(ags, agencyId) <==> a in ags && a.id != agencyId
    ensures IsSubsequence(WithoutAgency(ags, agencyId), ags)
  {
    FilterMembership(ags, b => OtherAgency(agencyId, b), a);
    FilterIsSubsequence(ags, b => OtherAgency(agencyId, b));
  }

  /** Removing an id no entry carries changes nothing. */
  lemma WithoutAbsentAgency(ags: seq<Agency>, agencyId: string)
    requires forall k :: 0 <= k < |ags| ==> ags[k].id != agencyId
    ensures WithoutAgency(ags, agencyId) == ags
  {
    FilterKeepsAll(ags, b => OtherAgency(agencyId, b));
  }

  /** The page is left for "/" unless an administrator is signed in. */
  predicate Redirected(user: Option<User>) {
    user.None? || user.value.role != AdminRole
  }

  /** The pending lists the dashboard shows. */
  class Dashboard {
    var pendingAgencies: seq<Agency>
    var pendingProperties: seq<Property>

    constructor ()
      ensures pendingAgencies == [] && pendingProperties == []
    {
      pendingAgencies := [];
      pendingProperties := [];
    }

    /** The mount effect, on the arrays `initializeMockData` returns. */
    method Load(agencies: array<Agency>, properties: array<Property>)
      modifies this, agencies, properties
      ensures agencies[..] == UnverifyFirst(old(agencies[..]), PendingAgencyCount)
      ensures properties[..] == MarkPendingFirst(old(properties[..]), PendingPropertyCount)
      ensures pendingAgencies == agencies[..Min(PendingAgencyCount, agencies.Length)]
      ensures pendingProperties == properties[..Min(PendingPropertyCount, properties.Length)]
    {
      pendingAgencies := SetupPendingAgencies(agencies);
      pendingProperties := SetupPendingProperties(properties);
    }

    method ApproveAgency(agencyId: string)
      modifies this
      ensures pendingAgencies == WithoutAgency(old(pendingAgencies), agencyId)
      ensures pendingProperties == old(pendingProperties)
    {
      pendingAgencies := WithoutAgency(pendingAgencies, agencyId);
    }

    /** Rejecting has the same effect on the lists as approving. */
    method RejectAgency(agencyId: string)
      modifies this
      ensures pendingAgencies == WithoutAgency(old(pendingAgencies), agencyId)
      ensures pendingProperties == old(pendingProperties)
    {
      pendingAgencies := WithoutAgency(pendingAgencies, agencyId);
    }

    method ApproveProperty(propertyId: string)
      modifies this
      ensures pendingProperties == WithoutId(old(pendingProperties), propertyId)
      ensures pendingAgencies == old(pendingAgencies)
    {
      pendingProperties := WithoutId(pendingProperties, propertyId);
    }

    method RejectProperty(propertyId: string)
      modifies this
      ensures pendingProperties == WithoutId(old(pendingProperties), propertyId)
      ensures pendingAgencies == old(pendingAgencies)
    {
      pendingProperties := WithoutId(pendingProperties, propertyId);
    }
  }
}

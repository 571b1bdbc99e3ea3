/**
 * The new-agency form (src/components/admin/CreateAgencyForm.tsx): the form
 * fields, the agency record `handleCreateAgency` builds from them, the reset
 * that follows, and the `isSubmitting` flag around the simulated request.
 * `Date.now()` is the parameter `now`; the one-second delay is the gap between
 * `StartCreate` and `CompleteCreate`.
 */
module CreateAgencyForm {
  import opened Wrappers
  import opened Text
  import opened Types

  /** The form's `formData` object. */
  datatype AgencyFormData = AgencyFormData(
    name: string,
    email: string,
    website: string,
    address: string,
    location: string,
    subscriptionPlan: Plan)

  /** The initial and the reset form: every text empty, plan basic. */
  const EmptyForm := AgencyFormData("", "", "", "", "", Basic)

  /** The text inputs, by their `name` attribute. */
  datatype FormField = NameField | EmailField | WebsiteField | AddressField | LocationField

  /** `handleInputChange`: `{ ...prev, [name]: value }`. */
  function WithField(form: AgencyFormData, field: FormField, value: string): AgencyFormData {
    match field
    case NameField => form.(name := value)
    case EmailField => form.(email := value)
    case WebsiteField => form.(website := value)
    case AddressField => form.(address := value)
    case LocationField => form.(location := value)
  }

  /** The text a field currently holds. */
  function FieldValue(form: AgencyFormData, field: FormField): string {
    match field
    case NameField => form.name
    case EmailField => form.email
    case WebsiteField => form.website
    case AddressField => form.address
    case LocationField => form.location
  }

  /** An input change sets its own field and keeps every other field and the plan. */
  lemma WithFieldSpec(form: AgencyFormData, field: FormField, value: string, other: FormField)
    ensures FieldValue(WithField(form, field, value), field) == value
    ensures other != field ==> FieldValue(WithField(form, field, value), other) == FieldValue(form, other)
    ensures WithField(form, field, value).subscriptionPlan == form.subscriptionPlan
  {
  }

  /** Writing back a field's own value changes nothing. */
  lemma WithFieldUnchanged(form: AgencyFormData, field: FormField)
    ensures WithField(form, field, FieldValue(form, field)) == form
  {
  }

  /** `agency-${Date.now()}` and `user-${Date.now()}` */
  function AgencyId(now: nat): string {
    "agency-" + NatToString(now)
  }

  function UserId(now: nat): string {
    "user-" + NatToString(now)
  }

  /** Agencies created at different milliseconds get different ids. */
  lemma AgencyIdInjective(m: nat, n: nat)
    requires AgencyId(m) == AgencyId(n)
    ensures m == n
  {
    assert NatToString(m) == AgencyId(m)[7..];
    assert NatToString(n) == AgencyId(n)[7..];
    NatToStringInjective(m, n);
  }

  /**
   * The record `handleCreateAgency` builds: no validation, the website only when
   * truthy, the email nowhere, unverified, with no agents and no listings.
   */
  function BuildAgency(form: AgencyFormData, now: nat): (a: Agency)
    ensures a.id == AgencyId(now) && a.userId == UserId(now) && a.createdAt == now
    ensures a.name == form.name && a.location == form.location && a.address == form.address
    ensures a.subscriptionPlan == form.subscriptionPlan
    ensures a.website.None? <==> form.website == ""
    ensures a.website.Some? ==> a.website.value == form.website
    ensures !a.verified && a.agents == [] && a.properties == []
    ensures a.logo.None? && a.facebook.None? && a.instagram.None?
  {
    Agency(
      AgencyId(now), UserId(now), form.name,
      None, if form.website != "" then Some(form.website) else None, None, None,
      form.location, form.address, form.subscriptionPlan,
      false, [], [], now)
  }

  /** The email typed in the form has no effect on the record. */
  lemma EmailNotStored(form: AgencyFormData, email: string, now: nat)
    ensures BuildAgency(form.(email := email), now) == BuildAgency(form, now)
  {
  }

  /** The button text. */
  function ButtonLabel(isSubmitting: bool): (text: string)
    ensures isSubmitting <==> text == "Creating..."
  {
    if isSubmitting then "Creating..." else "Create Agency"
  }

  /** The toast shown after a creation. */
  function CreatedToast(a: Agency): (string, string) {
    ("Agency Created", a.name + " has been created successfully.")
  }

  /** The toast's description names the agency, so agencies of different names get different toasts. */
  lemma CreatedToastNamesAgency(a: Agency, b: Agency)
    ensures CreatedToast(a).0 == "Agency Created"
    ensures CreatedToast(a) == CreatedToast(b) ==> a.name == b.name
  {
    var suffix := " has been created successfully.";
    if CreatedToast(a) == CreatedToast(b) {
      assert |a.name| == |b.name|;
      assert a.name == (a.name + suffix)[..|a.name|];
      assert b.name == (b.name + suffix)[..|b.name|];
    }
  }

  /**
   * The form state. `pending` is the form as the click saw it, which the
   * delayed callback builds from; `created` records the calls to
   * `onAgencyCreated`, oldest first.
   */
  class Form {
    var formData: AgencyFormData
    var isSubmitting: bool
    var pending: Option<AgencyFormData>
    var created: seq<Agency>

    constructor ()
      ensures formData == EmptyForm && !isSubmitting && pending.None? && created == []
    {
      formData := EmptyForm;
      isSubmitting := false;
      pending := None;
      created := [];
    }

    /** The create button is disabled while a creation is under way. */
    predicate ButtonDisabled()
      reads this
    {
      isSubmitting
    }

    method InputChange(field: FormField, value: string)
      modifies this
      ensures formData == WithField(old(formData), field, value)
      ensures isSubmitting == old(isSubmitting) && pending == old(pending) && created == old(created)
    {
      formData := WithField(formData, field, value);
    }

    /** `handleSelectChange` */
    method SelectChange(plan: Plan)
      modifies this
      ensures formData == old(formData).(subscriptionPlan := plan)
      ensures isSubmitting == old(isSubmitting) && pending == old(pending) && created == old(created)
    {
      formData := formData.(subscriptionPlan := plan);
    }

    /** The click: the flag goes up and the timer keeps the form it was given. */
    method StartCreate()
      requires !ButtonDisabled()
      modifies this
      ensures isSubmitting && ButtonDisabled()
      ensures pending == Some(old(formData))
      ensures formData == old(formData) && created == old(created)
    {
      isSubmitting := true;
      pending := Some(formData);
    }

    /**
     * The timer's body: the agency is built from the form captured at the click,
     * the form is reset, the callback receives the agency once, and the flag drops.
     */
    method CompleteCreate(now: nat) returns (agency: Agency, toast: (string, string))
      requires isSubmitting && pending.Some?
      modifies this
      ensures agency == BuildAgency(old(pending).value, now)
      ensures toast == CreatedToast(agency)
      ensures formData == EmptyForm && !isSubmitting && !ButtonDisabled() && pending.None?
      ensures created == old(created) + [agency]
    {
      agency := BuildAgency(pending.value, now);
      formData := EmptyForm;
      toast := CreatedToast(agency);
      created := created + [agency];
      isSubmitting := false;
      pending := None;
    }
  }

  /** A click followed by its timer adds exactly the agency of the form at the click, and resets. */
  method CreateOnce(form: Form, now: nat) returns (agency: Agency)
    requires !form.ButtonDisabled()
    modifies form
    ensures agency == BuildAgency(old(form.formData), now)
    ensures form.created == old(form.created) + [agency]
    ensures form.formData == EmptyForm && !form.isSubmitting
  {
    form.StartCreate();
    var toast;
    agency, toast := form.CompleteCreate(now);
  }
}

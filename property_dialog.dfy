/**
 * The add/edit property form (src/components/PropertyDialog.tsx): the
 * validation schema, the values the form is reset to, and the record `onSubmit`
 * builds from the form and the property being edited. The random id and the
 * current time are parameters.
 */
module PropertyDialog {
  import opened Wrappers
  import opened Types

  /**
   * The form's values after coercion. Bedrooms stay a number until the
   * schema's integer check; price and area are whole numbers here.
   */
  datatype FormValues = FormValues(
    title: string,
    description: string,
    price: int,
    bedrooms: real,
    bathrooms: real,
    area: int,
    address: string,
    city: string,
    state: Option<string>,
    zipCode: Option<string>,
    propertyType: string)

  /** The fields the schema checks, in schema order. */
  datatype Field = Title | Description | Price | Bedrooms | Bathrooms | Area | Address | City | PropertyType

  function Message(f: Field): string {
    match f
    case Title => "Title must be at least 5 characters"
    case Description => "Description must be at least 20 characters"
    case Price => "Price must be a positive number"
    case Bedrooms => "Bedrooms must be a positive number"
    case Bathrooms => "Bathrooms must be a positive number"
    case Area => "Area must be a positive number"
    case Address => "Address must be at least 5 characters"
    case City => "City must be at least 2 characters"
    case PropertyType => "Property type is required"
  }

  predicate IsInteger(x: real) {
    x.Floor as real == x
  }

  /** The rule the schema attaches to one field. */
  predicate FieldOk(v: FormValues, f: Field) {
    match f
    case Title => |v.title| >= 5
    case Description => |v.description| >= 20
    case Price => v.price > 0
    case Bedrooms => IsInteger(v.bedrooms) && v.bedrooms > 0.0
    case Bathrooms => v.bathrooms > 0.0
    case Area => v.area > 0
    case Address => |v.address| >= 5
    case City => |v.city| >= 2
    case PropertyType => |v.propertyType| >= 2
  }

  /** `propertyFormSchema`: every checked field passes; `state` and `zipCode` are free. */
  predicate Valid(v: FormValues) {
    |v.title| >= 5 && |v.description| >= 20 && v.price > 0 &&
    IsInteger(v.bedrooms) && v.bedrooms > 0.0 && v.bathrooms > 0.0 && v.area > 0 &&
    |v.address| >= 5 && |v.city| >= 2 && |v.propertyType| >= 2
  }

  const Fields: seq<Field> := [Title, Description, Price, Bedrooms, Bathrooms, Area, Address, City, PropertyType]

  /** The fields of `fs` that fail, in order. */
  function Failing(v: FormValues, fs: seq<Field>): seq<Field> {
    if fs == [] then []
    else (if FieldOk(v, fs[0]) then [] else [fs[0]]) + Failing(v, fs[1..])
  }

  /** The validation errors, in schema order. */
  function Errors(v: FormValues): seq<Field> {
    Failing(v, Fields)
  }

  lemma {:induction false} FailingMembership(v: FormValues, fs: seq<Field>, f: Field)
    ensures f in Failing(v, fs) <==> f in fs && !FieldOk(v, f)
  {
    if fs != [] {
      FailingMembership(v, fs[1..], f);
      assert f in fs <==> f == fs[0] || f in fs[1..];
    }
  }

  /** A field is reported exactly when its rule fails. */
  lemma ErrorsMembership(v: FormValues, f: Field)
    ensures f in Errors(v) <==> !FieldOk(v, f)
  {
    FailingMembership(v, Fields, f);
    assert f in Fields by {
      match f
      case Title => assert Fields[0] == f;
      case Description => assert Fields[1] == f;
      case Price => assert Fields[2] == f;
      case Bedrooms => assert Fields[3] == f;
      case Bathrooms => assert Fields[4] == f;
      case Area => assert Fields[5] == f;
      case Address => assert Fields[6] == f;
      case City => assert Fields[7] == f;
      case PropertyType => assert Fields[8] == f;
    }
  }

  /** A form passes the schema exactly when no field reports an error. */
  lemma ValidIffNoErrors(v: FormValues)
    ensures Valid(v) <==> Errors(v) == []
  {
    if Errors(v) != [] {
      ErrorsMembership(v, Errors(v)[0]);
    }
    if !Valid(v) {
      var f :| f in Fields && !FieldOk(v, f) by {
        if |v.title| < 5 { assert Fields[0] == Title; }
        else if |v.description| < 20 { assert Fields[1] == Description; }
        else if v.price <= 0 { assert Fields[2] == Price; }
        else if !(IsInteger(v.bedrooms) && v.bedrooms > 0.0) { assert Fields[3] == Bedrooms; }
        else if v.bathrooms <= 0.0 { assert Fields[4] == Bathrooms; }
        else if v.area <= 0 { assert Fields[5] == Area; }
        else if |v.address| < 5 { assert Fields[6] == Address; }
        else if |v.city| < 2 { assert Fields[7] == City; }
        else { assert Fields[8] == PropertyType; }
      }
      ErrorsMembership(v, f);
    }
  }

  /**
   * The default text zod gives a failed `.int()` check on a float. The custom
   * bedrooms text belongs to `.positive()` alone.
   */
  const IntegerMessage := "Expected integer, received float"

  /**
   * The message shown under a failing field. zod reports every failed check of
   * a field, and the form keeps only the first: for bedrooms the integer check
   * comes before the positivity check.
   */
  function ShownMessage(v: FormValues, f: Field): (m: string)
    ensures f != Bedrooms ==> m == Message(f)
    ensures f == Bedrooms && !IsInteger(v.bedrooms) ==> m == IntegerMessage
    ensures f == Bedrooms && IsInteger(v.bedrooms) ==> m == Message(Bedrooms)
  {
    if f == Bedrooms && !IsInteger(v.bedrooms) then IntegerMessage else Message(f)
  }

  /** The messages of the failing fields, one per field, in the order of the schema's errors. */
  function ErrorMessages(v: FormValues): (ms: seq<string>)
    ensures |ms| == |Errors(v)|
    ensures forall i :: 0 <= i < |ms| ==> ms[i] == ShownMessage(v, Errors(v)[i])
  {
    seq(|Errors(v)|, i requires 0 <= i < |Errors(v)| => ShownMessage(v, Errors(v)[i]))
  }

  /** Each custom message names one field. */
  lemma MessageInjective(f: Field, g: Field)
    requires Message(f) == Message(g)
    ensures f == g
  {
    assert Message(f)[0] == Message(g)[0] && |Message(f)| == |Message(g)|;
  }

  /** zod's integer text is none of the custom messages. */
  lemma IntegerMessageIsNoCustomMessage(f: Field)
    ensures IntegerMessage != Message(f)
  {
    assert |IntegerMessage| == 32;
    match f
    case Title => assert |Message(f)| == 35;
    case Description => assert |Message(f)| == 42;
    case Price => assert |Message(f)| == 31;
    case Bedrooms => assert |Message(f)| == 34;
    case Bathrooms => assert |Message(f)| == 35;
    case Area => assert |Message(f)| == 30;
    case Address => assert |Message(f)| == 37;
    case City => assert |Message(f)| == 34;
    case PropertyType => assert |Message(f)| == 25;
  }

  /** Under one set of values, different fields show different messages. */
  lemma ShownMessageInjective(v: FormValues, f: Field, g: Field)
    requires ShownMessage(v, f) == ShownMessage(v, g)
    ensures f == g
  {
    IntegerMessageIsNoCustomMessage(f);
    IntegerMessageIsNoCustomMessage(g);
    if ShownMessage(v, f) != IntegerMessage {
      MessageInjective(f, g);
    }
  }

  /**
   * A field's shown message is on screen exactly when the field's rule fails,
   * and its custom message exactly when the rule fails on a check that carries
   * it: for bedrooms, only when the count is a whole number.
   */
  lemma ErrorMessagesMembership(v: FormValues, f: Field)
    ensures ShownMessage(v, f) in ErrorMessages(v) <==> !FieldOk(v, f)
    ensures Message(f) in ErrorMessages(v) <==> !FieldOk(v, f) && (f == Bedrooms ==> IsInteger(v.bedrooms))
  {
    ErrorsMembership(v, f);
    if ShownMessage(v, f) in ErrorMessages(v) {
      var i :| 0 <= i < |ErrorMessages(v)| && ErrorMessages(v)[i] == ShownMessage(v, f);
      ShownMessageInjective(v, Errors(v)[i], f);
    }
    if Message(f) in ErrorMessages(v) {
      var i :| 0 <= i < |ErrorMessages(v)| && ErrorMessages(v)[i] == Message(f);
      var g := Errors(v)[i];
      if g == Bedrooms && !IsInteger(v.bedrooms) {
        IntegerMessageIsNoCustomMessage(f);
        assert false;
      }
      MessageInjective(g, f);
    }
    if !FieldOk(v, f) {
      var i :| 0 <= i < |Errors(v)| && Errors(v)[i] == f;
      assert ErrorMessages(v)[i] == ShownMessage(v, f);
    }
  }

  /** A fractional bedrooms count shows zod's integer text, not the custom one. */
  lemma FractionalBedroomsMessage(v: FormValues)
    requires !IsInteger(v.bedrooms)
    ensures IntegerMessage in ErrorMessages(v)
    ensures Message(Bedrooms) !in ErrorMessages(v)
  {
    ErrorMessagesMembership(v, Bedrooms);
  }

  /** The optional fields never block a submit. */
  lemma OptionalFieldsFree(v: FormValues, state: Option<string>, zipCode: Option<string>)
    ensures Valid(v.(state := state, zipCode := zipCode)) == Valid(v)
  {
  }

  /** The reset for a new property. */
  const NewDefaults := FormValues("", "", 0, 1.0, 1.0, 0, "", "", Some(""), Some(""), "House")

  /** A fresh form only passes once title, description, price, area, address and city are filled in. */
  lemma NewDefaultsErrors(f: Field)
    ensures !Valid(NewDefaults)
    ensures f in Errors(NewDefaults) <==> f in [Title, Description, Price, Area, Address, City]
  {
    ErrorsMembership(NewDefaults, f);
    ValidIffNoErrors(NewDefaults);
  }

  /** The reset for an edited property: missing or zero values fall back as `||` does. */
  function EditDefaults(p: Property): FormValues {
    FormValues(
      p.title, p.description, p.price,
      if p.bedrooms.None? || p.bedrooms.value == 0 then 1.0 else p.bedrooms.value as real,
      if p.bathrooms.None? || p.bathrooms.value == 0.0 then 1.0 else p.bathrooms.value,
      p.area.GetOr(0),
      p.address, p.city,
      Some(p.state.GetOr("")), Some(p.zipCode.GetOr("")),
      p.propertyType)
  }

  /** What the edit reset puts in the form for missing or zero values. */
  lemma EditDefaultsFallbacks(p: Property)
    ensures var v := EditDefaults(p);
      (p.bedrooms.None? || p.bedrooms == Some(0) ==> v.bedrooms == 1.0) &&
      (p.bathrooms.None? || p.bathrooms == Some(0.0) ==> v.bathrooms == 1.0) &&
      (p.area.None? ==> v.area == 0) &&
      (p.state.None? ==> v.state == Some("")) &&
      (p.zipCode.None? ==> v.zipCode == Some(""))
    ensures var v := EditDefaults(p);
      v.bedrooms >= 1.0 || p.bedrooms.value < 0
  {
  }

  /** `defaultValues` of `useForm`, before the reset effect runs. */
  function InitialValues(property: Option<Property>): FormValues {
    match property
    case None => NewDefaults
    case Some(p) =>
      FormValues(
        p.title, p.description, p.price,
        if p.bedrooms.None? || p.bedrooms.value == 0 then 1.0 else p.bedrooms.value as real,
        if p.bathrooms.None? || p.bathrooms.value == 0.0 then 1.0 else p.bathrooms.value,
        p.area.GetOr(0),
        p.address, p.city,
        Some(p.state.GetOr("")), Some(p.zipCode.GetOr("")),
        if p.propertyType == "" then "House" else p.propertyType)
  }

  /** The reset effect agrees with the initial values, except that an empty type is not replaced by "House". */
  lemma ResetAgreesWithInitialValues(property: Option<Property>)
    ensures property.None? ==> InitialValues(property) == NewDefaults
    ensures property.Some? && property.value.propertyType != "" ==>
      InitialValues(property) == EditDefaults(property.value)
    ensures property.Some? && property.value.propertyType == "" ==>
      InitialValues(property) == EditDefaults(property.value).(propertyType := "House")
  {
  }

  const DefaultImage :=
    "https://images.unsplash.com/photo-1600585154340-be6161a56a0c?q=80&w=500&auto=format&fit=crop"

  /** JavaScript truthiness of an optional string. */
  predicate Truthy(o: Option<string>) {
    o.Some? && o.value != ""
  }

  /**
   * `onSubmit`: the form fields go into the record as entered; the rest comes
   * from the edited property through `||`, falling back to the values of a new
   * listing. `freshId` stands for the random id and `now` for `new Date()`.
   */
  function OnSubmit(data: FormValues, property: Option<Property>, freshId: string, now: int): (r: Property)
    requires IsInteger(data.bedrooms)
  {
    Property(
      if property.Some? && property.value.id != "" then property.value.id else freshId,
      data.title, data.description, data.price,
      Some(data.bedrooms.Floor), Some(data.bathrooms), Some(data.area),
      if property.Some? then property.value.images else [DefaultImage],
      data.address, data.city, data.state,
      if property.Some? && property.value.country != "" then property.value.country else "USA",
      data.zipCode, data.propertyType,
      if property.Some? then property.value.status else Pending,
      property.Some? && property.value.featured,
      if property.Some? && Truthy(property.value.agentId) then property.value.agentId else Some("1"),
      if property.Some? && Truthy(property.value.agencyId) then property.value.agencyId else Some("1"),
      if property.Some? then property.value.createdAt else now)
  }

  /** The form's fields are copied into the record unchanged. */
  lemma SubmitCopiesForm(data: FormValues, property: Option<Property>, freshId: string, now: int)
    requires IsInteger(data.bedrooms)
    ensures var r := OnSubmit(data, property, freshId, now);
      r.title == data.title && r.description == data.description && r.price == data.price &&
      r.bedrooms == Some(data.bedrooms.Floor) && r.bedrooms.value as real == data.bedrooms &&
      r.bathrooms == Some(data.bathrooms) && r.area == Some(data.area) &&
      r.address == data.address && r.city == data.city && r.state == data.state &&
      r.zipCode == data.zipCode && r.propertyType == data.propertyType
  {
  }

  /** Editing keeps the edited record's identity, images, status, flags and date. */
  lemma SubmitPreservesEdited(data: FormValues, p: Property, freshId: string, now: int)
    requires IsInteger(data.bedrooms)
    ensures var r := OnSubmit(data, Some(p), freshId, now);
      r.images == p.images && r.status == p.status && r.featured == p.featured &&
      r.createdAt == p.createdAt &&
      (p.id != "" ==> r.id == p.id) &&
      (p.country != "" ==> r.country == p.country) &&
      (Truthy(p.agentId) ==> r.agentId == p.agentId) &&
      (Truthy(p.agencyId) ==> r.agencyId == p.agencyId)
  {
  }

  /** `||` also replaces falsy keys of an edited record: a missing agent becomes agent "1". */
  lemma SubmitReplacesFalsyKeys(data: FormValues, p: Property, freshId: string, now: int)
    requires IsInteger(data.bedrooms)
    ensures var r := OnSubmit(data, Some(p), freshId, now);
      (p.id == "" ==> r.id == freshId) &&
      (p.country == "" ==> r.country == "USA") &&
      (!Truthy(p.agentId) ==> r.agentId == Some("1")) &&
      (!Truthy(p.agencyId) ==> r.agencyId == Some("1"))
  {
  }

  /** A new listing is pending, not featured, in the USA, under agent and agency "1". */
  lemma SubmitNewDefaults(data: FormValues, freshId: string, now: int)
    requires IsInteger(data.bedrooms)
    ensures var r := OnSubmit(data, None, freshId, now);
      r.id == freshId && r.images == [DefaultImage] && r.country == "USA" &&
      r.status == Pending && !r.featured &&
      r.agentId == Some("1") && r.agencyId == Some("1") && r.createdAt == now
  {
  }

  /** A complete record opened for editing and saved without changes comes back unchanged. */
  lemma EditRoundTrip(p: Property, freshId: string, now: int)
    requires p.id != "" && p.country != "" && Truthy(p.agentId) && Truthy(p.agencyId)
    requires p.bedrooms.Some? && p.bedrooms.value != 0
    requires p.bathrooms.Some? && p.bathrooms.value != 0.0
    requires p.area.Some? && p.state.Some? && p.zipCode.Some?
    ensures IsInteger(EditDefaults(p).bedrooms)
    ensures OnSubmit(EditDefaults(p), Some(p), freshId, now) == p
  {
    assert (p.bedrooms.value as real).Floor == p.bedrooms.value;
  }

  /** The dialog's title. */
  function DialogTitle(property: Option<Property>): string {
    if property.Some? then "Edit Property" else "Add New Property"
  }

  /** The toast after `onSave`. */
  function SaveToast(property: Option<Property>): string {
    "Property " + (if property.Some? then "updated" else "added") + " successfully!"
  }

  /** Title and toast agree on the mode: both say "edit" exactly when a property is given. */
  lemma ToastFollowsTitle(property: Option<Property>)
    ensures DialogTitle(property) == "Edit Property" <==> property.Some?
    ensures SaveToast(property) == "Property updated successfully!" <==> property.Some?
  {
    if property.None? {
      assert SaveToast(property)[9] == 'a' != "Property updated successfully!"[9];
    }
  }

  /**
   * The submit button: the schema gates `onSubmit`, which hands the record to
   * `onSave` exactly once and then shows the toast. The result is the records
   * saved and the toasts shown.
   */
  function Submit(data: FormValues, property: Option<Property>, freshId: string, now: int): (out: (seq<Property>, seq<string>))
    ensures |out.0| <= 1 && |out.1| == |out.0|
    ensures |out.0| == 1 <==> Valid(data)
    ensures Valid(data) ==> out.0 == [OnSubmit(data, property, freshId, now)] && out.1 == [SaveToast(property)]
  {
    if Valid(data) then ([OnSubmit(data, property, freshId, now)], [SaveToast(property)]) else ([], [])
  }
}

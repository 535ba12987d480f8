/** Step 1, personal information: five text inputs kept in local state,
    merged into the store's `personalInfo` on "Next". */
module PersonalInfoStep {
  import opened Document
  import opened CvSlice

  /** The five inputs of the step. */
  datatype PersonalFields = PersonalFields(
    firstName: string, lastName: string, email: string, phone: string, address: string)

  /** The `name` attribute of an input, which `handleChange` uses as the key. */
  datatype FieldName = FirstName | LastName | Email | Phone | Address

  function KeyOf(name: FieldName): (k: string)
    ensures k in PersonalKeys
  {
    match name
    case FirstName => "firstName"
    case LastName => "lastName"
    case Email => "email"
    case Phone => "phone"
    case Address => "address"
  }

  /** The keys the step writes. */
  const FormKeys: set<string> := {"firstName", "lastName", "email", "phone", "address"}

  /** The inputs' starting values: each saved value, "" when missing. */
  function InitialFields(saved: PersonalInfo): (f: PersonalFields)
    ensures f.firstName == Lookup(saved, "firstName") && f.lastName == Lookup(saved, "lastName")
    ensures f.email == Lookup(saved, "email") && f.phone == Lookup(saved, "phone")
    ensures f.address == Lookup(saved, "address")
  {
    PersonalFields(Lookup(saved, "firstName"), Lookup(saved, "lastName"), Lookup(saved, "email"),
                   Lookup(saved, "phone"), Lookup(saved, "address"))
  }

  /** The value an input shows. */
  function Get(f: PersonalFields, name: FieldName): string {
    match name
    case FirstName => f.firstName
    case LastName => f.lastName
    case Email => f.email
    case Phone => f.phone
    case Address => f.address
  }

  /** `handleChange`: `{ ...prev, [name]: value }`. */
  function Change(f: PersonalFields, name: FieldName, value: string): (r: PersonalFields)
    ensures Get(r, name) == value
    ensures forall other :: other != name ==> Get(r, other) == Get(f, other)
  {
    match name
    case FirstName => f.(firstName := value)
    case LastName => f.(lastName := value)
    case Email => f.(email := value)
    case Phone => f.(phone := value)
    case Address => f.(address := value)
  }

  /** The object `handleNext` hands to `updatePersonalInfo`. */
  function Payload(f: PersonalFields): (p: PersonalInfo)
    ensures p.Keys == FormKeys
    ensures forall name :: p[KeyOf(name)] == Get(f, name)
  {
    map["firstName" := f.firstName, "lastName" := f.lastName, "email" := f.email,
        "phone" := f.phone, "address" := f.address]
  }

  /** After "Next", the step opened again shows exactly what was entered,
      and the saved keys the step does not own (city, country, links, ...)
      are untouched. */
  lemma NextThenReopen(saved: PersonalInfo, f: PersonalFields)
    ensures InitialFields(saved + Payload(f)) == f
    ensures forall k :: k in saved && k !in FormKeys ==> (saved + Payload(f))[k] == saved[k]
  {
    var p := Payload(f);
    assert p["firstName"] == f.firstName && p["lastName"] == f.lastName;
    assert p["email"] == f.email && p["phone"] == f.phone && p["address"] == f.address;
  }

  /** The step's local state. */
  class PersonalInfoForm {
    var fields: PersonalFields

    /** Opening the step. */
    constructor (saved: PersonalInfo)
      ensures fields == InitialFields(saved)
    {
      fields := InitialFields(saved);
    }

    /** `handleChange` for the input called `name`. */
    method HandleChange(name: FieldName, value: string)
      modifies this
      ensures fields == Change(old(fields), name, value)
    {
      fields := Change(fields, name, value);
    }

    /** `handleNext`: merge the five values and go to step 2. */
    method HandleNext(store: CvStore)
      requires store.Valid()
      modifies store
      ensures store.Valid()
      ensures store.State() == old(store.State()).(personalInfo := old(store.personalInfo) + Payload(fields), currentStep := 2)
    {
      store.UpdatePersonalInfo(Payload(fields));
      store.SetCurrentStep(2);
    }

    /** `handleBack`: step 0, which no view owns. */
    method HandleBack(store: CvStore)
      requires store.Valid()
      modifies store
      ensures store.Valid() && store.State() == old(store.State()).(currentStep := 0)
    {
      store.SetCurrentStep(0);
    }
  }
}

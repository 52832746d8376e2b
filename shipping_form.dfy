/** The shipping step's form: its schema, its default and prefilled values, and the method choices. */
module ShippingForm {
  import opened Wrappers
  import opened CheckoutTypes
  import Pricing
  import Seqs

  /** The fields `shippingSchema` checks; `apartment` is optional and has no check. */
  datatype ShippingField = FirstName | LastName | Email | Phone | Address | City | State | ZipCode | Country {
    function Name(): string {
      match this
      case FirstName => "firstName"
      case LastName => "lastName"
      case Email => "email"
      case Phone => "phone"
      case Address => "address"
      case City => "city"
      case State => "state"
      case ZipCode => "zipCode"
      case Country => "country"
    }

    function Message(): string {
      match this
      case FirstName => "First name is required"
      case LastName => "Last name is required"
      case Email => "Email is invalid"
      case Phone => "Phone number is required"
      case Address => "Address is required"
      case City => "City is required"
      case State => "State is required"
      case ZipCode => "ZIP code is required"
      case Country => "Country is required"
    }
  }

  /** The schema's fields in declaration order. */
  const Fields := [FirstName, LastName, Email, Phone, Address, City, State, ZipCode, Country]

  /** The check on one field: `min(1)` on each, the format test on the email. */
  predicate Passes(v: ShippingInfo, isEmail: string -> bool, f: ShippingField) {
    match f
    case FirstName => v.firstName != ""
    case LastName => v.lastName != ""
    case Email => isEmail(v.email)
    case Phone => v.phone != ""
    case Address => v.address != ""
    case City => v.city != ""
    case State => v.state != ""
    case ZipCode => v.zipCode != ""
    case Country => v.country != ""
  }

  /** The fields `shippingSchema` rejects, in declaration order. */
  function ShippingIssues(v: ShippingInfo, isEmail: string -> bool): (r: seq<ShippingField>)
    ensures r == [] <==> ShippingValid(v, isEmail)
    ensures FirstName in r <==> v.firstName == ""
    ensures LastName in r <==> v.lastName == ""
    ensures Email in r <==> !isEmail(v.email)
    ensures Phone in r <==> v.phone == ""
    ensures Address in r <==> v.address == ""
    ensures City in r <==> v.city == ""
    ensures State in r <==> v.state == ""
    ensures ZipCode in r <==> v.zipCode == ""
    ensures Country in r <==> v.country == ""
  {
    var r := Seqs.Filter(Fields, (f: ShippingField) => !Passes(v, isEmail, f));
    EveryFieldChecked();
    assert forall f :: f in r <==> !Passes(v, isEmail, f);
    r
  }

  /** The schema checks every field. */
  lemma EveryFieldChecked()
    ensures forall f: ShippingField :: f in Fields
  {
    forall f: ShippingField ensures f in Fields {
      match f
      case FirstName => assert Fields[0] == f;
      case LastName => assert Fields[1] == f;
      case Email => assert Fields[2] == f;
      case Phone => assert Fields[3] == f;
      case Address => assert Fields[4] == f;
      case City => assert Fields[5] == f;
      case State => assert Fields[6] == f;
      case ZipCode => assert Fields[7] == f;
      case Country => assert Fields[8] == f;
    }
  }

  /** Every required field is non-empty and the email is well formed; `apartment` is free. */
  predicate ShippingValid(v: ShippingInfo, isEmail: string -> bool) {
    && v.firstName != "" && v.lastName != "" && isEmail(v.email) && v.phone != ""
    && v.address != "" && v.city != "" && v.state != "" && v.zipCode != "" && v.country != ""
  }

  /** Empty strings everywhere, with the country preset to "US". */
  const DefaultShipping := ShippingInfo("", "", "", "", "", Some(""), "", "", "", "US")

  /** The form starts from the stored shipping info when there is one. */
  function FormDefaults(stored: Option<ShippingInfo>): (r: ShippingInfo)
    ensures stored.Some? ==> r == stored.value
    ensures stored.None? ==> r == DefaultShipping
  {
    stored.GetOr(DefaultShipping)
  }

  /** Submitting the untouched defaults reports every required field except the country. */
  lemma DefaultsAreIncomplete(isEmail: string -> bool)
    ensures var r := ShippingIssues(DefaultShipping, isEmail);
      && FirstName in r && LastName in r && Phone in r && Address in r
      && City in r && State in r && ZipCode in r && Country !in r
      && (Email in r <==> !isEmail(""))
  {
  }

  /** The three radio options of the shipping method selector. */
  datatype ShippingChoice = Standard | Express | Overnight {
    /** The value written through `setShippingMethod`. */
    function Value(): string {
      match this
      case Standard => "standard"
      case Express => "express"
      case Overnight => "overnight"
    }

    /** The price printed on the option, in cents. */
    function LabelCents(): int {
      match this
      case Standard => 599
      case Express => 1599
      case Overnight => 2999
    }
  }

  /** Every option writes a distinct method, and the price it shows is the price charged for it. */
  lemma ChoicesMatchCharges(c: ShippingChoice, d: ShippingChoice)
    ensures Pricing.ShippingCost(c.Value()) == c.LabelCents()
    ensures c.Value() == d.Value() <==> c == d
  {
  }
}

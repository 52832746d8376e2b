/** The payment step's form: its schema with the billing refinement, its defaults, and its submit handler. */
module PaymentForm {
  import opened Wrappers
  import opened CheckoutTypes
  import Seqs

  /** Where `paymentSchema` reports; the refinement reports on `billingAddress`. */
  datatype PaymentField = CardNumber | ExpiryDate | Cvc | CardholderName | BillingAddress {
    function Name(): string {
      match this
      case CardNumber => "cardNumber"
      case ExpiryDate => "expiryDate"
      case Cvc => "cvc"
      case CardholderName => "cardholderName"
      case BillingAddress => "billingAddress"
    }

    function Message(): string {
      match this
      case CardNumber => "Card number is invalid"
      case ExpiryDate => "Expiry date is required"
      case Cvc => "CVV is invalid"
      case CardholderName => "Cardholder name is required"
      case BillingAddress => "Billing address is required"
    }
  }

  /** The field checks in declaration order, then the refinement. */
  const Checks := [CardNumber, ExpiryDate, Cvc, CardholderName, BillingAddress]

  /** An optional string with `min(n)`: absent passes, present needs `n` characters. */
  predicate OptionalAtLeast(s: Option<string>, n: nat) {
    s.None? || |s.value| >= n
  }

  /** The refinement: a separate billing address needs all five of its fields non-empty. */
  predicate RefineOk(v: PaymentInfo) {
    !v.sameAsShipping ==>
      Filled(v.billingAddress) && Filled(v.billingCity) && Filled(v.billingState)
      && Filled(v.billingZipCode) && Filled(v.billingCountry)
  }

  predicate Passes(v: PaymentInfo, f: PaymentField) {
    match f
    case CardNumber => OptionalAtLeast(v.cardNumber, 16)
    case ExpiryDate => OptionalAtLeast(v.expiryDate, 5)
    case Cvc => OptionalAtLeast(v.cvc, 3)
    case CardholderName => v.cardholderName != ""
    case BillingAddress => RefineOk(v)
  }

  /** The values `paymentSchema` accepts. */
  predicate PaymentValid(v: PaymentInfo) {
    && (v.cardNumber.Some? ==> |v.cardNumber.value| >= 16)
    && (v.expiryDate.Some? ==> |v.expiryDate.value| >= 5)
    && (v.cvc.Some? ==> |v.cvc.value| >= 3)
    && v.cardholderName != ""
    && (v.sameAsShipping || (Filled(v.billingAddress) && Filled(v.billingCity) && Filled(v.billingState)
                             && Filled(v.billingZipCode) && Filled(v.billingCountry)))
  }

  /**
   * What `paymentSchema` reports, in order. The refinement runs even when a
   * field check has failed, since those failures do not abort the object.
   */
  function PaymentIssues(v: PaymentInfo): (r: seq<PaymentField>)
    ensures r == [] <==> PaymentValid(v)
    ensures CardNumber in r <==> v.cardNumber.Some? && |v.cardNumber.value| < 16
    ensures ExpiryDate in r <==> v.expiryDate.Some? && |v.expiryDate.value| < 5
    ensures Cvc in r <==> v.cvc.Some? && |v.cvc.value| < 3
    ensures CardholderName in r <==> v.cardholderName == ""
    ensures BillingAddress in r <==>
      (!v.sameAsShipping && !(Filled(v.billingAddress) && Filled(v.billingCity) && Filled(v.billingState)
                              && Filled(v.billingZipCode) && Filled(v.billingCountry)))
  {
    var r := Seqs.Filter(Checks, (f: PaymentField) => !Passes(v, f));
    assert r == [] ==> PaymentValid(v) by {
      if r == [] {
        assert forall f :: f in Checks ==> Passes(v, f);
      }
    }
    r
  }

  /** With the shipping address reused, the billing fields may hold anything. */
  lemma SameAsShippingIgnoresBilling(v: PaymentInfo, a: Option<string>, c: Option<string>, s: Option<string>,
                                     z: Option<string>, k: Option<string>)
    requires v.sameAsShipping
    ensures PaymentIssues(v.(billingAddress := a, billingCity := c, billingState := s,
                             billingZipCode := z, billingCountry := k)) == PaymentIssues(v)
  {
    var w := v.(billingAddress := a, billingCity := c, billingState := s, billingZipCode := z, billingCountry := k);
    assert forall f :: Passes(w, f) == Passes(v, f);
    Seqs.FilterCongruent(Checks, (f: PaymentField) => !Passes(w, f), (f: PaymentField) => !Passes(v, f));
  }

  /** The form's initial values: reuse the shipping address, billing country "US". */
  const DefaultPayment := PaymentInfo(None, None, None, "", true, Some(""), Some(""), Some(""), Some(""), Some("US"))

  /** The form starts from the stored payment info when there is one. */
  function FormDefaults(stored: Option<PaymentInfo>): (r: PaymentInfo)
    ensures stored.Some? ==> r == stored.value
    ensures stored.None? ==> r == DefaultPayment
  {
    stored.GetOr(DefaultPayment)
  }

  /** The untouched defaults fail only for the missing cardholder name. */
  lemma DefaultsNeedCardholder()
    ensures PaymentIssues(DefaultPayment) == [CardholderName]
  {
    var r := PaymentIssues(DefaultPayment);
    assert CardholderName in r;
    assert forall f :: f in r ==> f == CardholderName;
    assert Checks == [CardNumber, ExpiryDate, Cvc, CardholderName, BillingAddress];
  }

  /** What pressing submit leads to. */
  datatype SubmitOutcome =
    | Rejected(fields: seq<PaymentField>)
    | CardIncomplete(field: PaymentField, message: string)
    | Submitted(values: PaymentInfo)

  /**
   * The submit handler: the schema first, then the three completeness flags
   * of the gateway's card inputs, in order; only then the values go on.
   */
  function Submit(values: PaymentInfo, cardComplete: bool, expiryComplete: bool, cvcComplete: bool): (o: SubmitOutcome)
    ensures o.Submitted? <==> PaymentValid(values) && cardComplete && expiryComplete && cvcComplete
    ensures o.Submitted? ==> o.values == values
    ensures o.Rejected? <==> !PaymentValid(values)
    ensures o.Rejected? ==> o.fields == PaymentIssues(values) && o.fields != []
    ensures o.CardIncomplete? ==> PaymentValid(values)
    ensures o == CardIncomplete(CardNumber, "Card number is invalid") <==> PaymentValid(values) && !cardComplete
    ensures o == CardIncomplete(ExpiryDate, "Expiration date is invalid") <==>
      PaymentValid(values) && cardComplete && !expiryComplete
    ensures o == CardIncomplete(Cvc, "Cvc number is invalid") <==>
      PaymentValid(values) && cardComplete && expiryComplete && !cvcComplete
  {
    var issues := PaymentIssues(values);
    if issues != [] then Rejected(issues)
    else if !cardComplete then CardIncomplete(CardNumber, "Card number is invalid")
    else if !expiryComplete then CardIncomplete(ExpiryDate, "Expiration date is invalid")
    else if !cvcComplete then CardIncomplete(Cvc, "Cvc number is invalid")
    else Submitted(values)
  }
}

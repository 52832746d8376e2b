/**
 * The payment procedures: the payment-intent request in whole cents, and the
 * order record saved after the gateway confirms the card.
 */
module PaymentRouter {
  import opened Wrappers
  import opened Tables
  import opened CheckoutTypes
  import Pricing
  import ShippingForm
  import PaymentForm

  /** What is sent to the gateway to open a payment intent. */
  datatype IntentRequest = IntentRequest(amount: int, currency: string, automaticPaymentMethods: bool)

  /** `createPaymentIntent`: the price in dollars becomes the nearest whole number of cents, in USD. */
  function CreatePaymentIntent(price: real): (r: IntentRequest)
    ensures r.amount as real - 0.5 <= price * 100.0 < r.amount as real + 0.5
    ensures r.currency == "usd" && r.automaticPaymentMethods
  {
    IntentRequest(Pricing.MathRound(price * 100.0), "usd", true)
  }

  /** A price that is a whole number of cents is charged exactly that many cents. */
  lemma IntentChargesCents(cents: int)
    ensures CreatePaymentIntent(Pricing.Dollars(cents)).amount == cents
  {
    Pricing.CentsRoundTrip(cents);
  }

  /** One input line of `accomplishPayment`; `price` in cents. */
  datatype OrderItem = OrderItem(id: int, name: string, price: int, size: string, color: string, quantity: int)

  /** The input of `accomplishPayment`; `total` in cents. */
  datatype OrderInput = OrderInput(
    items: seq<OrderItem>,
    shippingInfo: ShippingInfo,
    paymentInfo: PaymentInfo,
    shippingMethod: string,
    total: int,
    paymentIntentId: string)

  /** The shipping address snapshot: all ten shipping fields. */
  function ShippingSnapshot(s: ShippingInfo): ShippingAddress {
    ShippingAddress(s.firstName, s.lastName, s.email, s.phone, s.address, s.apartment,
                    s.city, s.state, s.zipCode, s.country)
  }

  /** Reading the snapshot back as form values. */
  function ShippingOfSnapshot(a: ShippingAddress): ShippingInfo {
    ShippingInfo(a.firstName, a.lastName, a.email, a.phone, a.address, a.apartment,
                 a.city, a.state, a.zipCode, a.country)
  }

  /** The snapshot loses nothing of the shipping values. */
  lemma SnapshotRoundTrip(s: ShippingInfo)
    ensures ShippingOfSnapshot(ShippingSnapshot(s)) == s
  {
  }

  /**
   * The billing address snapshot: the shipping address without email and
   * phone when `sameAsShipping`; otherwise the cardholder's name, an empty
   * last name and apartment, and the five billing fields, which the schema's
   * refinement guarantees are filled.
   */
  function BillingFor(ship: ShippingInfo, pay: PaymentInfo): (r: BillingAddress)
    requires PaymentForm.RefineOk(pay)
    ensures pay.sameAsShipping ==>
      && r.firstName == ship.firstName && r.lastName == ship.lastName && r.address == ship.address
      && r.apartment == ship.apartment && r.city == ship.city && r.state == ship.state
      && r.zipCode == ship.zipCode && r.country == ship.country
    ensures !pay.sameAsShipping ==>
      && r.firstName == pay.cardholderName && r.lastName == "" && r.apartment == Some("")
      && Some(r.address) == pay.billingAddress && Some(r.city) == pay.billingCity
      && Some(r.state) == pay.billingState && Some(r.zipCode) == pay.billingZipCode
      && Some(r.country) == pay.billingCountry
      && r.address != "" && r.city != "" && r.state != "" && r.zipCode != "" && r.country != ""
  {
    if pay.sameAsShipping then
      BillingAddress(ship.firstName, ship.lastName, ship.address, ship.apartment,
                     ship.city, ship.state, ship.zipCode, ship.country)
    else
      BillingAddress(pay.cardholderName, "", pay.billingAddress.value, Some(""),
                     pay.billingCity.value, pay.billingState.value, pay.billingZipCode.value,
                     pay.billingCountry.value)
  }

  /** Reusing the shipping address ignores the billing fields; a separate one ignores the shipping values. */
  lemma BillingSources(ship: ShippingInfo, ship2: ShippingInfo, pay: PaymentInfo, pay2: PaymentInfo)
    requires PaymentForm.RefineOk(pay) && PaymentForm.RefineOk(pay2)
    ensures pay.sameAsShipping && pay2.sameAsShipping ==> BillingFor(ship, pay) == BillingFor(ship, pay2)
    ensures !pay.sameAsShipping ==> BillingFor(ship, pay) == BillingFor(ship2, pay)
  {
  }

  /** `items.map(item => ({ productId: item.id, ...the other fields }))`. */
  function LineItems(items: seq<OrderItem>): (r: seq<LineItem>)
    ensures |r| == |items|
    ensures forall i :: 0 <= i < |items| ==> r[i].productId == items[i].id
  {
    seq(|items|, i requires 0 <= i < |items| =>
      LineItem(items[i].id, items[i].name, items[i].price, items[i].size, items[i].color, items[i].quantity))
  }

  /** Reading the stored line items back as input lines. */
  function OrderItems(lines: seq<LineItem>): seq<OrderItem> {
    seq(|lines|, i requires 0 <= i < |lines| =>
      OrderItem(lines[i].productId, lines[i].name, lines[i].price, lines[i].size, lines[i].color, lines[i].quantity))
  }

  /** The stored lines are the input lines, one for one and in order. */
  lemma LineItemsRoundTrip(items: seq<OrderItem>)
    ensures OrderItems(LineItems(items)) == items
  {
  }

  /** The completed order row `accomplishPayment` inserts. */
  function OrderRecord(id: int, userId: int, input: OrderInput): Purchase
    requires PaymentForm.RefineOk(input.paymentInfo)
  {
    Purchase(id, userId, Completed, id, None, None, None, None, None,
             Some(input.total), Some(input.shippingMethod), Some(input.paymentIntentId),
             Some(ShippingSnapshot(input.shippingInfo)),
             Some(BillingFor(input.shippingInfo, input.paymentInfo)),
             LineItems(input.items))
  }

  /**
   * `accomplishPayment`: the shipping and payment values must pass their
   * schemas; then one completed purchase for the session user is inserted,
   * and its id is returned.
   */
  method AccomplishPayment(db: Database, userId: int, input: OrderInput, isEmail: string -> bool)
    returns (result: Result<int>)
    requires db.Valid()
    modifies db
    ensures db.Valid()
    ensures result.Success? <==>
      ShippingForm.ShippingValid(input.shippingInfo, isEmail) && PaymentForm.PaymentValid(input.paymentInfo)
    ensures result.Failure? ==> db.purchases == old(db.purchases) && db.nextId == old(db.nextId)
    ensures result.Success? ==>
      && PaymentForm.RefineOk(input.paymentInfo)
      && result.value == old(db.nextId)
      && db.purchases == old(db.purchases) + [OrderRecord(result.value, userId, input)]
      && db.nextId == old(db.nextId) + 1
    ensures db.products == old(db.products) && db.reviews == old(db.reviews) && db.users == old(db.users)
  {
    if !ShippingForm.ShippingValid(input.shippingInfo, isEmail) {
      return Failure("invalid shipping info");
    }
    if !PaymentForm.PaymentValid(input.paymentInfo) {
      return Failure("invalid payment info");
    }
    assert PaymentForm.RefineOk(input.paymentInfo);
    var purchase := OrderRecord(db.nextId, userId, input);
    assert purchase.id == db.nextId && purchase.createdAt == db.nextId;
    db.purchases := db.purchases + [purchase];
    db.nextId := db.nextId + 1;
    result := Success(purchase.id);
  }

  /** The saved order holds the given total, method, intent and addresses, and is completed. */
  lemma OrderRecordContents(id: int, userId: int, input: OrderInput)
    requires PaymentForm.RefineOk(input.paymentInfo)
    ensures var p := OrderRecord(id, userId, input);
      && p.id == id && p.userId == userId && p.status == Completed
      && p.total == Some(input.total) && p.shippingMethod == Some(input.shippingMethod)
      && p.paymentIntentId == Some(input.paymentIntentId)
      && ShippingOfSnapshot(p.shippingAddress.value) == input.shippingInfo
      && OrderItems(p.items) == input.items
  {
    LineItemsRoundTrip(input.items);
  }
}

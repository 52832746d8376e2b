/** The checkout form values: what the shipping and payment schemas accept and the checkout store keeps. */
module CheckoutTypes {
  import opened Wrappers

  /** Shipping form values; `apartment` is the one optional field. */
  datatype ShippingInfo = ShippingInfo(
    firstName: string,
    lastName: string,
    email: string,
    phone: string,
    address: string,
    apartment: Option<string>,
    city: string,
    state: string,
    zipCode: string,
    country: string)

  /** Payment form values; the card fields are optional because the card is captured by the gateway's own inputs. */
  datatype PaymentInfo = PaymentInfo(
    cardNumber: Option<string>,
    expiryDate: Option<string>,
    cvc: Option<string>,
    cardholderName: string,
    sameAsShipping: bool,
    billingAddress: Option<string>,
    billingCity: Option<string>,
    billingState: Option<string>,
    billingZipCode: Option<string>,
    billingCountry: Option<string>)

  /** JavaScript truthiness of an optional string: present and non-empty. */
  predicate Filled(s: Option<string>) {
    s.Some? && s.value != ""
  }
}

/**
 * Money. Prices are integer cents; the shipping-cost lookup used by the
 * checkout page and the order summary; the dollars-to-cents conversion of the
 * payment router.
 */
module Pricing {

  const StandardCents := 599
  const ExpressCents := 1599
  const OvernightCents := 2999

  /** The shipping cost of a method name: express and overnight by name, anything else standard. */
  function ShippingCost(shippingMethod: string): (c: int)
    ensures c == ExpressCents <==> shippingMethod == "express"
    ensures c == OvernightCents <==> shippingMethod == "overnight"
    ensures c == StandardCents <==> shippingMethod != "express" && shippingMethod != "overnight"
  {
    if shippingMethod == "express" then ExpressCents
    else if shippingMethod == "overnight" then OvernightCents
    else StandardCents
  }

  /** A cent amount as JavaScript dollars. */
  function Dollars(cents: int): real {
    cents as real / 100.0
  }

  /** `Math.round(x)`: the nearest integer, halves rounded up. */
  function MathRound(x: real): (r: int)
    ensures r as real - 0.5 <= x < r as real + 0.5
  {
    (x + 0.5).Floor
  }

  /** Rounding an integer-valued real gives that integer. */
  lemma RoundOfInteger(n: int)
    ensures MathRound(n as real) == n
  {
  }

  /** Converting cents to dollars and back with `Math.round(price * 100)` is lossless. */
  lemma CentsRoundTrip(cents: int)
    ensures MathRound(Dollars(cents) * 100.0) == cents
  {
    assert Dollars(cents) * 100.0 == cents as real;
    RoundOfInteger(cents);
  }
}

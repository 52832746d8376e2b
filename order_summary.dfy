/**
 * The checkout sidebar's totals. As written, its subtotal adds each line's
 * price once, whatever the quantity, while the order is charged price times
 * quantity; the corrected summary uses the cart total.
 */
module OrderSummary {
  import opened CartStore
  import Pricing

  /** The subtotal as written: `reduce((a, c) => a + c.price, 0)`. */
  function SubtotalAsWritten(items: seq<CartItem>): int {
    if items == [] then 0 else items[0].price + SubtotalAsWritten(items[1..])
  }

  /** The displayed total as written: that subtotal plus the shipping cost. */
  function SummaryTotalAsWritten(items: seq<CartItem>, shippingMethod: string): int {
    SubtotalAsWritten(items) + Pricing.ShippingCost(shippingMethod)
  }

  /** The corrected total: the cart total, as charged at checkout, plus the shipping cost. */
  function SummaryTotal(items: seq<CartItem>, shippingMethod: string): (t: int)
    ensures t - Pricing.ShippingCost(shippingMethod) == Total(items)
    ensures shippingMethod == "express" ==> t == Total(items) + 1599
    ensures shippingMethod == "overnight" ==> t == Total(items) + 2999
    ensures shippingMethod != "express" && shippingMethod != "overnight" ==> t == Total(items) + 599
  {
    Total(items) + Pricing.ShippingCost(shippingMethod)
  }

  /** A line of two 10-dollar items shows 10 dollars where 20 are charged. */
  lemma SubtotalIgnoresQuantity()
    ensures var items := [CartItem(1, "Tee", 1000, 1000, [], "M", "Blue", 2)];
      SubtotalAsWritten(items) == 1000 && Total(items) == 2000
      && SummaryTotalAsWritten(items, "standard") != SummaryTotal(items, "standard")
  {
    var items := [CartItem(1, "Tee", 1000, 1000, [], "M", "Blue", 2)];
    assert items[1..] == [];
  }

  /** What the as-written subtotal misses: each line's price once for every unit past the first. */
  lemma {:induction false} SubtotalShortfall(items: seq<CartItem>)
    ensures Total(items) - SubtotalAsWritten(items) == Shortfall(items)
  {
    if items != [] {
      SubtotalShortfall(items[1..]);
      assert items[0].price * items[0].quantity - items[0].price == items[0].price * (items[0].quantity - 1);
    }
  }

  function Shortfall(items: seq<CartItem>): int {
    if items == [] then 0 else items[0].price * (items[0].quantity - 1) + Shortfall(items[1..])
  }

  /**
   * For carts the store builds (quantities at least 1) of priced products,
   * the as-written summary shows the charged total exactly when every line
   * has quantity 1.
   */
  lemma {:induction false} SummaryAgreesIffSingles(items: seq<CartItem>, shippingMethod: string)
    requires forall i :: 0 <= i < |items| ==> items[i].quantity >= 1 && items[i].price > 0
    ensures SummaryTotalAsWritten(items, shippingMethod) == SummaryTotal(items, shippingMethod) <==>
      forall i :: 0 <= i < |items| ==> items[i].quantity == 1
  {
    SubtotalShortfall(items);
    ShortfallZeroIffSingles(items);
  }

  lemma {:induction false} ShortfallZeroIffSingles(items: seq<CartItem>)
    requires forall i :: 0 <= i < |items| ==> items[i].quantity >= 1 && items[i].price > 0
    ensures Shortfall(items) >= 0
    ensures Shortfall(items) == 0 <==> forall i :: 0 <= i < |items| ==> items[i].quantity == 1
  {
    if items != [] {
      ShortfallZeroIffSingles(items[1..]);
      var head := items[0].price * (items[0].quantity - 1);
      assert head >= 0 by {
        assert items[0].price > 0 && items[0].quantity - 1 >= 0;
      }
      assert head == 0 <==> items[0].quantity == 1 by {
        if items[0].quantity > 1 {
          assert items[0].price * (items[0].quantity - 1) >= items[0].price * 1;
        }
      }
      if forall i :: 0 <= i < |items| ==> items[i].quantity == 1 {
        assert forall i :: 0 <= i < |items[1..]| ==> items[1..][i].quantity == 1 by {
          forall i | 0 <= i < |items[1..]| ensures items[1..][i].quantity == 1 {
            assert items[1..][i] == items[i + 1];
          }
        }
      }
      if Shortfall(items) == 0 {
        forall i | 0 <= i < |items| ensures items[i].quantity == 1 {
          if i > 0 {
            assert items[i] == items[1..][i - 1];
          }
        }
      }
    }
  }
}

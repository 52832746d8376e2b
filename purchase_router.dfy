/** Single-product purchases: create as pending, change status, and list a user's purchases. */
module PurchaseRouter {
  import opened Wrappers
  import opened Tables
  import Seqs
  import Sorting
  import Text
  import ProductRouter

  /** The input of `create`; `price` is in cents. */
  datatype PurchaseInput = PurchaseInput(productId: int, quantity: int, size: string, color: string, price: int)

  /** A purchase with its product joined in (`include: { product: true }`); orders placed at checkout have none. */
  datatype PurchaseWithProduct = PurchaseWithProduct(purchase: Purchase, product: Option<Product>)

  /** The purchase row `create` inserts. */
  function PendingPurchase(id: int, userId: int, input: PurchaseInput): Purchase {
    Purchase(id, userId, Pending, id, Some(input.productId), Some(input.quantity), Some(input.size),
             Some(input.color), Some(Text.PriceString(input.price)), None, None, None, None, None, [])
  }

  /** The product row a purchase refers to, if any. */
  function ProductOf(products: seq<Product>, productId: Option<int>): (r: Option<Product>)
    ensures r.Some? ==> productId.Some? && r.value in products && r.value.id == productId.value
    ensures r.None? <==> productId.None? || forall i :: 0 <= i < |products| ==> products[i].id != productId.value
  {
    if productId.None? then None
    else match ProductRouter.FindProduct(products, productId.value)
      case None => None
      case Some(k) => Some(products[k])
  }

  /**
   * `create`: rejects a quantity below 1 and, as the product key does, an
   * unknown product; otherwise inserts a pending purchase for the user with
   * the price written as a decimal string, and returns it with its product.
   */
  method Create(db: Database, userId: int, input: PurchaseInput) returns (result: Result<PurchaseWithProduct>)
    requires db.Valid()
    modifies db
    ensures db.Valid()
    ensures result.Success? <==>
      input.quantity >= 1 && ProductOf(old(db.products), Some(input.productId)).Some?
    ensures result.Failure? ==> db.purchases == old(db.purchases) && db.nextId == old(db.nextId)
    ensures result.Success? ==>
      && result.value.purchase == PendingPurchase(old(db.nextId), userId, input)
      && result.value.product == ProductOf(db.products, Some(input.productId))
      && db.purchases == old(db.purchases) + [result.value.purchase]
      && db.nextId == old(db.nextId) + 1
    ensures db.products == old(db.products) && db.reviews == old(db.reviews) && db.users == old(db.users)
  {
    if input.quantity < 1 {
      return Failure("quantity must be at least 1");
    }
    var product := ProductOf(db.products, Some(input.productId));
    if product.None? {
      return Failure("foreign key constraint failed on productId");
    }
    var purchase := PendingPurchase(db.nextId, userId, input);
    db.purchases := db.purchases + [purchase];
    db.nextId := db.nextId + 1;
    result := Success(PurchaseWithProduct(purchase, product));
  }

  /** A whole-dollar price is stored as the plain number and reads back as it. */
  lemma WholeDollarPriceString(dollars: nat, id: int, userId: int, input: PurchaseInput)
    requires input.price == 100 * dollars
    ensures PendingPurchase(id, userId, input).price == Some(Text.NatToString(dollars))
    ensures Text.JsNumber(PendingPurchase(id, userId, input).price.value) == Text.Finite(dollars)
  {
    Text.WholePriceString(dollars);
  }

  /** The status names the input enum accepts. */
  function StatusName(s: Status): string {
    match s
    case Pending => "pending"
    case Completed => "completed"
    case Cancelled => "cancelled"
  }

  /** `z.enum(["pending", "completed", "cancelled"])`. */
  function ParseStatus(s: string): (r: Option<Status>)
    ensures r.Some? ==> StatusName(r.value) == s
    ensures r.None? <==> s != "pending" && s != "completed" && s != "cancelled"
  {
    if s == "pending" then Some(Pending)
    else if s == "completed" then Some(Completed)
    else if s == "cancelled" then Some(Cancelled)
    else None
  }

  /** Every status parses back from its name. */
  lemma StatusRoundTrip(s: Status)
    ensures ParseStatus(StatusName(s)) == Some(s)
  {
  }

  /** The position of the purchase with the id, if any. */
  function FindPurchase(purchases: seq<Purchase>, id: int): (r: Option<nat>)
    ensures r.Some? ==> r.value < |purchases| && purchases[r.value].id == id
    ensures r.None? <==> forall i :: 0 <= i < |purchases| ==> purchases[i].id != id
  {
    Seqs.FindFirst(purchases, (x: Purchase) => x.id == id)
  }

  /**
   * `updateStatus`: the status must be one of the three names and the
   * purchase must exist; then only its status changes, from whatever it was.
   * Nothing checks that the purchase belongs to the caller.
   */
  method UpdateStatus(db: Database, purchaseId: int, status: string) returns (result: Result<Purchase>)
    requires db.Valid()
    modifies db
    ensures db.Valid()
    ensures result.Success? <==> ParseStatus(status).Some? && FindPurchase(old(db.purchases), purchaseId).Some?
    ensures result.Failure? ==> db.purchases == old(db.purchases)
    ensures result.Success? ==>
      var k := FindPurchase(old(db.purchases), purchaseId).value;
      && result.value == old(db.purchases)[k].(status := ParseStatus(status).value)
      && db.purchases == old(db.purchases)[k := result.value]
    ensures db.products == old(db.products) && db.reviews == old(db.reviews)
    ensures db.users == old(db.users) && db.nextId == old(db.nextId)
  {
    var parsed := ParseStatus(status);
    if parsed.None? {
      return Failure("invalid enum value");
    }
    var found := FindPurchase(db.purchases, purchaseId);
    if found.None? {
      return Failure("record to update not found");
    }
    var k := found.value;
    var updated := db.purchases[k].(status := parsed.value);
    db.purchases := db.purchases[k := updated];
    result := Success(updated);
  }

  function NewestFirst(): (Purchase, Purchase) -> bool {
    (a: Purchase, b: Purchase) => a.createdAt >= b.createdAt
  }

  lemma NewestFirstTotal()
    ensures Sorting.Total(NewestFirst())
  {
  }

  /** The purchase rows of a joined listing. */
  function Rows(r: seq<PurchaseWithProduct>): (rows: seq<Purchase>)
    ensures |rows| == |r| && forall i :: 0 <= i < |r| ==> rows[i] == r[i].purchase
  {
    seq(|r|, i requires 0 <= i < |r| => r[i].purchase)
  }

  /** `getUserPurchases`: exactly the user's purchases, newest first, each with its product. */
  function GetUserPurchases(purchases: seq<Purchase>, products: seq<Product>, userId: int): (r: seq<PurchaseWithProduct>)
    ensures forall x :: x in r ==> x.purchase.userId == userId && x.product == ProductOf(products, x.purchase.productId)
    ensures forall x :: x in Rows(r) <==> x in purchases && x.userId == userId
    ensures multiset(Rows(r)) == multiset(Seqs.Filter(purchases, (x: Purchase) => x.userId == userId))
    ensures forall i :: 0 < i < |r| ==> r[i - 1].purchase.createdAt >= r[i].purchase.createdAt
  {
    NewestFirstTotal();
    var mine := Seqs.Filter(purchases, (x: Purchase) => x.userId == userId);
    var sorted := Sorting.Sort(mine, NewestFirst());
    Sorting.SameElements(sorted, mine);
    var r := seq(|sorted|, i requires 0 <= i < |sorted| => PurchaseWithProduct(sorted[i], ProductOf(products, sorted[i].productId)));
    assert Rows(r) == sorted;
    assert forall x :: x in r ==> x.purchase in sorted && x.product == ProductOf(products, x.purchase.productId) by {
      forall x | x in r ensures x.purchase in sorted && x.product == ProductOf(products, x.purchase.productId) {
        var i :| 0 <= i < |r| && r[i] == x;
        assert x.purchase == sorted[i];
      }
    }
    r
  }
}

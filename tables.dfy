/**
 * The relational database as in-memory tables. Each table is a sequence of
 * rows in insertion order; `nextId` hands out identifiers and doubles as the
 * clock behind `createdAt`, so a later row is always newer.
 */
module Tables {
  import opened Wrappers

  /** A catalogue product; `price` and `originalPrice` in cents, `rating` the mean review rating. */
  datatype Product = Product(
    id: int,
    name: string,
    description: Option<string>,
    price: int,
    originalPrice: int,
    images: seq<string>,
    category: string,
    gender: string,
    sizes: seq<string>,
    colors: seq<string>,
    rating: real,
    reviews: int,
    inStock: bool,
    createdAt: int)

  datatype Review = Review(
    id: int,
    userId: int,
    productId: int,
    rating: int,
    comment: Option<string>,
    createdAt: int)

  /** An account; `password` holds the password hash, `name` the optional display name. */
  datatype User = User(
    id: int,
    username: string,
    email: string,
    password: Option<string>,
    name: Option<string>)

  datatype Status = Pending | Completed | Cancelled

  /** The shipping address snapshot stored on an order. */
  datatype ShippingAddress = ShippingAddress(
    firstName: string,
    lastName: string,
    email: string,
    phone: string,
    address: string,
    apartment: Option<string>,
    city: string,
    state: string,
    zipCode: string,
    country: string)

  /** The billing address snapshot stored on an order. */
  datatype BillingAddress = BillingAddress(
    firstName: string,
    lastName: string,
    address: string,
    apartment: Option<string>,
    city: string,
    state: string,
    zipCode: string,
    country: string)

  /** One ordered line; `price` in cents. */
  datatype LineItem = LineItem(
    productId: int,
    name: string,
    price: int,
    size: string,
    color: string,
    quantity: int)

  /**
   * A purchase row. A single-product purchase fills the product columns
   * (`productId` to `price`, the price as a decimal string); a checkout order
   * fills the order columns (`total` to `items`).
   */
  datatype Purchase = Purchase(
    id: int,
    userId: int,
    status: Status,
    createdAt: int,
    productId: Option<int>,
    quantity: Option<int>,
    size: Option<string>,
    color: Option<string>,
    price: Option<string>,
    total: Option<int>,
    shippingMethod: Option<string>,
    paymentIntentId: Option<string>,
    shippingAddress: Option<ShippingAddress>,
    billingAddress: Option<BillingAddress>,
    items: seq<LineItem>)

  /** The database's unique key on reviews: one review per user and product. */
  predicate UniqueReviewKeys(reviews: seq<Review>) {
    forall i, j :: 0 <= i < j < |reviews| ==>
      !(reviews[i].userId == reviews[j].userId && reviews[i].productId == reviews[j].productId)
  }

  /** No two accounts share an email, and no two share a username. */
  predicate UniqueAccounts(users: seq<User>) {
    forall i, j :: 0 <= i < j < |users| ==>
      users[i].email != users[j].email && users[i].username != users[j].username
  }

  class Database {
    var products: seq<Product>
    var reviews: seq<Review>
    var purchases: seq<Purchase>
    var users: seq<User>
    var nextId: int

    /** Generated identifiers and timestamps lie below `nextId`; the unique keys hold; ratings are 1 to 5. */
    ghost predicate Valid()
      reads this
    {
      && (forall i :: 0 <= i < |reviews| ==>
            reviews[i].id < nextId && reviews[i].createdAt < nextId && 1 <= reviews[i].rating <= 5)
      && (forall i :: 0 <= i < |purchases| ==> purchases[i].id < nextId && purchases[i].createdAt < nextId)
      && (forall i :: 0 <= i < |users| ==> users[i].id < nextId)
      && UniqueReviewKeys(reviews)
      && UniqueAccounts(users)
    }

    /** A database seeded with a product catalogue and no other rows. */
    constructor (catalogue: seq<Product>)
      ensures Valid()
      ensures products == catalogue && reviews == [] && purchases == [] && users == []
    {
      products := catalogue;
      reviews := [];
      purchases := [];
      users := [];
      nextId := 0;
    }
  }
}

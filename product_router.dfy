/**
 * The product queries: the filtered, ordered listing that the shop page
 * shows, the full listing, the distinct categories, genders and sizes, and
 * one product with its reviews.
 */
module ProductRouter {
  import opened Wrappers
  import opened Tables
  import Seqs
  import Sorting
  import Text
  import ReviewRouter

  /** The input of `getFiltered`; every field may be absent. */
  datatype FilterInput = FilterInput(
    searchQuery: Option<string>,
    categories: Option<seq<string>>,
    genders: Option<seq<string>>,
    sizes: Option<seq<string>>,
    priceRange: Option<string>,
    sortBy: Option<string>)

  /** `{ gte: min, lte?: max }` on the price, in dollars. */
  datatype PriceBound = PriceBound(gte: Text.Number, lte: Option<int>)

  /** The `where` object: a clause is present only when its filter is active. */
  datatype Where = Where(
    name: Option<string>,
    category: Option<seq<string>>,
    gender: Option<seq<string>>,
    sizes: Option<seq<string>>,
    price: Option<PriceBound>)

  /** The `orderBy` object. */
  datatype SortKey = CreatedDesc | PriceAsc | PriceDesc | RatingDesc | NameAsc

  /**
   * `priceRange.split("-").map(Number)`, destructured into `[min, max]`: the
   * lower bound is always set, the upper bound only when `max` is truthy (a
   * missing second piece, `0` and `NaN` all leave it out).
   */
  function ParsePriceRange(range: string): PriceBound {
    var pieces := Text.Split(range, '-');
    var max := if |pieces| > 1 then Text.JsNumber(pieces[1]) else Text.NaN;
    PriceBound(Text.JsNumber(pieces[0]), if max.Truthy() then Some(max.n) else None)
  }

  /** The database's comparison of a price in cents against bounds in dollars; a `NaN` bound matches nothing. */
  predicate WithinBound(bound: PriceBound, cents: int) {
    && bound.gte.Finite?
    && 100 * bound.gte.n <= cents
    && (bound.lte.Some? ==> cents <= 100 * bound.lte.value)
  }

  /** What the database returns for a `where` object. */
  predicate Satisfies(w: Where, p: Product) {
    && (w.name.Some? ==> Text.ContainsInsensitive(p.name, w.name.value))
    && (w.category.Some? ==> p.category in w.category.value)
    && (w.gender.Some? ==> p.gender in w.gender.value)
    && (w.sizes.Some? ==> exists s :: s in w.sizes.value && s in p.sizes)
    && (w.price.Some? ==> WithinBound(w.price.value, p.price))
  }

  /** The price bracket a product must fall in for a non-empty `priceRange`. */
  predicate InBracket(cents: int, range: string) {
    WithinBound(ParsePriceRange(range), cents)
  }

  /**
   * The selection the shop promises, stated on the input: every active clause
   * holds, and an absent or empty filter imposes nothing. It does not read
   * `sortBy`, so the sort order never changes which products are selected.
   */
  predicate Selects(input: FilterInput, p: Product) {
    var query := input.searchQuery.GetOr("");
    var categories := input.categories.GetOr([]);
    var genders := input.genders.GetOr([]);
    var sizes := input.sizes.GetOr([]);
    var range := input.priceRange.GetOr("");
    && (query == "" || Text.ContainsInsensitive(p.name, query))
    && (categories == [] || p.category in categories)
    && (genders == [] || p.gender in genders)
    && (sizes == [] || exists s :: s in sizes && s in p.sizes)
    && (range == "" || InBracket(p.price, range))
  }

  function Selection(input: FilterInput): Product -> bool {
    (p: Product) => Selects(input, p)
  }

  function Matches(w: Where): Product -> bool {
    (p: Product) => Satisfies(w, p)
  }

  /** Lexicographic order on names by character code. */
  predicate NameLeq(a: string, b: string) {
    if a == [] then true
    else if b == [] then false
    else if a[0] != b[0] then a[0] < b[0]
    else NameLeq(a[1..], b[1..])
  }

  lemma {:induction false} NameLeqTotal(a: string, b: string)
    ensures NameLeq(a, b) || NameLeq(b, a)
  {
    if a != [] && b != [] && a[0] == b[0] {
      NameLeqTotal(a[1..], b[1..]);
    }
  }

  /** May `a` come before `b` under the key? Ties may come in either order. */
  predicate Before(key: SortKey, a: Product, b: Product) {
    match key
    case CreatedDesc => a.createdAt >= b.createdAt
    case PriceAsc => a.price <= b.price
    case PriceDesc => a.price >= b.price
    case RatingDesc => a.rating >= b.rating
    case NameAsc => NameLeq(a.name, b.name)
  }

  function Order(key: SortKey): (Product, Product) -> bool {
    (a: Product, b: Product) => Before(key, a, b)
  }

  lemma OrderTotal(key: SortKey)
    ensures Sorting.Total(Order(key))
  {
    forall a: Product, b: Product ensures Order(key)(a, b) || Order(key)(b, a) {
      NameLeqTotal(a.name, b.name);
    }
  }

  /** The sort keys `getFiltered` recognises; every other value, `""` included, is newest first. */
  function SortKeyFor(sortBy: string): SortKey {
    if sortBy == "price-low" then PriceAsc
    else if sortBy == "price-high" then PriceDesc
    else if sortBy == "rating" then RatingDesc
    else if sortBy == "name" then NameAsc
    else CreatedDesc
  }

  /** `product.findMany({ where, orderBy })`: the matching rows, in some order by the key. */
  function FindMany(products: seq<Product>, w: Where, key: SortKey): (r: seq<Product>)
    ensures multiset(r) == multiset(Seqs.Filter(products, Matches(w)))
    ensures Sorting.SortedBy(r, Order(key))
  {
    OrderTotal(key);
    Sorting.Sort(Seqs.Filter(products, Matches(w)), Order(key))
  }

  /**
   * `getFiltered`: fills in the defaults, adds one `where` clause per active
   * filter, picks `orderBy`, and queries. The result holds exactly the
   * selected products, each as often as in the table, ordered by the key.
   */
  method GetFiltered(products: seq<Product>, input: FilterInput) returns (r: seq<Product>)
    ensures forall p :: p in r <==> p in products && Selects(input, p)
    ensures multiset(r) == multiset(Seqs.Filter(products, Selection(input)))
    ensures Sorting.SortedBy(r, Order(SortKeyFor(input.sortBy.GetOr(""))))
  {
    var searchQuery := input.searchQuery.GetOr("");
    var categories := input.categories.GetOr([]);
    var genders := input.genders.GetOr([]);
    var sizes := input.sizes.GetOr([]);
    var priceRange := input.priceRange.GetOr("");
    var sortBy := input.sortBy.GetOr("");

    var where := Where(None, None, None, None, None);
    if searchQuery != "" {
      where := where.(name := Some(searchQuery));
    }
    if |categories| > 0 {
      where := where.(category := Some(categories));
    }
    if |genders| > 0 {
      where := where.(gender := Some(genders));
    }
    if |sizes| > 0 {
      where := where.(sizes := Some(sizes));
    }
    if priceRange != "" {
      where := where.(price := Some(ParsePriceRange(priceRange)));
    }

    var orderBy := CreatedDesc;
    if sortBy == "price-low" {
      orderBy := PriceAsc;
    } else if sortBy == "price-high" {
      orderBy := PriceDesc;
    } else if sortBy == "rating" {
      orderBy := RatingDesc;
    } else if sortBy == "name" {
      orderBy := NameAsc;
    }

    WhereAgrees(input, where, products);
    r := FindMany(products, where, orderBy);
    Sorting.SameElements(r, Seqs.Filter(products, Selection(input)));
  }

  /** The `where` object built from the input selects what `Selects` describes. */
  lemma WhereAgrees(input: FilterInput, w: Where, products: seq<Product>)
    requires w.name == (var q := input.searchQuery.GetOr(""); if q != "" then Some(q) else None)
    requires w.category == (var c := input.categories.GetOr([]); if |c| > 0 then Some(c) else None)
    requires w.gender == (var g := input.genders.GetOr([]); if |g| > 0 then Some(g) else None)
    requires w.sizes == (var z := input.sizes.GetOr([]); if |z| > 0 then Some(z) else None)
    requires w.price == (var pr := input.priceRange.GetOr(""); if pr != "" then Some(ParsePriceRange(pr)) else None)
    ensures Seqs.Filter(products, Matches(w)) == Seqs.Filter(products, Selection(input))
  {
    forall i | 0 <= i < |products| ensures Matches(w)(products[i]) == Selection(input)(products[i]) {
      assert Satisfies(w, products[i]) == Selects(input, products[i]);
    }
    Seqs.FilterCongruent(products, Matches(w), Selection(input));
  }

  /** Bracket `"a-b"` with `b` non-zero means `a <= price <= b` in dollars; with `b` zero it has no upper bound. */
  lemma BracketBetween(cents: int, a: nat, b: nat)
    ensures InBracket(cents, Text.NatToString(a) + "-" + Text.NatToString(b)) <==>
      100 * a <= cents && (b != 0 ==> cents <= 100 * b)
  {
    var sa := Text.NatToString(a);
    var sb := Text.NatToString(b);
    Text.DigitsHaveNoDash(sa);
    Text.DigitsHaveNoDash(sb);
    Text.SplitAtFirstSeparator(sa, '-', sb);
    Text.SplitWithoutSeparator(sb, '-');
    assert sa + "-" + sb == sa + ['-'] + sb;
    Text.NatToStringRoundTrip(a);
    Text.NatToStringRoundTrip(b);
  }

  /** Bare bracket `"a"` means `price >= a` in dollars, with no upper bound. */
  lemma BracketAtLeast(cents: int, a: nat)
    ensures InBracket(cents, Text.NatToString(a)) <==> 100 * a <= cents
  {
    Text.DigitsHaveNoDash(Text.NatToString(a));
    Text.SplitWithoutSeparator(Text.NatToString(a), '-');
    Text.NatToStringRoundTrip(a);
  }

  /** The shop's brackets: both ends of `"50-100"` are in, and `"200"` has no ceiling. */
  lemma ShopBrackets()
    ensures InBracket(5000, "50-100") && InBracket(10000, "50-100")
    ensures !InBracket(4999, "50-100") && !InBracket(10001, "50-100")
    ensures InBracket(20000, "200") && InBracket(100000, "200") && !InBracket(19999, "200")
  {
    assert Text.NatToString(50) + "-" + Text.NatToString(100) == "50-100";
    assert Text.NatToString(200) == "200";
    BracketBetween(5000, 50, 100);
    BracketBetween(10000, 50, 100);
    BracketBetween(4999, 50, 100);
    BracketBetween(10001, 50, 100);
    BracketAtLeast(20000, 200);
    BracketAtLeast(100000, 200);
    BracketAtLeast(19999, 200);
  }

  /** `getAll`: every product, each as often as in the table, newest first. */
  function GetAll(products: seq<Product>): (r: seq<Product>)
    ensures multiset(r) == multiset(products)
    ensures Sorting.SortedBy(r, Order(CreatedDesc))
  {
    OrderTotal(CreatedDesc);
    Sorting.Sort(products, Order(CreatedDesc))
  }

  /** `[...new Set(products.map(p => p.category))]`. */
  function GetCategories(products: seq<Product>): (r: seq<string>)
    ensures forall c :: c in r <==> exists i :: 0 <= i < |products| && products[i].category == c
    ensures Seqs.NoDuplicates(r)
  {
    var all := seq(|products|, i requires 0 <= i < |products| => products[i].category);
    assert forall c :: c in all <==> exists i :: 0 <= i < |products| && products[i].category == c by {
      forall c ensures c in all <==> exists i :: 0 <= i < |products| && products[i].category == c {
        if c in all {
          var k :| 0 <= k < |all| && all[k] == c;
          assert products[k].category == c;
        }
        if exists i :: 0 <= i < |products| && products[i].category == c {
          var k :| 0 <= k < |products| && products[k].category == c;
          assert all[k] == c;
        }
      }
    }
    Seqs.Dedup(all)
  }

  /** `[...new Set(products.map(p => p.gender))]`. */
  function GetGenders(products: seq<Product>): (r: seq<string>)
    ensures forall g :: g in r <==> exists i :: 0 <= i < |products| && products[i].gender == g
    ensures Seqs.NoDuplicates(r)
  {
    var all := seq(|products|, i requires 0 <= i < |products| => products[i].gender);
    assert forall g :: g in all <==> exists i :: 0 <= i < |products| && products[i].gender == g by {
      forall g ensures g in all <==> exists i :: 0 <= i < |products| && products[i].gender == g {
        if g in all {
          var k :| 0 <= k < |all| && all[k] == g;
          assert products[k].gender == g;
        }
        if exists i :: 0 <= i < |products| && products[i].gender == g {
          var k :| 0 <= k < |products| && products[k].gender == g;
          assert all[k] == g;
        }
      }
    }
    Seqs.Dedup(all)
  }

  /** `[...new Set(products.flatMap(p => p.sizes))]`: the union of all size lists, once each. */
  function GetSizes(products: seq<Product>): (r: seq<string>)
    ensures forall s :: s in r <==> exists i :: 0 <= i < |products| && s in products[i].sizes
    ensures Seqs.NoDuplicates(r)
  {
    var lists := seq(|products|, i requires 0 <= i < |products| => products[i].sizes);
    assert forall i :: 0 <= i < |products| ==> lists[i] == products[i].sizes;
    Seqs.Dedup(Seqs.Flatten(lists))
  }

  /** A product with its reviews, as `getById` returns it. */
  datatype ProductDetail = ProductDetail(product: Product, productReviews: seq<Review>)

  /** `findUnique({ where: { id } })`: the row with the id, if any. */
  function FindProduct(products: seq<Product>, id: int): (r: Option<nat>)
    ensures r.Some? ==> r.value < |products| && products[r.value].id == id
    ensures r.None? <==> forall i :: 0 <= i < |products| ==> products[i].id != id
  {
    Seqs.FindFirst(products, (p: Product) => p.id == id)
  }

  /** `getById`: `null` when no product has the id; otherwise that product and exactly its reviews, newest first. */
  function GetById(products: seq<Product>, reviews: seq<Review>, id: int): (r: Option<ProductDetail>)
    ensures r.None? <==> forall i :: 0 <= i < |products| ==> products[i].id != id
    ensures r.Some? ==>
      && r.value.product in products
      && r.value.product.id == id
      && (forall x :: x in r.value.productReviews <==> x in reviews && x.productId == id)
      && Sorting.SortedBy(r.value.productReviews, ReviewRouter.NewestFirst())
  {
    match FindProduct(products, id)
    case None => None
    case Some(k) => Some(ProductDetail(products[k], ReviewRouter.ProductReviews(reviews, id)))
  }
}

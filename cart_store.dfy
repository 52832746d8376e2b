/**
 * The client-side shopping cart: lines identified by (product id, size, color),
 * kept in the browser's local storage under one fixed key and rehydrated when
 * the store is created.
 */
module CartStore {
  import opened Wrappers
  import opened Tables
  import Seqs

  /** One cart line; prices in cents. The store itself puts no bound on `quantity`. */
  datatype CartItem = CartItem(
    id: int,
    name: string,
    originalPrice: int,
    price: int,
    images: seq<string>,
    size: string,
    color: string,
    quantity: int)

  /** The fixed local-storage key of the cart. */
  const StorageKey := "cart-items"

  /** `item` is the line with identity (id, size, color). */
  predicate IsLine(item: CartItem, id: int, size: string, color: string) {
    item.id == id && item.size == size && item.color == color
  }

  /** No two lines share an identity. */
  predicate UniqueLines(items: seq<CartItem>) {
    forall i, j :: 0 <= i < j < |items| ==> !IsLine(items[j], items[i].id, items[i].size, items[i].color)
  }

  /** The stored cart when there is a browser, a non-empty stored string and it parses; otherwise empty. */
  function InitialItems(inBrowser: bool, stored: Option<string>, decode: string -> Option<seq<CartItem>>): (r: seq<CartItem>)
    ensures r != [] ==> inBrowser && stored.Some? && stored.value != "" && decode(stored.value) == Some(r)
    ensures inBrowser && stored.Some? && stored.value != "" && decode(stored.value).Some? ==> r == decode(stored.value).value
    ensures !inBrowser || stored.None? ==> r == []
  {
    if inBrowser && stored.Some? && stored.value != "" then
      match decode(stored.value)
      case Some(parsed) => parsed
      case None => []
    else []
  }

  /** `items.find(...)`: the index of the first line with the identity, if any. */
  function FindLine(items: seq<CartItem>, id: int, size: string, color: string): (r: Option<nat>)
    ensures r.Some? ==> r.value < |items| && IsLine(items[r.value], id, size, color)
    ensures r.Some? ==> forall k :: 0 <= k < r.value ==> !IsLine(items[k], id, size, color)
    ensures r.None? <==> forall k :: 0 <= k < |items| ==> !IsLine(items[k], id, size, color)
  {
    if items == [] then None
    else if IsLine(items[0], id, size, color) then Some(0)
    else match FindLine(items[1..], id, size, color)
      case Some(k) => Some(k + 1)
      case None => None
  }

  /** The line a first add creates: identity, name, prices and images from the product, quantity 1. */
  function NewLine(product: Product, size: string, color: string): CartItem {
    CartItem(product.id, product.name, product.originalPrice, product.price, product.images, size, color, 1)
  }

  /** `items.map(...)` raising the quantity of every line with the identity by one. */
  function IncrementLines(items: seq<CartItem>, id: int, size: string, color: string): (r: seq<CartItem>)
    ensures |r| == |items|
    ensures forall i :: 0 <= i < |items| ==>
      r[i] == if IsLine(items[i], id, size, color) then items[i].(quantity := items[i].quantity + 1) else items[i]
  {
    if items == [] then []
    else
      [if IsLine(items[0], id, size, color) then items[0].(quantity := items[0].quantity + 1) else items[0]]
      + IncrementLines(items[1..], id, size, color)
  }

  /** `addItem`: increment the existing line, or append a new one. */
  function AddLine(items: seq<CartItem>, product: Product, size: string, color: string): seq<CartItem> {
    if FindLine(items, product.id, size, color).Some? then IncrementLines(items, product.id, size, color)
    else items + [NewLine(product, size, color)]
  }

  /** `removeItem`: drop every line with the identity. */
  function RemoveLines(items: seq<CartItem>, id: int, size: string, color: string): seq<CartItem> {
    Seqs.Filter(items, (item: CartItem) => !IsLine(item, id, size, color))
  }

  /** `items.map(...)` setting the quantity of every line with the identity. */
  function SetQuantity(items: seq<CartItem>, id: int, size: string, color: string, quantity: int): (r: seq<CartItem>)
    ensures |r| == |items|
    ensures forall i :: 0 <= i < |items| ==>
      r[i] == if IsLine(items[i], id, size, color) then items[i].(quantity := quantity) else items[i]
  {
    if items == [] then []
    else
      [if IsLine(items[0], id, size, color) then items[0].(quantity := quantity) else items[0]]
      + SetQuantity(items[1..], id, size, color, quantity)
  }

  /** `updateQuantity`: quantity 0 removes the line, any other value is set as it is. */
  function UpdateLines(items: seq<CartItem>, id: int, size: string, color: string, quantity: int): seq<CartItem> {
    if quantity == 0 then RemoveLines(items, id, size, color)
    else SetQuantity(items, id, size, color, quantity)
  }

  /** `getTotal`: the sum of price times quantity, in cents. */
  function Total(items: seq<CartItem>): int {
    if items == [] then 0 else items[0].price * items[0].quantity + Total(items[1..])
  }

  /** `getItemsCount`: the sum of quantities. */
  function Count(items: seq<CartItem>): int {
    if items == [] then 0 else items[0].quantity + Count(items[1..])
  }

  lemma {:induction false} TotalAppend(a: seq<CartItem>, b: seq<CartItem>)
    ensures Total(a + b) == Total(a) + Total(b)
    ensures Count(a + b) == Count(a) + Count(b)
  {
    if a == [] {
      assert a + b == b;
    } else {
      assert (a + b)[1..] == a[1..] + b;
      TotalAppend(a[1..], b);
    }
  }

  /** Adding an existing identity raises that line's quantity by one and leaves every other line and the length alone. */
  lemma AddExistingLine(items: seq<CartItem>, product: Product, size: string, color: string, k: nat)
    requires UniqueLines(items)
    requires k < |items| && IsLine(items[k], product.id, size, color)
    ensures var r := AddLine(items, product, size, color);
      && |r| == |items|
      && r[k] == items[k].(quantity := items[k].quantity + 1)
      && forall j :: 0 <= j < |items| && j != k ==> r[j] == items[j]
  {
    var r := AddLine(items, product, size, color);
    forall j | 0 <= j < |items| && j != k ensures r[j] == items[j] {
      if j < k {
        assert !IsLine(items[k], items[j].id, items[j].size, items[j].color);
      } else {
        assert !IsLine(items[j], items[k].id, items[k].size, items[k].color);
      }
    }
  }

  /** Adding a new identity appends exactly one line, copied from the product, with quantity 1. */
  lemma AddNewLine(items: seq<CartItem>, product: Product, size: string, color: string)
    requires forall k :: 0 <= k < |items| ==> !IsLine(items[k], product.id, size, color)
    ensures var r := AddLine(items, product, size, color);
      && |r| == |items| + 1
      && r[..|items|] == items
      && r[|items|] == CartItem(product.id, product.name, product.originalPrice, product.price,
                                product.images, size, color, 1)
  {
  }

  /** Adding never creates a second line with the same identity. */
  lemma AddKeepsLinesUnique(items: seq<CartItem>, product: Product, size: string, color: string)
    requires UniqueLines(items)
    ensures UniqueLines(AddLine(items, product, size, color))
  {
    var r := AddLine(items, product, size, color);
    if FindLine(items, product.id, size, color).None? {
      forall i, j | 0 <= i < j < |r| ensures !IsLine(r[j], r[i].id, r[i].size, r[i].color) {
        if j == |items| {
          assert r[i] == items[i];
        } else {
          assert r[i] == items[i] && r[j] == items[j];
        }
      }
    } else {
      forall i, j | 0 <= i < j < |r| ensures !IsLine(r[j], r[i].id, r[i].size, r[i].color) {
        assert r[i].id == items[i].id && r[i].size == items[i].size && r[i].color == items[i].color;
        assert r[j].id == items[j].id && r[j].size == items[j].size && r[j].color == items[j].color;
      }
    }
  }

  /** In a cart without duplicate identities at most one line matches, so adding raises the item count by exactly one. */
  lemma {:induction false} AddCountsOne(items: seq<CartItem>, product: Product, size: string, color: string)
    requires UniqueLines(items)
    ensures Count(AddLine(items, product, size, color)) == Count(items) + 1
    ensures Total(AddLine(items, product, size, color)) == Total(items) +
      match FindLine(items, product.id, size, color)
      case Some(k) => items[k].price
      case None => product.price
  {
    match FindLine(items, product.id, size, color)
    case None =>
      TotalAppend(items, [NewLine(product, size, color)]);
    case Some(k) =>
      IncrementSums(items, product.id, size, color, k);
  }

  /** Incrementing the single matching line at `k` adds one to the count and its price to the total. */
  lemma {:induction false} IncrementSums(items: seq<CartItem>, id: int, size: string, color: string, k: nat)
    requires UniqueLines(items)
    requires k < |items| && IsLine(items[k], id, size, color)
    ensures Count(IncrementLines(items, id, size, color)) == Count(items) + 1
    ensures Total(IncrementLines(items, id, size, color)) == Total(items) + items[k].price
    decreases |items|
  {
    var r := IncrementLines(items, id, size, color);
    assert r[1..] == IncrementLines(items[1..], id, size, color);
    var tail := items[1..];
    assert UniqueLines(tail) by {
      forall i, j | 0 <= i < j < |tail| ensures !IsLine(tail[j], tail[i].id, tail[i].size, tail[i].color) {
        assert tail[i] == items[i + 1] && tail[j] == items[j + 1];
      }
    }
    if k == 0 {
      assert IncrementLines(tail, id, size, color) == tail by {
        forall i | 0 <= i < |tail| ensures !IsLine(tail[i], id, size, color) {
          assert tail[i] == items[i + 1];
        }
      }
      assert r[0].price * r[0].quantity == items[0].price * items[0].quantity + items[0].price;
    } else {
      assert !IsLine(items[0], id, size, color) by {
        assert !IsLine(items[k], items[0].id, items[0].size, items[0].color);
      }
      assert tail[k - 1] == items[k];
      IncrementSums(tail, id, size, color, k - 1);
    }
  }

  /** The sums split along any filter: kept lines plus dropped lines. */
  lemma {:induction false} SumsSplit(items: seq<CartItem>, keep: CartItem -> bool)
    ensures Total(items) == Total(Seqs.Filter(items, keep)) + Total(Seqs.Filter(items, (x: CartItem) => !keep(x)))
    ensures Count(items) == Count(Seqs.Filter(items, keep)) + Count(Seqs.Filter(items, (x: CartItem) => !keep(x)))
  {
    if items != [] {
      var drop := (x: CartItem) => !keep(x);
      SumsSplit(items[1..], keep);
      var head := [items[0]];
      TotalAppend(if keep(items[0]) then head else [], Seqs.Filter(items[1..], keep));
      TotalAppend(if drop(items[0]) then head else [], Seqs.Filter(items[1..], drop));
    }
  }

  /** Removing keeps the other lines in order, and the sums drop by exactly the removed lines. */
  lemma RemoveLinesSpec(items: seq<CartItem>, id: int, size: string, color: string)
    ensures var r := RemoveLines(items, id, size, color);
      && (forall x :: x in r <==> x in items && !IsLine(x, id, size, color))
      && Count(items) == Count(r) + Count(Seqs.Filter(items, (x: CartItem) => IsLine(x, id, size, color)))
      && Total(items) == Total(r) + Total(Seqs.Filter(items, (x: CartItem) => IsLine(x, id, size, color)))
  {
    var matching := (x: CartItem) => IsLine(x, id, size, color);
    SumsSplit(items, matching);
    Seqs.FilterCongruent(items, (x: CartItem) => !matching(x), (item: CartItem) => !IsLine(item, id, size, color));
  }

  /** Removing an identity that has no line leaves the cart as it is. */
  lemma RemoveAbsentIsNoOp(items: seq<CartItem>, id: int, size: string, color: string)
    requires forall k :: 0 <= k < |items| ==> !IsLine(items[k], id, size, color)
    ensures RemoveLines(items, id, size, color) == items
  {
    Seqs.FilterKeepsAll(items, (item: CartItem) => !IsLine(item, id, size, color));
  }

  /** Removing and updating keep identities unique. */
  lemma UpdateKeepsLinesUnique(items: seq<CartItem>, id: int, size: string, color: string, quantity: int)
    requires UniqueLines(items)
    ensures UniqueLines(RemoveLines(items, id, size, color))
    ensures UniqueLines(UpdateLines(items, id, size, color, quantity))
  {
    var distinctIdentity := (a: CartItem, b: CartItem) => !IsLine(b, a.id, a.size, a.color);
    assert Seqs.Pairwise(items, distinctIdentity);
    Seqs.FilterPairwise(items, (item: CartItem) => !IsLine(item, id, size, color), distinctIdentity);
    var r := RemoveLines(items, id, size, color);
    assert forall i, j :: 0 <= i < j < |r| ==> distinctIdentity(r[i], r[j]);
    var s := SetQuantity(items, id, size, color, quantity);
    forall i, j | 0 <= i < j < |s| ensures !IsLine(s[j], s[i].id, s[i].size, s[i].color) {
      assert s[i].id == items[i].id && s[i].size == items[i].size && s[i].color == items[i].color;
      assert s[j].id == items[j].id && s[j].size == items[j].size && s[j].color == items[j].color;
    }
  }

  /** Adding a product twice gives one line of quantity 2; setting its quantity to 0 empties the cart again. */
  lemma AddTwiceThenZero(product: Product, size: string, color: string)
    ensures AddLine([], product, size, color) == [NewLine(product, size, color)]
    ensures Total(AddLine([], product, size, color)) == product.price
    ensures AddLine(AddLine([], product, size, color), product, size, color) ==
      [NewLine(product, size, color).(quantity := 2)]
    ensures Total(AddLine(AddLine([], product, size, color), product, size, color)) == 2 * product.price
    ensures UpdateLines(AddLine(AddLine([], product, size, color), product, size, color), product.id, size, color, 0) == []
  {
    var one := AddLine([], product, size, color);
    var two := AddLine(one, product, size, color);
    assert FindLine(one, product.id, size, color) == Some(0);
    assert two == [NewLine(product, size, color).(quantity := 2)];
    assert Total(two) == product.price * 2 + Total([]);
  }

  /**
   * The cart store. `items` is replaced by every operation; `storage` stands
   * for the local-storage slot, written after every change when a browser is
   * present; `encode` stands for `JSON.stringify`.
   */
  class Cart {
    var items: seq<CartItem>
    const inBrowser: bool
    const encode: seq<CartItem> -> string
    ghost var storage: Option<string>

    /** The store starts from the stored cart, decoded by `decode` (`JSON.parse`, `None` when it throws). */
    constructor (inBrowser: bool, stored: Option<string>,
                 encode: seq<CartItem> -> string, decode: string -> Option<seq<CartItem>>)
      ensures this.inBrowser == inBrowser && this.encode == encode
      ensures items == InitialItems(inBrowser, stored, decode)
      ensures storage == stored
    {
      this.inBrowser := inBrowser;
      this.encode := encode;
      items := InitialItems(inBrowser, stored, decode);
      storage := stored;
    }

    /** What the storage slot holds after writing `newItems`. */
    ghost function Saved(newItems: seq<CartItem>, before: Option<string>): Option<string>
      reads this
    {
      if inBrowser then Some(encode(newItems)) else before
    }

    method AddItem(product: Product, size: string, color: string)
      modifies this
      ensures items == AddLine(old(items), product, size, color)
      ensures storage == Saved(items, old(storage))
      ensures UniqueLines(old(items)) ==> UniqueLines(items)
    {
      var newItems;
      var existing := FindLine(items, product.id, size, color);
      if existing.Some? {
        newItems := IncrementLines(items, product.id, size, color);
      } else {
        newItems := items + [NewLine(product, size, color)];
      }
      if UniqueLines(items) {
        AddKeepsLinesUnique(items, product, size, color);
      }
      items := newItems;
      if inBrowser {
        storage := Some(encode(newItems));
      }
    }

    method RemoveItem(id: int, size: string, color: string)
      modifies this
      ensures items == RemoveLines(old(items), id, size, color)
      ensures storage == Saved(items, old(storage))
      ensures UniqueLines(old(items)) ==> UniqueLines(items)
    {
      if UniqueLines(items) {
        UpdateKeepsLinesUnique(items, id, size, color, 0);
      }
      var newItems := RemoveLines(items, id, size, color);
      items := newItems;
      if inBrowser {
        storage := Some(encode(newItems));
      }
    }

    method UpdateQuantity(id: int, size: string, color: string, quantity: int)
      modifies this
      ensures items == UpdateLines(old(items), id, size, color, quantity)
      ensures storage == Saved(items, old(storage))
      ensures UniqueLines(old(items)) ==> UniqueLines(items)
    {
      if quantity == 0 {
        RemoveItem(id, size, color);
      } else {
        if UniqueLines(items) {
          UpdateKeepsLinesUnique(items, id, size, color, quantity);
        }
        var newItems := SetQuantity(items, id, size, color, quantity);
        items := newItems;
        if inBrowser {
          storage := Some(encode(newItems));
        }
      }
    }

    method ClearCart()
      modifies this
      ensures items == []
      ensures storage == if inBrowser then None else old(storage)
      ensures GetTotal() == 0 && GetItemsCount() == 0
    {
      items := [];
      if inBrowser {
        storage := None;
      }
    }

    function GetTotal(): (t: int)
      reads this
      ensures items == [] ==> t == 0
    {
      Total(items)
    }

    function GetItemsCount(): (n: int)
      reads this
      ensures items == [] ==> n == 0
    {
      Count(items)
    }
  }

  /** What a store saves, a new store reads back, provided `decode` inverts `encode`. */
  lemma Rehydrate(items: seq<CartItem>, encode: seq<CartItem> -> string, decode: string -> Option<seq<CartItem>>)
    requires encode(items) != ""
    requires decode(encode(items)) == Some(items)
    ensures InitialItems(true, Some(encode(items)), decode) == items
  {
  }
}

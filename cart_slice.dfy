/** The shopping-cart reducer of `src/store/features/cartSlice.ts`: a list
    of `{product, quantity}` line items and the five actions that update
    it in place. */
module CartSlice {
  import opened Wrappers

  /** The catalog product a line item was created from (the fields of
      `ProductType` that the store and its callers read). */
  datatype Product = Product(
    id: int,
    name: string,
    sku: string,
    thumbnail: string,
    price: real,
    discountPercent: real,
    stock: int)

  datatype CartItem = CartItem(product: Product, quantity: int)

  /** No two line items share a product id. */
  predicate DistinctIds(items: seq<CartItem>) {
    forall i, j :: 0 <= i < j < |items| ==> items[i].product.id != items[j].product.id
  }

  predicate HasId(items: seq<CartItem>, id: int) {
    exists i :: 0 <= i < |items| && items[i].product.id == id
  }

  /** The position `items.find(item => item.product.id === id)` stops at:
      the first item with that id, if any. */
  function FindIndex(items: seq<CartItem>, id: int): (r: Option<nat>)
    ensures r.Some? ==> r.value < |items| && items[r.value].product.id == id
    ensures r.Some? ==> forall k :: 0 <= k < r.value ==> items[k].product.id != id
    ensures r.None? ==> forall k :: 0 <= k < |items| ==> items[k].product.id != id
  {
    if items == [] then None
    else if items[0].product.id == id then Some(0)
    else match FindIndex(items[1..], id)
      case None => None
      case Some(k) => Some(k + 1)
  }

  /** The items whose product id is not in `ids`, in their original order
      (the `filter` calls of removeFromCart, removeMultipleFromCart and
      updateCartItemQuantity). */
  function WithoutIds(items: seq<CartItem>, ids: seq<int>): seq<CartItem> {
    if items == [] then []
    else
      var rest := WithoutIds(items[1..], ids);
      if items[0].product.id in ids then rest else [items[0]] + rest
  }

  /** The new item list after `addToCart({product, quantity})`. */
  function Added(items: seq<CartItem>, product: Product, quantity: int): seq<CartItem> {
    match FindIndex(items, product.id)
    case Some(k) => items[k := items[k].(quantity := items[k].quantity + quantity)]
    case None => items + [CartItem(product, quantity)]
  }

  /** The quantity an update asks for, capped at the product's stock. */
  function Clamped(requested: int, stock: int): int {
    if requested > stock then stock else requested
  }

  /** The new item list after `updateCartItemQuantity({productId, quantity})`. */
  function QuantityUpdated(items: seq<CartItem>, productId: int, quantity: int): seq<CartItem> {
    match FindIndex(items, productId)
    case None => items
    case Some(k) =>
      var q := Clamped(quantity, items[k].product.stock);
      if q <= 0 then WithoutIds(items, [productId])
      else items[k := items[k].(quantity := q)]
  }

  /** The state slice `{ items }`; the reducers mutate `items` in place or
      reassign it. */
  class CartState {
    var items: seq<CartItem>

    /** `initialState`: an empty cart. */
    constructor ()
      ensures items == []
    {
      items := [];
    }

    /** `state.items.find(item => item.product.id === id)`, as a position. */
    method Find(id: int) returns (k: Option<nat>)
      ensures k == FindIndex(items, id)
    {
      var i := 0;
      while i < |items|
        invariant 0 <= i <= |items|
        invariant forall j :: 0 <= j < i ==> items[j].product.id != id
      {
        if items[i].product.id == id {
          FirstMatchIsFound(items, id, i);
          return Some(i);
        }
        i := i + 1;
      }
      NoMatchIsNone(items, id);
      k := None;
    }

    method AddToCart(product: Product, quantity: int)
      modifies this
      ensures items == Added(old(items), product, quantity)
    {
      var k := Find(product.id);
      if k.Some? {
        var i := k.value;
        items := items[i := items[i].(quantity := items[i].quantity + quantity)];
      } else {
        items := items + [CartItem(product, quantity)];
      }
    }

    method UpdateCartItemQuantity(productId: int, quantity: int)
      modifies this
      ensures items == QuantityUpdated(old(items), productId, quantity)
    {
      var k := Find(productId);
      if k.Some? {
        var i := k.value;
        var item := items[i];
        if quantity > item.product.stock {
          items := items[i := item.(quantity := item.product.stock)];
        } else {
          items := items[i := item.(quantity := quantity)];
        }
        if items[i].quantity <= 0 {
          WithoutIdsIgnoresQuantity(old(items), i, items[i].quantity, [productId]);
          items := KeepUntargeted(items, [productId]);
        }
      }
    }

    method RemoveFromCart(productId: int)
      modifies this
      ensures items == WithoutIds(old(items), [productId])
    {
      items := KeepUntargeted(items, [productId]);
    }

    method RemoveMultipleFromCart(productIds: seq<int>)
      modifies this
      ensures items == WithoutIds(old(items), productIds)
    {
      items := KeepUntargeted(items, productIds);
    }

    method ClearCart()
      modifies this
      ensures items == []
    {
      items := [];
    }
  }

  /** The `filter` loop: keeps the items whose id is not targeted. */
  method KeepUntargeted(items: seq<CartItem>, ids: seq<int>) returns (kept: seq<CartItem>)
    ensures kept == WithoutIds(items, ids)
  {
    kept := [];
    var i := |items|;
    while i > 0
      invariant 0 <= i <= |items|
      invariant kept == WithoutIds(items[i..], ids)
    {
      i := i - 1;
      assert items[i..][1..] == items[i + 1..];
      if items[i].product.id !in ids {
        kept := [items[i]] + kept;
      }
    }
  }

  lemma {:induction false} FirstMatchIsFound(items: seq<CartItem>, id: int, i: nat)
    requires i < |items| && items[i].product.id == id
    requires forall j :: 0 <= j < i ==> items[j].product.id != id
    ensures FindIndex(items, id) == Some(i)
  {
    if i > 0 {
      FirstMatchIsFound(items[1..], id, i - 1);
    }
  }

  /** With distinct ids, `find` stops at the one item that has the id. */
  lemma FindDistinct(items: seq<CartItem>, id: int, k: nat)
    requires DistinctIds(items)
    requires k < |items| && items[k].product.id == id
    ensures FindIndex(items, id) == Some(k)
  {
    forall j | 0 <= j < k ensures items[j].product.id != id {
      assert items[j].product.id != items[k].product.id;
    }
    FirstMatchIsFound(items, id, k);
  }

  lemma AbsentIsNone(items: seq<CartItem>, id: int)
    requires !HasId(items, id)
    ensures FindIndex(items, id) == None
  {
    NoMatchIsNone(items, id);
  }

  lemma NoMatchIsNone(items: seq<CartItem>, id: int)
    requires forall j :: 0 <= j < |items| ==> items[j].product.id != id
    ensures FindIndex(items, id) == None
  {
  }

  /** Filtering by id does not look at quantities. */
  lemma {:induction false} WithoutIdsIgnoresQuantity(items: seq<CartItem>, k: nat, q: int, ids: seq<int>)
    requires k < |items| && items[k].product.id in ids
    ensures WithoutIds(items[k := items[k].(quantity := q)], ids) == WithoutIds(items, ids)
  {
    var updated := items[k := items[k].(quantity := q)];
    if k > 0 {
      WithoutIdsIgnoresQuantity(items[1..], k - 1, q, ids);
      assert updated[1..] == items[1..][k - 1 := items[k].(quantity := q)];
    } else {
      assert updated[1..] == items[1..];
    }
  }

  // ---------------------------------------------------------------------
  // Properties of the reducers
  // ---------------------------------------------------------------------

  /** Adding a product that is already in the cart adds the payload
      quantity to that item; the length and every other item are kept. */
  lemma AddExisting(items: seq<CartItem>, product: Product, quantity: int, k: nat)
    requires k < |items| && items[k].product.id == product.id
    requires DistinctIds(items)
    ensures var r := Added(items, product, quantity);
      |r| == |items| &&
      r[k] == CartItem(items[k].product, items[k].quantity + quantity) &&
      forall j :: 0 <= j < |items| && j != k ==> r[j] == items[j]
  {
    FindDistinct(items, product.id, k);
  }

  /** Adding a product that is not in the cart appends exactly one item
      holding it and the payload quantity, whatever that quantity and the
      product's stock are. */
  lemma AddNew(items: seq<CartItem>, product: Product, quantity: int)
    requires !HasId(items, product.id)
    ensures Added(items, product, quantity) == items + [CartItem(product, quantity)]
  {
    AbsentIsNone(items, product.id);
  }

  /** Adding keeps product ids pairwise distinct. */
  lemma AddKeepsIdsDistinct(items: seq<CartItem>, product: Product, quantity: int)
    requires DistinctIds(items)
    ensures DistinctIds(Added(items, product, quantity))
  {
    var r := Added(items, product, quantity);
    match FindIndex(items, product.id)
    case Some(k) =>
      forall i, j | 0 <= i < j < |r| ensures r[i].product.id != r[j].product.id {
        assert r[i].product == items[i].product && r[j].product == items[j].product;
      }
    case None =>
      forall i, j | 0 <= i < j < |r| ensures r[i].product.id != r[j].product.id {
        if j == |items| {
          assert r[i] == items[i];
        }
      }
  }

  /** An update keeps the ids distinct: it either changes one item's
      quantity in place or removes the item. */
  lemma UpdateKeepsIdsDistinct(items: seq<CartItem>, productId: int, quantity: int)
    requires DistinctIds(items)
    ensures DistinctIds(QuantityUpdated(items, productId, quantity))
  {
    var r := QuantityUpdated(items, productId, quantity);
    match FindIndex(items, productId)
    case None =>
    case Some(k) =>
      if Clamped(quantity, items[k].product.stock) <= 0 {
        WithoutIdsKeepsDistinct(items, [productId]);
      } else {
        forall i, j | 0 <= i < j < |r| ensures r[i].product.id != r[j].product.id {
          assert r[i].product == items[i].product && r[j].product == items[j].product;
        }
      }
  }

  /** Two adds of the same product leave one line item for it with the
      summed quantity. */
  lemma AddTwiceAccumulates(items: seq<CartItem>, product: Product, a: int, b: int)
    requires !HasId(items, product.id)
    ensures Added(Added(items, product, a), product, b) == items + [CartItem(product, a + b)]
  {
    AddNew(items, product, a);
    var once := items + [CartItem(product, a)];
    FirstMatchIsFound(once, product.id, |items|);
  }

  /** `addToCart` does not clamp against stock: one add can put more than
      the stock into the cart. */
  lemma AddCanExceedStock()
    ensures var p := Product(1, "Chair", "CH-1", "", 10.0, 0.0, 3);
      Added([], p, 5) == [CartItem(p, 5)] && 5 > p.stock
  {
  }

  /** Every kept item is untargeted and comes from the input; every
      untargeted input item is kept. */
  lemma {:induction false} WithoutIdsMembers(items: seq<CartItem>, ids: seq<int>)
    ensures forall x :: x in WithoutIds(items, ids) <==> x in items && x.product.id !in ids
  {
    if items != [] {
      WithoutIdsMembers(items[1..], ids);
      assert forall x :: x in items <==> x == items[0] || x in items[1..];
    }
  }

  /** Filtering distributes over concatenation, so relative order is kept. */
  lemma {:induction false} WithoutIdsAppend(a: seq<CartItem>, b: seq<CartItem>, ids: seq<int>)
    ensures WithoutIds(a + b, ids) == WithoutIds(a, ids) + WithoutIds(b, ids)
  {
    if a == [] {
      assert a + b == b;
    } else {
      WithoutIdsAppend(a[1..], b, ids);
      var ab := a + b;
      assert ab[0] == a[0] && ab[1..] == a[1..] + b;
      var kept := if a[0].product.id in ids then [] else [a[0]];
      assert WithoutIds(ab, ids) == kept + WithoutIds(a[1..] + b, ids);
      assert WithoutIds(a, ids) == kept + WithoutIds(a[1..], ids);
    }
  }

  /** Removing an id that is not in the cart changes nothing. */
  lemma {:induction false} WithoutAbsentIds(items: seq<CartItem>, ids: seq<int>)
    requires forall i :: 0 <= i < |items| ==> items[i].product.id !in ids
    ensures WithoutIds(items, ids) == items
  {
    if items != [] {
      WithoutAbsentIds(items[1..], ids);
    }
  }

  /** Removing twice is removing once. */
  lemma WithoutIdsIdempotent(items: seq<CartItem>, ids: seq<int>)
    ensures WithoutIds(WithoutIds(items, ids), ids) == WithoutIds(items, ids)
  {
    var r := WithoutIds(items, ids);
    WithoutIdsMembers(items, ids);
    forall i | 0 <= i < |r| ensures r[i].product.id !in ids {
      assert r[i] in r;
    }
    WithoutAbsentIds(r, ids);
  }

  /** Filtering keeps ids distinct. */
  lemma {:induction false} WithoutIdsKeepsDistinct(items: seq<CartItem>, ids: seq<int>)
    requires DistinctIds(items)
    ensures DistinctIds(WithoutIds(items, ids))
  {
    if items != [] {
      WithoutIdsKeepsDistinct(items[1..], ids);
      var rest := WithoutIds(items[1..], ids);
      WithoutIdsMembers(items[1..], ids);
      if items[0].product.id !in ids {
        forall j | 0 <= j < |rest| ensures rest[j].product.id != items[0].product.id {
          assert rest[j] in items[1..];
        }
      }
    }
  }

  /** An update of an id that is not in the cart changes nothing. */
  lemma UpdateUnknownId(items: seq<CartItem>, productId: int, quantity: int)
    requires !HasId(items, productId)
    ensures QuantityUpdated(items, productId, quantity) == items
  {
    AbsentIsNone(items, productId);
  }

  /** An update whose capped quantity is positive sets that item's
      quantity to min(quantity, stock) and leaves every other item. */
  lemma UpdateSetsClampedQuantity(items: seq<CartItem>, productId: int, quantity: int, k: nat)
    requires DistinctIds(items)
    requires k < |items| && items[k].product.id == productId
    requires Clamped(quantity, items[k].product.stock) > 0
    ensures var r := QuantityUpdated(items, productId, quantity);
      |r| == |items| &&
      r[k].product == items[k].product &&
      r[k].quantity == (if quantity < items[k].product.stock then quantity else items[k].product.stock) &&
      r[k].quantity <= items[k].product.stock &&
      forall j :: 0 <= j < |items| && j != k ==> r[j] == items[j]
  {
    FindDistinct(items, productId, k);
  }

  /** An update whose capped quantity is zero or less removes the product
      from the cart and keeps the other items in order. */
  lemma UpdateToZeroRemoves(items: seq<CartItem>, productId: int, quantity: int, k: nat)
    requires k < |items| && items[k].product.id == productId
    requires forall j :: 0 <= j < k ==> items[j].product.id != productId
    requires Clamped(quantity, items[k].product.stock) <= 0
    ensures var r := QuantityUpdated(items, productId, quantity);
      r == WithoutIds(items, [productId]) && !HasId(r, productId)
  {
    FirstMatchIsFound(items, productId, k);
    var r := QuantityUpdated(items, productId, quantity);
    WithoutIdsMembers(items, [productId]);
    forall i | 0 <= i < |r| ensures r[i].product.id != productId {
      assert r[i] in r;
    }
  }

  /** Every item whose quantity lies in [1, stock]. */
  predicate QuantitiesInStock(items: seq<CartItem>) {
    forall i :: 0 <= i < |items| ==> 1 <= items[i].quantity <= items[i].product.stock
  }

  /** Updating and removing keep every present quantity within [1, stock]
      (adding does not, see AddCanExceedStock). */
  lemma UpdateKeepsQuantitiesInStock(items: seq<CartItem>, productId: int, quantity: int)
    requires QuantitiesInStock(items)
    ensures QuantitiesInStock(QuantityUpdated(items, productId, quantity))
  {
    var r := QuantityUpdated(items, productId, quantity);
    match FindIndex(items, productId)
    case None =>
    case Some(k) =>
      if Clamped(quantity, items[k].product.stock) <= 0 {
        WithoutIdsMembers(items, [productId]);
        forall i | 0 <= i < |r| ensures 1 <= r[i].quantity <= r[i].product.stock {
          assert r[i] in items;
        }
      }
  }

  lemma RemoveKeepsQuantitiesInStock(items: seq<CartItem>, ids: seq<int>)
    requires QuantitiesInStock(items)
    ensures QuantitiesInStock(WithoutIds(items, ids))
  {
    var r := WithoutIds(items, ids);
    WithoutIdsMembers(items, ids);
    forall i | 0 <= i < |r| ensures 1 <= r[i].quantity <= r[i].product.stock {
      assert r[i] in items;
    }
  }
}

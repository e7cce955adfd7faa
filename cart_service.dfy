/** The client-side cart state: the list of cart items the browser holds
    and the item count derived from it. Each operation is the local update
    the service performs once the server has answered; the server's answer
    (the fetched list, the stored item) is a parameter. */
module CartState {
  import opened Models

  /** Total quantity of a list of cart items: 0 for an empty list, and never
      negative when no quantity is. */
  function Sum(items: seq<CartItem>): (total: int)
    ensures items == [] ==> total == 0
    ensures (forall i :: 0 <= i < |items| ==> items[i].quantity >= 0) ==> total >= 0
  {
    if items == [] then 0 else items[0].quantity + Sum(items[1..])
  }

  /** `items.reduce((sum, item) => sum + item.quantity, 0)`, which adds from
      the left, one item after another. */
  function Reduce(items: seq<CartItem>): int
  {
    if items == [] then 0 else Reduce(items[..|items| - 1]) + items[|items| - 1].quantity
  }

  /** The left-to-right `reduce` gives the same total as `Sum`. */
  lemma {:induction false} ReduceIsSum(items: seq<CartItem>)
    ensures Reduce(items) == Sum(items)
  {
    if items != [] {
      var init := items[..|items| - 1];
      var last := items[|items| - 1];
      ReduceIsSum(init);
      assert init + [last] == items;
      SumAppend(init, [last]);
      assert Sum([last]) == last.quantity;
    }
  }

  lemma {:induction false} SumAppend(a: seq<CartItem>, b: seq<CartItem>)
    ensures Sum(a + b) == Sum(a) + Sum(b)
  {
    if a == [] {
      assert a + b == b;
    } else {
      assert (a + b)[1..] == a[1..] + b;
      SumAppend(a[1..], b);
    }
  }

  /** Replacing one item changes the total by the difference of the two
      quantities. */
  lemma {:induction false} SumUpdate(items: seq<CartItem>, k: nat, x: CartItem)
    requires k < |items|
    ensures Sum(items[k := x]) == Sum(items) - items[k].quantity + x.quantity
  {
    if k > 0 {
      assert items[k := x][1..] == items[1..][k - 1 := x];
      SumUpdate(items[1..], k - 1, x);
    } else {
      assert items[k := x][1..] == items[1..];
    }
  }

  /** No item among the first `n` carries product `productId`. */
  ghost predicate NoneBefore(items: seq<CartItem>, productId: int, n: nat)
    requires n <= |items|
  {
    forall j :: 0 <= j < n ==> items[j].productId != productId
  }

  /** `findIndex(item => item.product_id === productId)`: the first index
      holding that product, or -1 when there is none. */
  function FindIndex(items: seq<CartItem>, productId: int): (r: int)
    ensures -1 <= r < |items|
    ensures r >= 0 ==> items[r].productId == productId && NoneBefore(items, productId, r)
    ensures r == -1 <==> NoneBefore(items, productId, |items|)
  {
    if items == [] then -1
    else if items[0].productId == productId then 0
    else
      var k := FindIndex(items[1..], productId);
      if k == -1 then -1 else k + 1
  }

  /** The reference meaning of adding an item: it takes the place of the
      first item for the same product, or goes at the end when there is
      none. */
  function Upsert(items: seq<CartItem>, x: CartItem): (r: seq<CartItem>)
    ensures forall k :: 0 <= k < |items| && items[k].productId == x.productId && NoneBefore(items, x.productId, k) ==>
              r == items[k := x]
    ensures NoneBefore(items, x.productId, |items|) ==> r == items + [x]
  {
    if items == [] then [x]
    else if items[0].productId == x.productId then [x] + items[1..]
    else
      var rest := Upsert(items[1..], x);
      assert forall k :: 1 <= k < |items| && items[k].productId == x.productId && NoneBefore(items, x.productId, k) ==>
        items[1..][k - 1] == items[k] && NoneBefore(items[1..], x.productId, k - 1) &&
        [items[0]] + items[1..][k - 1 := x] == items[k := x];
      assert NoneBefore(items, x.productId, |items|) ==>
        NoneBefore(items[1..], x.productId, |items| - 1) && [items[0]] + (items[1..] + [x]) == items + [x];
      [items[0]] + rest
  }

  /** No two items of the list carry the same product. */
  ghost predicate UniqueProducts(items: seq<CartItem>)
  {
    forall i, j :: 0 <= i < j < |items| ==> items[i].productId != items[j].productId
  }

  /** Adding keeps at most one item per product. */
  lemma {:induction false} UpsertKeepsUniqueProducts(items: seq<CartItem>, x: CartItem)
    requires UniqueProducts(items)
    ensures UniqueProducts(Upsert(items, x))
  {
    var k := FindIndex(items, x.productId);
    var r := Upsert(items, x);
    if k >= 0 {
      assert r == items[k := x];
      forall i, j | 0 <= i < j < |r| ensures r[i].productId != r[j].productId {
        assert r[i].productId == items[i].productId;
        assert r[j].productId == items[j].productId;
      }
    } else {
      assert r == items + [x];
    }
  }

  /** The total after adding: the new quantity replaces that of the item it
      takes the place of, or is added on top. */
  lemma {:induction false} UpsertSum(items: seq<CartItem>, x: CartItem)
    ensures var k := FindIndex(items, x.productId);
            Sum(Upsert(items, x)) == Sum(items) + x.quantity - (if k >= 0 then items[k].quantity else 0)
  {
    var k := FindIndex(items, x.productId);
    if k >= 0 {
      SumUpdate(items, k, x);
    } else {
      SumAppend(items, [x]);
      assert Sum([x]) == x.quantity;
    }
  }

  /** `a` is `b` with some items left out, the rest in their order. */
  ghost predicate Subsequence(a: seq<CartItem>, b: seq<CartItem>)
    decreases |b|
  {
    if a == [] then true
    else if b == [] then false
    else if a[0] == b[0] then Subsequence(a[1..], b[1..])
    else Subsequence(a, b[1..])
  }

  /** How many items of the list carry cart-item id `cartItemId`. */
  ghost function CountId(items: seq<CartItem>, cartItemId: int): nat
  {
    if items == [] then 0
    else (if items[0].id == cartItemId then 1 else 0) + CountId(items[1..], cartItemId)
  }

  /** `filter(item => item.id !== cartItemId)`: every item with that id is
      dropped, every other item is kept, and the kept ones keep their order. */
  function Filter(items: seq<CartItem>, cartItemId: int): (r: seq<CartItem>)
    ensures |r| == |items| - CountId(items, cartItemId)
    ensures forall i :: 0 <= i < |r| ==> r[i].id != cartItemId
    ensures forall x :: x in r <==> x in items && x.id != cartItemId
    ensures Subsequence(r, items)
  {
    if items == [] then []
    else if items[0].id != cartItemId then [items[0]] + Filter(items[1..], cartItemId)
    else Filter(items[1..], cartItemId)
  }

  /** Removing an id no item carries changes nothing. */
  lemma {:induction false} FilterAbsent(items: seq<CartItem>, cartItemId: int)
    requires forall i :: 0 <= i < |items| ==> items[i].id != cartItemId
    ensures Filter(items, cartItemId) == items
  {
    if items != [] {
      FilterAbsent(items[1..], cartItemId);
      assert [items[0]] + items[1..] == items;
    }
  }

  /** The item at `k` is the only one carrying cart-item id `cartItemId`. */
  ghost predicate OnlyAt(items: seq<CartItem>, k: nat, cartItemId: int)
  {
    k < |items| && items[k].id == cartItemId &&
    forall j :: 0 <= j < |items| && j != k ==> items[j].id != cartItemId
  }

  /** Removing the one item with a given id lowers the total by exactly
      that item's quantity. */
  lemma {:induction false} FilterUniqueSum(items: seq<CartItem>, k: nat, id: int)
    requires OnlyAt(items, k, id)
    ensures Sum(Filter(items, id)) == Sum(items) - items[k].quantity
  {
    if k == 0 {
      FilterAbsent(items[1..], id);
    } else {
      assert items[1..][k - 1] == items[k];
      FilterUniqueSum(items[1..], k - 1, id);
      assert Sum([items[0]] + Filter(items[1..], id)) == items[0].quantity + Sum(Filter(items[1..], id)) by {
        SumAppend([items[0]], Filter(items[1..], id));
      }
    }
  }

  /** The cart service: the item list and the count shown in the header. */
  class CartService {
    var cartItems: seq<CartItem>
    var cartItemsCount: int

    /** After every change the count is the total quantity of the list. */
    ghost predicate Valid()
      reads this
    {
      cartItemsCount == Sum(cartItems)
    }

    constructor ()
      ensures Valid()
      ensures cartItems == [] && cartItemsCount == 0
    {
      cartItems := [];
      cartItemsCount := 0;
    }

    /** `getCart`: the fetched list replaces the held one wholesale. */
    method GetCart(items: seq<CartItem>)
      modifies this
      ensures Valid()
      ensures cartItems == items
    {
      cartItems := items;
      cartItemsCount := Sum(items);
    }

    /** `addToCart`: the stored item returned by the server replaces the
        first held item for the same product, or is appended. */
    method AddToCart(cartItem: CartItem)
      modifies this
      ensures Valid()
      ensures cartItems == Upsert(old(cartItems), cartItem)
      ensures FindIndex(old(cartItems), cartItem.productId) >= 0 ==>
                |cartItems| == |old(cartItems)| &&
                var k := FindIndex(old(cartItems), cartItem.productId);
                cartItems[k] == cartItem &&
                forall j :: 0 <= j < |cartItems| && j != k ==> cartItems[j] == old(cartItems)[j]
      ensures FindIndex(old(cartItems), cartItem.productId) == -1 ==>
                cartItems == old(cartItems) + [cartItem]
      ensures UniqueProducts(old(cartItems)) ==> UniqueProducts(cartItems)
    {
      var currentItems := cartItems;
      var existingIndex := FindIndex(currentItems, cartItem.productId);
      if existingIndex >= 0 {
        var updatedItems := currentItems;
        updatedItems := updatedItems[existingIndex := cartItem];
        cartItems := updatedItems;
      } else {
        cartItems := currentItems + [cartItem];
      }
      cartItemsCount := Sum(cartItems);
      if UniqueProducts(currentItems) {
        UpsertKeepsUniqueProducts(currentItems, cartItem);
      }
    }

    /** `removeFromCart`: every held item with that cart-item id is dropped. */
    method RemoveFromCart(cartItemId: int)
      requires Valid()
      modifies this
      ensures Valid()
      ensures cartItems == Filter(old(cartItems), cartItemId)
      ensures (forall i :: 0 <= i < |old(cartItems)| ==> old(cartItems)[i].id != cartItemId) ==>
                cartItems == old(cartItems) && cartItemsCount == old(cartItemsCount)
    {
      var updatedItems := Filter(cartItems, cartItemId);
      if forall i :: 0 <= i < |cartItems| ==> cartItems[i].id != cartItemId {
        FilterAbsent(cartItems, cartItemId);
      }
      cartItems := updatedItems;
      cartItemsCount := Sum(updatedItems);
    }

    /** `clearCart`: the list and the count are emptied. */
    method ClearCart()
      modifies this
      ensures Valid()
      ensures cartItems == [] && cartItemsCount == 0
    {
      cartItems := [];
      cartItemsCount := 0;
    }
  }
}

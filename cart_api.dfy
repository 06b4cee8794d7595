/** The cart client (src/api/cart.ts): the requests of the five calls, sent through `http`
    directly, and the `CartUtils` aggregates. Prices are integers in cents; the source divides
    them by 100 in floating point, which this model leaves out and keeps in cents. */
module CartApi {
  import opened Values
  import Http

  /** `CartItem`; `price` is in cents. */
  datatype CartItem = CartItem(id: int, productId: int, productName: string, productImage: string,
                               price: int, quantity: int, stock: int)

  /** `array.reduce(f, acc)` for a summing callback: a left fold starting from `acc`. */
  function Reduce<T>(acc: int, items: seq<T>, f: T -> int): int
    decreases |items|
  {
    if items == [] then acc else Reduce(acc + f(items[0]), items[1..], f)
  }

  /** The sum of `f` over the items, as a reference definition. */
  function Sum<T>(items: seq<T>, f: T -> int): int
    decreases |items|
  {
    if items == [] then 0 else f(items[0]) + Sum(items[1..], f)
  }

  lemma {:induction false} ReduceIsSum<T>(acc: int, items: seq<T>, f: T -> int)
    ensures Reduce(acc, items, f) == acc + Sum(items, f)
    decreases |items|
  {
    if items != [] {
      ReduceIsSum(acc + f(items[0]), items[1..], f);
    }
  }

  lemma {:induction false} SumConcat<T>(a: seq<T>, b: seq<T>, f: T -> int)
    ensures Sum(a + b, f) == Sum(a, f) + Sum(b, f)
    decreases |a|
  {
    if a == [] {
      assert a + b == b;
    } else {
      assert (a + b)[1..] == a[1..] + b;
      SumConcat(a[1..], b, f);
    }
  }

  /** Taking one item out of the list takes its term out of the sum. */
  lemma {:induction false} SumRemove<T>(b: seq<T>, j: int, f: T -> int)
    requires 0 <= j < |b|
    ensures Sum(b, f) == f(b[j]) + Sum(b[..j] + b[j + 1..], f)
  {
    var front, back := b[..j], b[j + 1..];
    var tail := [b[j]] + back;
    assert b == front + tail;
    assert tail[0] == b[j] && tail[1..] == back;
    assert Sum(tail, f) == f(b[j]) + Sum(back, f);
    SumConcat(front, tail, f);
    SumConcat(front, back, f);
  }

  /** The sum does not depend on the order of the items. */
  lemma {:induction false} SumPermutation<T>(a: seq<T>, b: seq<T>, f: T -> int)
    requires multiset(a) == multiset(b)
    ensures Sum(a, f) == Sum(b, f)
    decreases |a|
  {
    if a != [] {
      assert a[0] in multiset(b);
      var j :| 0 <= j < |b| && b[j] == a[0];
      var rest := b[..j] + b[j + 1..];
      assert multiset(a[1..]) == multiset(rest) by {
        assert b == b[..j] + [b[j]] + b[j + 1..];
        assert a == [a[0]] + a[1..];
        assert multiset(a[1..]) == multiset(a) - multiset{a[0]};
        assert multiset(rest) == multiset(b) - multiset{b[j]};
      }
      SumPermutation(a[1..], rest, f);
      SumRemove(b, j, f);
    } else {
      assert |b| == |multiset(b)| == 0;
    }
  }

  function Quantity(item: CartItem): int { item.quantity }

  /** `calculateItemTotal`, in cents. */
  function ItemCents(item: CartItem): int { item.price * item.quantity }

  /** `calculateTotalQuantity`: the sum of the quantities, 0 for an empty cart, whatever the
      order of the items. */
  function TotalQuantity(items: seq<CartItem>): (r: int)
    ensures r == Sum(items, Quantity)
    ensures items == [] ==> r == 0
  {
    ReduceIsSum(0, items, Quantity);
    Reduce(0, items, Quantity)
  }

  /** `calculateTotal`, in cents: the sum of the item totals, 0 for an empty cart. */
  function TotalCents(items: seq<CartItem>): (r: int)
    ensures r == Sum(items, ItemCents)
    ensures items == [] ==> r == 0
  {
    ReduceIsSum(0, items, ItemCents);
    Reduce(0, items, ItemCents)
  }

  /** Both totals are additive over concatenation and independent of item order. */
  lemma TotalsAdditiveAndOrderFree(a: seq<CartItem>, b: seq<CartItem>, c: seq<CartItem>)
    requires multiset(c) == multiset(a + b)
    ensures TotalQuantity(a + b) == TotalQuantity(a) + TotalQuantity(b)
    ensures TotalCents(a + b) == TotalCents(a) + TotalCents(b)
    ensures TotalQuantity(c) == TotalQuantity(a + b)
    ensures TotalCents(c) == TotalCents(a + b)
  {
    SumConcat(a, b, Quantity);
    SumConcat(a, b, ItemCents);
    SumPermutation(c, a + b, Quantity);
    SumPermutation(c, a + b, ItemCents);
  }

  /** With no negative quantities, the total quantity bounds each item's quantity. */
  lemma {:induction false} QuantityBoundsItems(items: seq<CartItem>, i: int)
    requires forall k :: 0 <= k < |items| ==> items[k].quantity >= 0
    requires 0 <= i < |items|
    ensures 0 <= items[i].quantity <= TotalQuantity(items)
    decreases |items|
  {
    if i > 0 {
      QuantityBoundsItems(items[1..], i - 1);
    }
    NonNegativeSum(items[1..]);
  }

  lemma {:induction false} NonNegativeSum(items: seq<CartItem>)
    requires forall k :: 0 <= k < |items| ==> items[k].quantity >= 0
    ensures Sum(items, Quantity) >= 0
    decreases |items|
  {
    if items != [] {
      NonNegativeSum(items[1..]);
    }
  }

  // ---------------------------------------------------------------------------------------
  // Requests

  const CartPath := "/miniapp/api/cart"

  datatype Call =
    | GetItems
    | Add(productId: int, quantity: Option<int>)
    | Update(cartItemId: int, newQuantity: int)
    | Delete(cartItemId: int)
    | Clear

  /** `addToCart`'s body `{ product_id, quantity }`; an omitted quantity is 1. */
  function AddBody(productId: int, quantity: Option<int>): (v: Val)
    ensures v.Obj? && v.fields.Keys == {"product_id", "quantity"}
    ensures v.fields["product_id"] == Num(productId)
    ensures v.fields["quantity"] == Num(if quantity.Some? then quantity.value else 1)
  {
    Obj(map["product_id" := Num(productId), "quantity" := Num(if quantity.Some? then quantity.value else 1)])
  }

  /** The options each call passes to `http`: no query, no header, no toast switch. */
  function RequestOf(c: Call): (r: Http.RequestOptions)
    ensures r.query.None? && r.header.None? && !r.hideErrorToast
    ensures c.GetItems? ==> r.url == CartPath && r.verb == Http.GET && r.data.None?
    ensures c.Add? ==> r.url == CartPath && r.verb == Http.POST && r.data == Some(AddBody(c.productId, c.quantity))
    ensures c.Update? ==> r.url == CartPath + "/" + IntToString(c.cartItemId) && r.verb == Http.PUT
                          && r.data == Some(Obj(map["quantity" := Num(c.newQuantity)]))
    ensures c.Delete? ==> r.url == CartPath + "/" + IntToString(c.cartItemId) && r.verb == Http.DELETE && r.data.None?
    ensures c.Clear? ==> r.url == CartPath + "/clear" && r.verb == Http.DELETE && r.data.None?
  {
    match c
    case GetItems => Http.RequestOptions(CartPath, Http.GET, None, None, None, false)
    case Add(id, q) => Http.RequestOptions(CartPath, Http.POST, None, Some(AddBody(id, q)), None, false)
    case Update(id, q) =>
      Http.RequestOptions(CartPath + "/" + IntToString(id), Http.PUT, None, Some(Obj(map["quantity" := Num(q)])), None, false)
    case Delete(id) => Http.RequestOptions(CartPath + "/" + IntToString(id), Http.DELETE, None, None, None, false)
    case Clear => Http.RequestOptions(CartPath + "/clear", Http.DELETE, None, None, None, false)
  }
}

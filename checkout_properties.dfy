/** Properties that relate several calls of the cart-and-checkout operations. */
module CheckoutProperties {
  import opened Checkout

  /** The cart's value: the sum of CartItem.total over the given rows. */
  function CartTotal(cartItems: seq<CartItem>): int {
    if cartItems == [] then 0 else cartItems[0].Total() + CartTotal(cartItems[1..])
  }

  /** add_item applied `n` times to the same cart key and product. */
  function AddTimes(t: CartTable, cartKey: string, product: Product, n: nat): CartTable
    decreases n
  {
    if n == 0 then t else Add(AddTimes(t, cartKey, product, n - 1), cartKey, product)
  }

  /** Starting from no row for the pair, n >= 1 calls to add_item leave exactly one row
      for it, with quantity n and the price the product had at the first call; every
      other row is as it was. */
  lemma {:induction false} AddTimesFromAbsent(t: CartTable, cartKey: string, product: Product, n: nat)
    requires (cartKey, product.id) !in t
    requires n >= 1
    ensures AddTimes(t, cartKey, product, n).Keys == t.Keys + {(cartKey, product.id)}
    ensures AddTimes(t, cartKey, product, n)[(cartKey, product.id)]
              == CartItem(cartKey, product.id, n, product.price)
    ensures forall k :: k in t ==> AddTimes(t, cartKey, product, n)[k] == t[k]
  {
    if n > 1 {
      AddTimesFromAbsent(t, cartKey, product, n - 1);
    }
  }

  /** Seen as a relation of rows, a cart table that keeps its invariant never holds two
      different rows for the same (cart key, product) pair. */
  lemma RowsUniquePerPair(t: CartTable, r1: CartItem, r2: CartItem)
    requires CartInvariant(t)
    requires r1 in t.Values && r2 in t.Values
    requires Pair(r1) == Pair(r2)
    ensures r1 == r2
  {
  }

  lemma {:induction false} AmountSumConcat(a: seq<OrderItem>, b: seq<OrderItem>)
    ensures AmountSum(a + b) == AmountSum(a) + AmountSum(b)
  {
    if a == [] {
      assert a + b == b;
    } else {
      assert (a + b)[1..] == a[1..] + b;
      AmountSumConcat(a[1..], b);
    }
  }

  /** SUM over the order's items does not depend on the order in which the rows are
      visited: any two item sequences with the same rows give the same sum. */
  lemma {:induction false} AmountSumPermutation(a: seq<OrderItem>, b: seq<OrderItem>)
    requires multiset(a) == multiset(b)
    ensures AmountSum(a) == AmountSum(b)
    decreases |a|
  {
    if a == [] {
      assert |multiset(b)| == 0;
    } else {
      assert a[0] in multiset(b);
      var j :| 0 <= j < |b| && b[j] == a[0];
      var rest := b[..j] + b[j + 1..];
      assert b == b[..j] + ([b[j]] + b[j + 1..]);
      assert a == [a[0]] + a[1..];
      assert multiset(b) == multiset(b[..j]) + multiset{b[j]} + multiset(b[j + 1..]);
      assert multiset(a) == multiset{a[0]} + multiset(a[1..]);
      assert multiset(rest) == multiset(b[..j]) + multiset(b[j + 1..]);
      calc {
        multiset(a[1..]);
        multiset(a) - multiset{a[0]};
        multiset(b) - multiset{b[j]};
        multiset(rest);
      }
      AmountSumPermutation(a[1..], rest);
      AmountSumConcat(b[..j], [b[j]] + b[j + 1..]);
      AmountSumConcat([b[j]], b[j + 1..]);
      AmountSumConcat(b[..j], b[j + 1..]);
    }
  }

  lemma {:induction false} CopiedAmounts(items: seq<OrderItem>, cartItems: seq<CartItem>)
    requires CopiesCart(items, cartItems)
    ensures AmountSum(items) == CartTotal(cartItems)
  {
    if items != [] {
      CopiedAmounts(items[1..], cartItems[1..]);
    }
  }

  /** The order create_order makes totals to the sum of CartItem.total over the cart
      items it was given, and to None when it was given none. */
  lemma CheckoutTotal(order: Order, cartItems: seq<CartItem>)
    requires CopiesCart(order.items, cartItems)
    ensures order.Total() == if cartItems == [] then None else Some(CartTotal(cartItems))
  {
    CopiedAmounts(order.items, cartItems);
  }

  /** The order create_order makes references exactly the products of the cart items it
      was given. */
  lemma CheckoutProducts(order: Order, cartItems: seq<CartItem>)
    requires CopiesCart(order.items, cartItems)
    ensures order.Products() == set c | c in cartItems :: c.product
  {
  }

  /** With no negative price, an order's total is never negative. */
  lemma {:induction false} AmountSumNonNegative(items: seq<OrderItem>)
    requires forall i :: 0 <= i < |items| ==> items[i].price >= 0
    ensures AmountSum(items) >= 0
  {
    if items != [] {
      AmountSumNonNegative(items[1..]);
    }
  }

  /** A client run of the store: two adds of one product, a save that zeroes the row,
      and two checkouts. */
  method Scenario(user: UserId)
  {
    var store := new Store();
    var p := Product(7, 999);
    var item, created := store.AddItem("cart-1", p);
    assert created && item.quantity == 1;
    item, created := store.AddItem("cart-1", p);
    assert !created && item.quantity == 2 && item.price == 999;

    store.SaveCartItem(item.(quantity := 0));
    assert ("cart-1", 7) !in store.cart;

    var order := store.CreateOrder(user, [CartItem("cart-1", 7, 3, 999)]);
    assert order.items == [OrderItem(7, 3, 999)];
    assert order.items[1..] == [];
    assert AmountSum(order.items) == 2997;
    assert order.Total() == Some(2997);
    assert order.Products() == {7};

    var empty := store.CreateOrder(user, []);
    assert empty.Total() == None;
    assert |store.orders| == 2;
  }
}

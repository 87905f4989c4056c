/** The cart-and-checkout layer of the shop: cart rows keyed by (cart key, product),
    orders materialised from cart rows, and the accessors that read them.
    Prices are `DecimalField`s with two decimal places; they are kept here as
    integer cents. */
module Checkout {

  datatype Option<T> = None | Some(value: T)

  type ProductId = nat
  type UserId = nat

  /** A catalogue product as the cart sees it: its identity and its current price. */
  datatype Product = Product(id: ProductId, price: int)

  /** The unique_together pair that identifies a cart row. */
  type CartPair = (string, ProductId)

  /** One row of the cart table. */
  datatype CartItem = CartItem(cartKey: string, product: ProductId, quantity: nat, price: int)
  {
    /** CartItem.total: the row's price times its quantity. It is the amount the order
        item copied from this row adds to Order.total. */
    function Total(): (t: int)
      ensures t == OrderItemFrom(this).Amount()
      ensures price >= 0 ==> t >= 0
    {
      price * quantity
    }
  }

  function Pair(c: CartItem): CartPair {
    (c.cartKey, c.product)
  }

  /** The cart table: at most one row per (cart key, product), by construction of the map. */
  type CartTable = map<CartPair, CartItem>

  /** What the table and the save hook keep true: every row is filed under its own pair,
      and no row with a quantity below 1 survives a save. */
  ghost predicate CartInvariant(t: CartTable) {
    forall k :: k in t ==> Pair(t[k]) == k && t[k].quantity >= 1
  }

  /** Order.status: the integer field with its three declared choices. */
  datatype OrderStatus = AwaitingPayment | Completed | Cancelled
  {
    function Code(): int {
      match this
      case AwaitingPayment => 0
      case Completed => 1
      case Cancelled => 2
    }
  }

  /** Order.payment_option: the character field with its three declared choices. */
  datatype PaymentOption = Deposit | Pagseguro | Paypal
  {
    function Code(): string {
      match this
      case Deposit => "deposit"
      case Pagseguro => "pagseguro"
      case Paypal => "paypal"
    }
  }

  /** One row of the order-item table; the owning order is the one that holds it. */
  datatype OrderItem = OrderItem(product: ProductId, quantity: nat, price: int)
  {
    /** The row expression `price * quantity` that Order.total aggregates. */
    function Amount(): int {
      price * quantity
    }
  }

  /** An order row together with the items that point at it. */
  datatype Order = Order(user: UserId, status: OrderStatus, paymentOption: PaymentOption,
                         items: seq<OrderItem>)
  {
    /** Order.total: SUM(price * quantity) over the order's items, which is NULL
        (None) when the order has no items. */
    function Total(): (t: Option<int>)
      ensures t.None? <==> items == []
      ensures t.Some? ==> t.value == AmountSum(items)
    {
      if items == [] then None else Some(AmountSum(items))
    }

    /** Order.products: the distinct products referenced by the order's items. */
    function Products(): (ps: set<ProductId>)
      ensures forall p :: p in ps <==> exists i :: 0 <= i < |items| && items[i].product == p
      ensures |ps| <= |items|
    {
      ProductsOf(items)
    }
  }

  /** The sum of `price * quantity` over a sequence of order items. */
  function AmountSum(items: seq<OrderItem>): int {
    if items == [] then 0 else items[0].Amount() + AmountSum(items[1..])
  }

  /** The set of products named by a sequence of order items. */
  function ProductsOf(items: seq<OrderItem>): (ps: set<ProductId>)
    ensures forall p :: p in ps <==> exists i :: 0 <= i < |items| && items[i].product == p
    ensures |ps| <= |items|
  {
    if items == [] then {}
    else
      var rest := ProductsOf(items[1..]);
      assert forall p :: p in rest ==> exists i :: 0 <= i < |items| && items[i].product == p by {
        forall p | p in rest ensures exists i :: 0 <= i < |items| && items[i].product == p {
          var j :| 0 <= j < |items[1..]| && items[1..][j].product == p;
          assert items[j + 1].product == p;
        }
      }
      {items[0].product} + rest
  }

  /** The row a new order starts as: the given user and the field defaults. */
  function NewOrder(user: UserId): (o: Order)
    ensures o.user == user && o.items == []
    ensures o.status.Code() == 0 && o.paymentOption.Code() == "deposit"
  {
    Order(user, AwaitingPayment, Deposit, [])
  }

  /** The order item create_order makes from one cart item. */
  function OrderItemFrom(c: CartItem): OrderItem {
    OrderItem(c.product, c.quantity, c.price)
  }

  /** `items` copies `cartItems` one for one and in order: quantity, product and price. */
  ghost predicate CopiesCart(items: seq<OrderItem>, cartItems: seq<CartItem>) {
    |items| == |cartItems| &&
    forall i :: 0 <= i < |items| ==> items[i] == OrderItemFrom(cartItems[i])
  }

  /** The cart table after add_item(cartKey, product): the pair's row gains one unit,
      or a new row is made with quantity 1 and the product's current price. */
  function Add(t: CartTable, cartKey: string, product: Product): (t': CartTable)
    ensures t'.Keys == t.Keys + {(cartKey, product.id)}
    ensures forall k :: k in t && k != (cartKey, product.id) ==> t'[k] == t[k]
    ensures (cartKey, product.id) !in t ==>
              t'[(cartKey, product.id)] == CartItem(cartKey, product.id, 1, product.price)
    ensures (cartKey, product.id) in t ==>
              t'[(cartKey, product.id)] ==
                t[(cartKey, product.id)].(quantity := t[(cartKey, product.id)].quantity + 1)
    ensures CartInvariant(t) ==> CartInvariant(t')
  {
    var k := (cartKey, product.id);
    if k in t then t[k := t[k].(quantity := t[k].quantity + 1)]
    else t[k := CartItem(cartKey, product.id, 1, product.price)]
  }

  /** The cart table after the post-save hook has run for `instance`: a saved row whose
      quantity is below 1 is deleted; otherwise nothing changes. */
  function PostSave(t: CartTable, instance: CartItem): (t': CartTable)
    ensures instance.quantity < 1 ==> Pair(instance) !in t'
    ensures forall k :: k in t && (k != Pair(instance) || instance.quantity >= 1) ==>
              k in t' && t'[k] == t[k]
    ensures t'.Keys <= t.Keys
  {
    if instance.quantity < 1 then t - {Pair(instance)} else t
  }

  /** The in-memory store: the cart table and the order table (each order with its items). */
  class Store {
    var cart: CartTable
    var orders: seq<Order>

    ghost predicate Valid()
      reads this
    {
      CartInvariant(cart)
    }

    constructor ()
      ensures Valid() && cart == map[] && orders == []
    {
      cart := map[];
      orders := [];
    }

    /** post_save_cart_item: runs after every save of a cart row; a row whose quantity
        is below 1 is deleted. */
    method PostSaveCartItem(instance: CartItem)
      requires forall k :: k in cart && k != Pair(instance) ==> Pair(cart[k]) == k && cart[k].quantity >= 1
      requires Pair(instance) in cart && cart[Pair(instance)] == instance
      modifies this
      ensures Valid()
      ensures cart == PostSave(old(cart), instance)
      ensures orders == old(orders)
    {
      if instance.quantity < 1 {
        cart := cart - {Pair(instance)};
      }
    }

    /** instance.save(): writes the row filed under the instance's pair (an update when
        the row exists, an insert otherwise), then the post-save hook runs. */
    method SaveCartItem(item: CartItem)
      requires Valid()
      modifies this
      ensures Valid()
      ensures cart == PostSave(old(cart)[Pair(item) := item], item)
      ensures item.quantity >= 1 ==> cart == old(cart)[Pair(item) := item]
      ensures item.quantity < 1 ==> cart == old(cart) - {Pair(item)}
      ensures orders == old(orders)
    {
      cart := cart[Pair(item) := item];
      PostSaveCartItem(item);
    }

    /** CartItem.objects.create: inserts a new row, which the unique_together constraint
        refuses (`ok == false`, nothing written) when the pair already has one; a row that
        is inserted is then passed to the post-save hook. */
    method CreateCartItem(item: CartItem) returns (ok: bool)
      requires Valid()
      modifies this
      ensures Valid()
      ensures ok <==> Pair(item) !in old(cart)
      ensures !ok ==> cart == old(cart)
      ensures ok ==> cart == PostSave(old(cart)[Pair(item) := item], item)
      ensures orders == old(orders)
    {
      if Pair(item) in cart {
        ok := false;
      } else {
        ok := true;
        SaveCartItem(item);
      }
    }

    /** CartItemManager.add_item: find-or-create on (cartKey, product). An existing row
        gains one unit and keeps its price snapshot (`created == false`); otherwise a row
        with quantity 1 and the product's current price is created (`created == true`). */
    method AddItem(cartKey: string, product: Product) returns (item: CartItem, created: bool)
      requires Valid()
      modifies this
      ensures Valid()
      ensures created <==> (cartKey, product.id) !in old(cart)
      ensures created ==> item == CartItem(cartKey, product.id, 1, product.price)
      ensures !created ==> item == old(cart)[(cartKey, product.id)].(quantity := old(cart)[(cartKey, product.id)].quantity + 1)
      ensures cart == old(cart)[(cartKey, product.id) := item]
      ensures cart == Add(old(cart), cartKey, product)
      ensures orders == old(orders)
    {
      var k := (cartKey, product.id);
      if k in cart {
        created := false;
        item := cart[k];
        item := item.(quantity := item.quantity + 1);
        SaveCartItem(item);
      } else {
        created := true;
        item := CartItem(cartKey, product.id, 1, product.price);
        var ok := CreateCartItem(item);
        assert ok;
      }
    }

    /** OrderManager.create_order: creates one order for `user` with the default status
        and payment option, then one order item per cart item, copying quantity, product
        and price. The cart table is left as it was. */
    method CreateOrder(user: UserId, cartItems: seq<CartItem>) returns (order: Order)
      requires Valid()
      modifies this
      ensures Valid()
      ensures orders == old(orders) + [order]
      ensures order.user == user
      ensures order.status == AwaitingPayment && order.paymentOption == Deposit
      ensures CopiesCart(order.items, cartItems)
      ensures cart == old(cart)
    {
      orders := orders + [NewOrder(user)];
      var id := |orders| - 1;
      for i := 0 to |cartItems|
        invariant |orders| == id + 1 && orders[..id] == old(orders)
        invariant orders[id].user == user
        invariant orders[id].status == AwaitingPayment && orders[id].paymentOption == Deposit
        invariant CopiesCart(orders[id].items, cartItems[..i])
        invariant cart == old(cart)
      {
        var orderItem := OrderItemFrom(cartItems[i]);
        orders := orders[id := orders[id].(items := orders[id].items + [orderItem])];
      }
      order := orders[id];
      assert cartItems[..|cartItems|] == cartItems;
    }
  }
}

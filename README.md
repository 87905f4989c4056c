# Cart and checkout, modelled in Dafny

This project models the cart-and-checkout layer of a small Django shop
(`checkout/models.py`). Shoppers add products to a cart. A cart is a set of
`CartItem` rows, one per (cart key, product) pair. Each row has a quantity and a
price snapshot. At checkout, `OrderManager.create_order` turns a list of cart rows
into one `Order` with one `OrderItem` per row. `Order.total` and `Order.products`
read the result.

The database is modelled as an in-memory `Store` class with two fields:

- `cart`: a map from the unique (cart key, product id) pair to the row. The
  `unique_together` constraint is the map's key.
- `orders`: a sequence of orders. Each order holds its own items.

Prices are two-decimal `DecimalField`s. They are kept as integer cents, so
`Order.total` is exact. The operations that change the store are methods of
`Store`:

- `AddItem`: find-or-create.
- `SaveCartItem`: `instance.save()`, an update or insert.
- `CreateCartItem`: `objects.create`, a forced insert that the unique constraint can refuse.
- `PostSaveCartItem`: the save hook.
- `CreateOrder`: the loop that copies cart rows into order items.

Each of these methods is specified against pure functions: `Add` and `PostSave`
for the cart table (`SaveCartItem` and `CreateCartItem` state their new table as
`PostSave` of the written table), `CopiesCart` for the order items. The accessors are pure
functions on the `Order` value. `checkout_properties.dfy` holds lemmas that relate
several calls. It also holds a client `Scenario` that walks through two adds, a
zeroing save and two checkouts using only the methods' contracts.

Two facts of the code shape the model:

- `quantity` is a `PositiveIntegerField` (checkout/models.py:31), which admits 0, so
  it is a `nat`. A row saved with quantity 0 exists until the post-save hook deletes
  it. `quantity >= 1` is therefore a table invariant only after the hook.
- `create_order` has no transaction around it. The model runs each call as one
  sequential step.

## Model

| member | source | states |
|---|---|---|
| `Checkout.Store.AddItem` | checkout/models.py:11-22 | `created` holds iff the (cart key, product) pair had no row. A new row has quantity 1 and the product's current price. An existing row gains exactly one unit and keeps its price snapshot. No other row changes, the orders are untouched, and the table invariant is kept. |
| `Checkout.Add` | checkout/models.py:11-22 | The table after add_item holds exactly the old pairs plus the given pair. Every other row is unchanged. The pair's row is either new (quantity 1, current price) or is the old row with its quantity raised by 1 and every other field, the price snapshot included, unchanged. The cart invariant is preserved. |
| `CheckoutProperties.AddTimesFromAbsent` | checkout/models.py:12-21 | Starting with no row for a pair, n >= 1 adds leave exactly one row for it. That row has quantity n and the price from the first add. All other rows are unchanged. |
| `CheckoutProperties.RowsUniquePerPair` | checkout/models.py:40 | In a table that keeps the invariant, two rows with the same (cart key, product) are the same row. |
| `Checkout.PostSave` | checkout/models.py:125-127 | After the hook, a saved row whose quantity is below 1 is gone. Every other row, and a row with quantity >= 1, is kept unchanged. No row is added. |
| `Checkout.Store.PostSaveCartItem` | checkout/models.py:125-127 | Runs the hook on the saved instance. The new table is `PostSave` of the old one. Afterwards every row has quantity >= 1 and sits under its own pair. |
| `Checkout.Store.SaveCartItem` | checkout/models.py:15-16 | Saving a row with quantity >= 1 files it under its pair. Saving a row with quantity < 1 leaves no row for its pair. Nothing else changes, and the invariant holds afterwards. |
| `Checkout.Store.CreateCartItem` | checkout/models.py:19-21 | The insert succeeds iff the pair had no row (the unique_together constraint). On refusal nothing changes. On success the row is written and passed through the hook. |
| `Checkout.NewOrder` | checkout/models.py:73-80 | A new order belongs to the given user, has no items, status code 0 and payment option "deposit". |
| `Checkout.Store.CreateOrder` | checkout/models.py:50-57 | Exactly one order is appended, owned by `user`, with status awaiting payment and payment option deposit. Its items copy the given cart items one for one and in order (quantity, product, price). The cart table is unchanged. |
| `Checkout.CartItem.Total` | checkout/models.py:42-43 | The row's price times its quantity. It equals the amount of the order item that checkout copies from the row, and is not negative when the price is not. `CheckoutProperties.CheckoutTotal` proves that an order made from cart rows totals to the sum of these. |
| `Checkout.Order.Total` | checkout/models.py:99-106 | The total is None exactly when the order has no items. Otherwise it is the sum of price × quantity over the items. |
| `CheckoutProperties.CheckoutTotal` | checkout/models.py:42-43 | The order made from cart items totals to the sum of the cart rows' `CartItem.total` (price × quantity). It totals to None when there were no cart items. |
| `CheckoutProperties.AmountSumPermutation` | checkout/models.py:100-105 | The SUM aggregate does not depend on the order of the rows. Two item sequences with the same rows have the same sum. |
| `CheckoutProperties.AmountSumNonNegative` | checkout/models.py:100-105 | With no negative price, the summed total is not negative. |
| `Checkout.ProductsOf` | checkout/models.py:95-97 | The result holds a product exactly when some item references it. It has no more elements than there are items. |
| `Checkout.Order.Products` | checkout/models.py:95-97 | Same as `ProductsOf`, stated for the order's own items. |
| `CheckoutProperties.CheckoutProducts` | checkout/models.py:50-57 | The order made from cart items references exactly the set of products of those cart items. |

## Left out

- `accounts/views.py`: the register, index and profile views are HTTP and template
  plumbing with no logic of their own.
- The ORM itself is not modelled: querysets, `filter`/`exists`/`get`, primary keys
  and foreign-key resolution. A product is referenced by its id. A row's identity is
  its (cart key, product) pair, so a save of a new instance (one without a primary key)
  onto a pair that already has a row overwrites that row in the model, where the
  source's INSERT would be refused by `unique_together` with an IntegrityError.
  `add_item` only saves rows it has just fetched, so it never takes that path.
  Cascade deletes are not modelled.
- Products and users are referenced by id. The catalogue and the user table are not
  part of this model, so a reference to a missing product or user is not checked.
- `Checkout.Order.Products`: returns product ids, not the catalogue's `Product`
  objects.
- Signal registration through `post_save.connect` with `dispatch_uid`: the hook is
  called explicitly after every write to the cart table.
- The `created`/`modified` timestamps depend on the clock and are not modelled.
- `__str__`, verbose names and the choices' display labels are not modelled.
- Concurrency is not modelled: the check-then-act race in `add_item` and the missing
  transaction around `create_order`. Each call is one atomic step.
- `max_digits=8` on prices, `max_length=40` on the cart key and the upper bound
  2147483647 of a `PositiveIntegerField` quantity (checkout/models.py:31, :114) are
  not modelled: quantities are unbounded, so an `add_item` that would pass the bound
  is not captured. The database enforces these bounds, not this code.
- `Checkout.Store.CreateOrder`: the status and payment option are enums with
  exactly the declared choices. The source's fields would accept any integer or
  string.
- Calling `Order.total` twice gives the same value because it is a function of the
  order's value. No separate statement is made.

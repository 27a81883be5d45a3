/** Order placement against the `orders`, `order_items`, `carts` and `cart_items`
    tables, and the lookup of one order with its items. */
module Orders {
  import opened Wrappers
  import opened Tables
  import RemoteCart

  const LoginRequiredForOrder := "You must be logged in to place an order"
  const ConfirmedStatus := "confirmed"

  /** The shipping argument of `createOrder`. */
  datatype OrderShipping = OrderShipping(address: string, city: string, state: string, zip: string, country: string)

  /** The order row `createOrder` inserts. */
  function NewOrderRow(id: nat, userId: string, totalAmount: int, s: OrderShipping): (r: OrderRow)
    ensures r.id == id && r.userId == userId && r.totalAmount == totalAmount && r.status == ConfirmedStatus
    ensures r.shippingAddress == s.address && r.shippingCity == s.city && r.shippingState == s.state
    ensures r.shippingZip == s.zip && r.shippingCountry == s.country
  {
    OrderRow(id, userId, totalAmount, s.address, s.city, s.state, s.zip, s.country, ConfirmedStatus)
  }

  /** The `order_items` row built from one cart item. */
  function OrderItemFor(orderId: nat, item: RemoteCart.CartItem, id: nat): OrderItemRow {
    OrderItemRow(id, orderId, item.variantId, item.product.name, item.variant.size, item.variant.color,
                 item.quantity, item.product.price)
  }

  /** `cartItems.map(...)`: one row per cart item, in order; the database numbers the
      batch from `firstId`. */
  function OrderItemsFor(orderId: nat, items: seq<RemoteCart.CartItem>, firstId: nat): (r: seq<OrderItemRow>)
    ensures |r| == |items|
    ensures forall k | 0 <= k < |items| :: r[k] == OrderItemFor(orderId, items[k], firstId + k)
    decreases |items|
  {
    if items == [] then []
    else [OrderItemFor(orderId, items[0], firstId)] + OrderItemsFor(orderId, items[1..], firstId + 1)
  }

  /** The value of a cart: the sum of price times quantity. */
  function CartValue(items: seq<RemoteCart.CartItem>): int {
    if items == [] then 0 else items[0].product.price * items[0].quantity + CartValue(items[1..])
  }

  function ItemCount(items: seq<RemoteCart.CartItem>): int {
    if items == [] then 0 else items[0].quantity + ItemCount(items[1..])
  }

  function OrderValue(rows: seq<OrderItemRow>): int {
    if rows == [] then 0 else rows[0].price * rows[0].quantity + OrderValue(rows[1..])
  }

  function OrderCount(rows: seq<OrderItemRow>): int {
    if rows == [] then 0 else rows[0].quantity + OrderCount(rows[1..])
  }

  /** The order's items record the same number of units and the same value as the cart. */
  lemma {:induction false} OrderItemsKeepValue(orderId: nat, items: seq<RemoteCart.CartItem>, firstId: nat)
    ensures OrderValue(OrderItemsFor(orderId, items, firstId)) == CartValue(items)
    ensures OrderCount(OrderItemsFor(orderId, items, firstId)) == ItemCount(items)
    decreases |items|
  {
    if items != [] {
      OrderItemsKeepValue(orderId, items[1..], firstId + 1);
      var r := OrderItemsFor(orderId, items, firstId);
      assert r[1..] == OrderItemsFor(orderId, items[1..], firstId + 1);
    }
  }

  /** A batch numbered from the counter can be appended. */
  lemma BatchKeepsIdsFresh(rows: seq<OrderItemRow>, n: nat, batch: seq<OrderItemRow>)
    requires OrderItemIdsFresh(rows, n)
    requires forall k | 0 <= k < |batch| :: batch[k].id == n + k
    ensures OrderItemIdsFresh(rows + batch, n + |batch|)
  {
  }

  /** `.delete().eq('cart_id', cartId)` */
  function DeleteByCart(items: seq<CartItemRow>, cartId: nat): (r: seq<CartItemRow>)
    ensures forall x :: x in r <==> x in items && x.cartId != cartId
  {
    if items == [] then []
    else if items[0].cartId == cartId then DeleteByCart(items[1..], cartId)
    else [items[0]] + DeleteByCart(items[1..], cartId)
  }

  lemma {:induction false} DeleteByCartKeepsIdsFresh(items: seq<CartItemRow>, cartId: nat, n: nat)
    requires CartItemIdsFresh(items, n)
    ensures CartItemIdsFresh(DeleteByCart(items, cartId), n)
  {
    if items != [] {
      RemoteCart.TailKeepsIdsFresh(items, n);
      DeleteByCartKeepsIdsFresh(items[1..], cartId, n);
      if items[0].cartId != cartId {
        RemoteCart.ConsKeepsIdsFresh(items[0], DeleteByCart(items[1..], cartId), n);
      }
    }
  }

  /** `cart_items` once the order is written: the rows of the user's cart are gone, unless
      the cart lookup found nothing (or failed) or the delete failed, which is ignored. */
  function CartItemsAfterOrder(items: seq<CartItemRow>, carts: seq<CartRow>, userId: string,
                               cartSelectFails: bool, deleteFails: bool): (r: seq<CartItemRow>)
    ensures (cartSelectFails || deleteFails || RemoteCart.FirstCartOf(carts, userId).None?) ==> r == items
    ensures !cartSelectFails && !deleteFails && RemoteCart.FirstCartOf(carts, userId).Some? ==>
      forall x :: x in r <==> x in items && x.cartId != RemoteCart.FirstCartOf(carts, userId).value.id
  {
    var cart := if cartSelectFails then None else RemoteCart.FirstCartOf(carts, userId);
    if cart.Some? && !deleteFails then DeleteByCart(items, cart.value.id) else items
  }

  /** The failure outcome of each remote call `createOrder` makes. */
  datatype OrderFailures = OrderFailures(orderInsert: bool, itemsInsert: bool, cartSelect: bool, cartDelete: bool)

  /** The insert of the order row. */
  method InsertOrder(db: Database, userId: string, totalAmount: int, shipping: OrderShipping)
    returns (order: OrderRow)
    requires db.Valid()
    modifies db
    ensures db.Valid() && db.nextId == old(db.nextId) + 1
    ensures order == NewOrderRow(old(db.nextId), userId, totalAmount, shipping)
    ensures db.orders == old(db.orders) + [order]
    ensures db.carts == old(db.carts) && db.products == old(db.products) && db.variants == old(db.variants)
    ensures db.orderItems == old(db.orderItems) && db.cartItems == old(db.cartItems)
  {
    var id := db.NewId();
    order := NewOrderRow(id, userId, totalAmount, shipping);
    db.orders := db.orders + [order];
  }

  /** The batch insert of the order's item rows. */
  method InsertOrderItems(db: Database, orderId: nat, items: seq<RemoteCart.CartItem>)
    requires db.Valid() && orderId < db.nextId
    modifies db
    ensures db.Valid()
    ensures db.orderItems == old(db.orderItems) + OrderItemsFor(orderId, items, old(db.nextId))
    ensures db.carts == old(db.carts) && db.products == old(db.products) && db.variants == old(db.variants)
    ensures db.orders == old(db.orders) && db.cartItems == old(db.cartItems)
  {
    var batch := OrderItemsFor(orderId, items, db.nextId);
    BatchKeepsIdsFresh(db.orderItems, db.nextId, batch);
    db.orderItems := db.orderItems + batch;
    db.nextId := db.nextId + |batch|;
  }

  /** The lookup of the user's cart and the delete of its rows; a failed delete is ignored. */
  method ClearUserCart(db: Database, userId: string, cartSelectFails: bool, deleteFails: bool)
    requires db.Valid()
    modifies db
    ensures db.Valid()
    ensures db.cartItems == CartItemsAfterOrder(old(db.cartItems), old(db.carts), userId, cartSelectFails, deleteFails)
    ensures db.carts == old(db.carts) && db.products == old(db.products) && db.variants == old(db.variants)
    ensures db.orders == old(db.orders) && db.orderItems == old(db.orderItems)
  {
    var cart := if cartSelectFails then None else RemoteCart.FirstCartOf(db.carts, userId);
    if cart.Some? && !deleteFails {
      DeleteByCartKeepsIdsFresh(db.cartItems, cart.value.id, db.nextId);
      db.cartItems := DeleteByCart(db.cartItems, cart.value.id);
    }
  }

  /** `createOrder`'s mutation: refused before any write for a signed-out user; then the
      order row, the batch of item rows and the clearing of the cart, stopping at the
      first failed insert and undoing nothing. */
  method CreateOrder(db: Database, user: Option<string>, items: seq<RemoteCart.CartItem>,
                     shipping: OrderShipping, totalAmount: int, f: OrderFailures)
    returns (r: Result<OrderRow>)
    requires db.Valid()
    modifies db
    ensures db.Valid()
    ensures db.carts == old(db.carts) && db.products == old(db.products) && db.variants == old(db.variants)
    ensures user.None? ==> (r == Err(LoginRequiredForOrder) &&
      db.orders == old(db.orders) && db.orderItems == old(db.orderItems) && db.cartItems == old(db.cartItems))
    ensures user.Some? && f.orderInsert ==> (r == Err(DatabaseError) &&
      db.orders == old(db.orders) && db.orderItems == old(db.orderItems) && db.cartItems == old(db.cartItems))
    ensures user.Some? && !f.orderInsert ==>
      var order := NewOrderRow(old(db.nextId), user.value, totalAmount, shipping);
      db.orders == old(db.orders) + [order] &&
      (f.itemsInsert ==> (r == Err(DatabaseError) &&
        db.orderItems == old(db.orderItems) && db.cartItems == old(db.cartItems))) &&
      (!f.itemsInsert ==> (r == Ok(order) &&
        db.orderItems == old(db.orderItems) + OrderItemsFor(order.id, items, old(db.nextId) + 1) &&
        db.cartItems == CartItemsAfterOrder(old(db.cartItems), old(db.carts), user.value, f.cartSelect, f.cartDelete)))
  {
    if user.None? {
      return Err(LoginRequiredForOrder);
    }
    if f.orderInsert {
      return Err(DatabaseError);
    }
    var order := InsertOrder(db, user.value, totalAmount, shipping);
    if f.itemsInsert {
      return Err(DatabaseError);
    }
    InsertOrderItems(db, order.id, items);
    ClearUserCart(db, user.value, f.cartSelect, f.cartDelete);
    r := Ok(order);
  }

  // ---------------------------------------------------------------- order details

  /** An order merged with its item rows. */
  datatype OrderWithItems = OrderWithItems(order: OrderRow, items: seq<OrderItemRow>)

  /** `.from('orders').select('*').eq('id', orderId).eq('user_id', userId).single()` */
  function FindOrder(orders: seq<OrderRow>, orderId: nat, userId: string): (r: Option<OrderRow>)
    ensures r.Some? ==> r.value in orders && r.value.id == orderId && r.value.userId == userId
    ensures r.None? <==> forall o | o in orders :: !(o.id == orderId && o.userId == userId)
  {
    if orders == [] then None
    else if orders[0].id == orderId && orders[0].userId == userId then Some(orders[0])
    else FindOrder(orders[1..], orderId, userId)
  }

  /** `.from('order_items').select('*').eq('order_id', orderId)` */
  function ItemsOfOrder(rows: seq<OrderItemRow>, orderId: nat): (r: seq<OrderItemRow>)
    ensures forall x :: x in r <==> x in rows && x.orderId == orderId
  {
    if rows == [] then []
    else if rows[0].orderId == orderId then [rows[0]] + ItemsOfOrder(rows[1..], orderId)
    else ItemsOfOrder(rows[1..], orderId)
  }

  /** The `useOrderDetails` query. `orderId` is `None` when the route parameter is empty.
      A signed-out user or an empty id yields null; a missing order or a failed select
      is thrown. */
  function OrderDetails(orders: seq<OrderRow>, orderItems: seq<OrderItemRow>, user: Option<string>,
                        orderId: Option<nat>, orderSelectFails: bool, itemsSelectFails: bool)
    : (r: Result<Option<OrderWithItems>>)
    ensures user.None? || orderId.None? ==> r == Ok(None)
    ensures r.Ok? && r.value.Some? ==>
      user.Some? && orderId.Some? && r.value.value.order in orders &&
      r.value.value.order.id == orderId.value && r.value.value.order.userId == user.value &&
      forall x :: x in r.value.value.items <==> x in orderItems && x.orderId == orderId.value
    ensures user.Some? && orderId.Some? ==>
      (r.Ok? <==> !orderSelectFails && !itemsSelectFails && FindOrder(orders, orderId.value, user.value).Some?)
    ensures user.Some? && orderId.Some? && r.Ok? ==> r.value.Some?
  {
    if user.None? || orderId.None? then Ok(None)
    else if orderSelectFails then Err(DatabaseError)
    else
      var order := FindOrder(orders, orderId.value, user.value);
      if order.None? then Err(DatabaseError)
      else if itemsSelectFails then Err(DatabaseError)
      else Ok(Some(OrderWithItems(order.value, ItemsOfOrder(orderItems, orderId.value))))
  }

  /** A placed order can be read back, with exactly the rows built from the cart. */
  lemma PlacedOrderReadsBack(orders: seq<OrderRow>, orderItems: seq<OrderItemRow>, n: nat,
                             userId: string, items: seq<RemoteCart.CartItem>,
                             shipping: OrderShipping, totalAmount: int)
    requires OrderIdsFresh(orders, n) && OrderItemIdsFresh(orderItems, n)
    requires forall i | 0 <= i < |orderItems| :: orderItems[i].orderId < n
    ensures var order := NewOrderRow(n, userId, totalAmount, shipping);
      var details := OrderDetails(orders + [order], orderItems + OrderItemsFor(n, items, n + 1),
                                  Some(userId), Some(n), false, false);
      details.Ok? && details.value.Some? && details.value.value.order == order &&
      details.value.value.items == OrderItemsFor(n, items, n + 1)
  {
    var order := NewOrderRow(n, userId, totalAmount, shipping);
    FindNewOrder(orders, n, order);
    ItemsOfNewOrder(orderItems, n, OrderItemsFor(n, items, n + 1));
  }

  lemma {:induction false} FindNewOrder(orders: seq<OrderRow>, n: nat, order: OrderRow)
    requires forall i | 0 <= i < |orders| :: orders[i].id < n
    requires order.id == n
    ensures FindOrder(orders + [order], n, order.userId) == Some(order)
  {
    if orders != [] {
      assert (orders + [order])[1..] == orders[1..] + [order];
      FindNewOrder(orders[1..], n, order);
    }
  }

  lemma {:induction false} ItemsOfNewOrder(rows: seq<OrderItemRow>, n: nat, batch: seq<OrderItemRow>)
    requires forall i | 0 <= i < |rows| :: rows[i].id < n && rows[i].orderId < n
    requires forall k | 0 <= k < |batch| :: batch[k].orderId == n
    ensures ItemsOfOrder(rows + batch, n) == batch
    decreases |rows| + |batch|
  {
    if rows != [] {
      assert (rows + batch)[1..] == rows[1..] + batch;
      ItemsOfNewOrder(rows[1..], n, batch);
    } else if batch != [] {
      assert [] + batch == batch && [] + batch[1..] == batch[1..];
      ItemsOfNewOrder([], n, batch[1..]);
    } else {
      assert rows + batch == [];
    }
  }
}

/** The four tables the shopping hooks write to, and the two they only read, kept in
    memory. Row ids, which the database generates, are drawn from a counter. */
module Tables {
  import opened Wrappers

  datatype ProductRow = ProductRow(id: nat, name: string, price: int, imageUrls: Option<seq<string>>)

  datatype VariantRow = VariantRow(id: nat, productId: nat, size: Option<string>, color: Option<string>)

  datatype CartRow = CartRow(id: nat, userId: string)

  datatype CartItemRow = CartItemRow(id: nat, cartId: nat, variantId: nat, quantity: int)

  /** An `orders` row; `totalAmount` is in integer cents. */
  datatype OrderRow = OrderRow(
    id: nat, userId: string, totalAmount: int,
    shippingAddress: string, shippingCity: string, shippingState: string,
    shippingZip: string, shippingCountry: string, status: string)

  datatype OrderItemRow = OrderItemRow(
    id: nat, orderId: nat, variantId: nat, productName: string,
    productSize: Option<string>, productColor: Option<string>, quantity: int, price: int)

  /** The error object a failed query or write hands back. Its text comes from the
      database and is not modelled. */
  const DatabaseError := "database error"

  ghost predicate CartIdsFresh(rows: seq<CartRow>, next: nat) {
    (forall i | 0 <= i < |rows| :: rows[i].id < next) &&
    (forall i, j | 0 <= i < j < |rows| :: rows[i].id != rows[j].id)
  }

  ghost predicate CartItemIdsFresh(rows: seq<CartItemRow>, next: nat) {
    (forall i | 0 <= i < |rows| :: rows[i].id < next) &&
    (forall i, j | 0 <= i < j < |rows| :: rows[i].id != rows[j].id)
  }

  ghost predicate OrderIdsFresh(rows: seq<OrderRow>, next: nat) {
    (forall i | 0 <= i < |rows| :: rows[i].id < next) &&
    (forall i, j | 0 <= i < j < |rows| :: rows[i].id != rows[j].id)
  }

  ghost predicate OrderItemIdsFresh(rows: seq<OrderItemRow>, next: nat) {
    (forall i | 0 <= i < |rows| :: rows[i].id < next) &&
    (forall i, j | 0 <= i < j < |rows| :: rows[i].id != rows[j].id)
  }

  class Database {
    var products: seq<ProductRow>
    var variants: seq<VariantRow>
    var carts: seq<CartRow>
    var cartItems: seq<CartItemRow>
    var orders: seq<OrderRow>
    var orderItems: seq<OrderItemRow>
    /** The next id the database hands out. */
    var nextId: nat

    /** Every written row has its own id, below the next one to be handed out, and
        every order item refers to an id handed out before. */
    ghost predicate Valid()
      reads this
    {
      CartIdsFresh(carts, nextId) && CartItemIdsFresh(cartItems, nextId) &&
      OrderIdsFresh(orders, nextId) && OrderItemIdsFresh(orderItems, nextId) &&
      (forall i | 0 <= i < |orderItems| :: orderItems[i].orderId < nextId)
    }

    /** A database holding the catalogue and nothing else. */
    constructor (products: seq<ProductRow>, variants: seq<VariantRow>)
      ensures Valid()
      ensures this.products == products && this.variants == variants
      ensures carts == [] && cartItems == [] && orders == [] && orderItems == []
    {
      this.products := products;
      this.variants := variants;
      carts, cartItems, orders, orderItems := [], [], [], [];
      nextId := 0;
    }

    /** The id the next insert receives. */
    method NewId() returns (id: nat)
      requires Valid()
      modifies this
      ensures Valid()
      ensures id == old(nextId) && nextId == id + 1
      ensures products == old(products) && variants == old(variants) && carts == old(carts)
      ensures cartItems == old(cartItems) && orders == old(orders) && orderItems == old(orderItems)
    {
      id := nextId;
      nextId := nextId + 1;
    }
  }
}

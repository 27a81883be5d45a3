/** The signed-in user's cart kept in the `carts` and `cart_items` tables: the lazy
    creation of the cart, the add, update and remove mutations, and the mapping of the
    joined rows to the cart items the pages display. */
module RemoteCart {
  import opened Wrappers
  import opened Tables

  const LoginRequiredForCart := "You must be logged in to add items to cart"

  // ---------------------------------------------------------------- lookups

  /** `.from('carts').select('*').eq('user_id', userId).limit(1)`: the user's first cart. */
  function FirstCartOf(carts: seq<CartRow>, userId: string): (r: Option<CartRow>)
    ensures r.None? <==> forall i | 0 <= i < |carts| :: carts[i].userId != userId
    ensures r.Some? ==> exists i | 0 <= i < |carts| ::
      carts[i] == r.value && r.value.userId == userId && forall j | 0 <= j < i :: carts[j].userId != userId
  {
    if carts == [] then None
    else if carts[0].userId == userId then Some(carts[0])
    else
      var r := FirstCartOf(carts[1..], userId);
      if r.Some? then
        var i :| 0 <= i < |carts[1..]| && carts[1..][i] == r.value && r.value.userId == userId
          && forall j | 0 <= j < i :: carts[1..][j].userId != userId;
        assert carts[i + 1] == r.value;
        assert forall j | 1 <= j < i + 1 :: carts[j] == carts[1..][j - 1];
        r
      else
        assert forall i | 1 <= i < |carts| :: carts[i] == carts[1..][i - 1];
        r
  }

  predicate HoldsVariant(row: CartItemRow, cartId: nat, variantId: nat) {
    row.cartId == cartId && row.variantId == variantId
  }

  /** The position of the first row of the cart that holds the variant. */
  function FirstItemOf(items: seq<CartItemRow>, cartId: nat, variantId: nat): (r: Option<nat>)
    ensures r.None? <==> forall i | 0 <= i < |items| :: !HoldsVariant(items[i], cartId, variantId)
    ensures r.Some? ==> (r.value < |items| && HoldsVariant(items[r.value], cartId, variantId)
      && forall j | 0 <= j < r.value :: !HoldsVariant(items[j], cartId, variantId))
  {
    if items == [] then None
    else if HoldsVariant(items[0], cartId, variantId) then Some(0)
    else
      var r := FirstItemOf(items[1..], cartId, variantId);
      assert forall i | 1 <= i < |items| :: items[i] == items[1..][i - 1];
      if r.Some? then Some(r.value + 1) else None
  }

  /** What `getCart` settles on: the user's first cart, or a new one when the lookup
      found none or failed (a failed lookup reads as an empty result). */
  datatype CartLookup = Existing(cart: CartRow) | Created(cart: CartRow)

  function LookupCart(carts: seq<CartRow>, nextId: nat, userId: string, selectFails: bool): (r: CartLookup)
    ensures r.cart.userId == userId
    ensures r.Existing? <==> !selectFails && FirstCartOf(carts, userId).Some?
    ensures r.Existing? ==> r.cart in carts
    ensures r.Created? ==> r.cart.id == nextId
  {
    var first := FirstCartOf(carts, userId);
    if !selectFails && first.Some? then Existing(first.value) else Created(CartRow(nextId, userId))
  }

  // ---------------------------------------------------------------- table updates

  /** `.update({ quantity }).eq('id', itemId)` */
  function UpdateQuantityById(items: seq<CartItemRow>, itemId: nat, quantity: int): (r: seq<CartItemRow>)
    ensures |r| == |items|
  {
    if items == [] then []
    else [if items[0].id == itemId then items[0].(quantity := quantity) else items[0]]
         + UpdateQuantityById(items[1..], itemId, quantity)
  }

  /** `.delete().eq('id', itemId)` */
  function DeleteById(items: seq<CartItemRow>, itemId: nat): (r: seq<CartItemRow>)
    ensures forall x :: x in r <==> x in items && x.id != itemId
    ensures |r| <= |items|
  {
    if items == [] then []
    else if items[0].id == itemId then DeleteById(items[1..], itemId)
    else [items[0]] + DeleteById(items[1..], itemId)
  }

  lemma TailKeepsIdsFresh(items: seq<CartItemRow>, n: nat)
    requires items != [] && CartItemIdsFresh(items, n)
    ensures CartItemIdsFresh(items[1..], n)
    ensures forall x | x in items[1..] :: x.id != items[0].id
  {
    forall x | x in items[1..] ensures x.id != items[0].id {
      var k :| 0 <= k < |items[1..]| && items[1..][k] == x;
      assert items[k + 1] == x;
    }
  }

  lemma ConsKeepsIdsFresh(row: CartItemRow, rest: seq<CartItemRow>, n: nat)
    requires CartItemIdsFresh(rest, n) && row.id < n
    requires forall x | x in rest :: x.id != row.id
    ensures CartItemIdsFresh([row] + rest, n)
  {
    var r := [row] + rest;
    forall i, j | 0 <= i < j < |r| ensures r[i].id != r[j].id {
      assert r[j] == rest[j - 1];
      if i > 0 {
        assert r[i] == rest[i - 1];
      } else {
        assert rest[j - 1] in rest;
      }
    }
  }

  /** Deleting rows keeps the remaining ids distinct and below the counter. */
  lemma {:induction false} DeleteKeepsIdsFresh(items: seq<CartItemRow>, itemId: nat, n: nat)
    requires CartItemIdsFresh(items, n)
    ensures CartItemIdsFresh(DeleteById(items, itemId), n)
  {
    if items != [] {
      TailKeepsIdsFresh(items, n);
      DeleteKeepsIdsFresh(items[1..], itemId, n);
      if items[0].id != itemId {
        ConsKeepsIdsFresh(items[0], DeleteById(items[1..], itemId), n);
      }
    }
  }

  /** `UpdateQuantityById` row by row. */
  lemma {:induction false} UpdatePointwise(items: seq<CartItemRow>, itemId: nat, quantity: int, k: nat)
    requires k < |items|
    ensures UpdateQuantityById(items, itemId, quantity)[k]
      == if items[k].id == itemId then items[k].(quantity := quantity) else items[k]
  {
    if k > 0 {
      UpdatePointwise(items[1..], itemId, quantity, k - 1);
    }
  }

  /** An update keeps every row's id. */
  lemma UpdateKeepsIdsFresh(items: seq<CartItemRow>, itemId: nat, quantity: int, n: nat)
    requires CartItemIdsFresh(items, n)
    ensures CartItemIdsFresh(UpdateQuantityById(items, itemId, quantity), n)
  {
    forall k | 0 <= k < |items| ensures UpdateQuantityById(items, itemId, quantity)[k].id == items[k].id {
      UpdatePointwise(items, itemId, quantity, k);
    }
  }

  /** An update by id changes only the row with that id. */
  lemma UpdateOneRow(items: seq<CartItemRow>, n: nat, i: nat, quantity: int)
    requires CartItemIdsFresh(items, n) && i < |items|
    ensures UpdateQuantityById(items, items[i].id, quantity) == items[i := items[i].(quantity := quantity)]
    ensures CartItemIdsFresh(UpdateQuantityById(items, items[i].id, quantity), n)
  {
    var r := UpdateQuantityById(items, items[i].id, quantity);
    forall k | 0 <= k < |items| ensures r[k] == items[i := items[i].(quantity := quantity)][k] {
      UpdatePointwise(items, items[i].id, quantity, k);
      if k != i {
        assert items[k].id != items[i].id;
      }
    }
  }

  /** `cart_items` after a successful `addToCart` write: the first row of the cart that
      holds the variant gets the quantity added, or a new row is inserted. A failed
      lookup of existing rows reads as none found. */
  function ItemsAfterAdd(items: seq<CartItemRow>, cartId: nat, variantId: nat, quantity: int,
                         newId: nat, lookupFails: bool): seq<CartItemRow>
  {
    var existing := if lookupFails then None else FirstItemOf(items, cartId, variantId);
    if existing.Some? then
      UpdateQuantityById(items, items[existing.value].id, items[existing.value].quantity + quantity)
    else items + [CartItemRow(newId, cartId, variantId, quantity)]
  }

  /** Each cart holds a variant in at most one row. */
  ghost predicate OneRowPerVariant(items: seq<CartItemRow>) {
    forall i, j | 0 <= i < j < |items| :: !HoldsVariant(items[j], items[i].cartId, items[i].variantId)
  }

  /** A found row is updated by its id. */
  lemma AddFoundUnfolds(items: seq<CartItemRow>, cartId: nat, variantId: nat, quantity: int, newId: nat)
    requires FirstItemOf(items, cartId, variantId).Some?
    ensures var i := FirstItemOf(items, cartId, variantId).value;
      ItemsAfterAdd(items, cartId, variantId, quantity, newId, false)
        == UpdateQuantityById(items, items[i].id, items[i].quantity + quantity)
  {
  }

  /** Adding a variant already in the cart adds the quantity to its row and inserts nothing. */
  lemma AddExistingVariant(items: seq<CartItemRow>, n: nat, cartId: nat, variantId: nat, quantity: int, newId: nat)
    requires CartItemIdsFresh(items, n)
    requires FirstItemOf(items, cartId, variantId).Some?
    ensures var i := FirstItemOf(items, cartId, variantId).value;
      ItemsAfterAdd(items, cartId, variantId, quantity, newId, false)
        == items[i := items[i].(quantity := items[i].quantity + quantity)]
  {
    var i := FirstItemOf(items, cartId, variantId).value;
    AddFoundUnfolds(items, cartId, variantId, quantity, newId);
    UpdateOneRow(items, n, i, items[i].quantity + quantity);
  }

  /** Adding a variant not in the cart appends one row with the cart, variant and quantity. */
  lemma AddNewVariant(items: seq<CartItemRow>, cartId: nat, variantId: nat, quantity: int, newId: nat)
    requires forall i | 0 <= i < |items| :: !HoldsVariant(items[i], cartId, variantId)
    ensures ItemsAfterAdd(items, cartId, variantId, quantity, newId, false)
      == items + [CartItemRow(newId, cartId, variantId, quantity)]
  {
  }

  /** A successful lookup keeps each variant in at most one row of each cart. */
  lemma AddKeepsOneRowPerVariant(items: seq<CartItemRow>, n: nat, cartId: nat, variantId: nat, quantity: int)
    requires CartItemIdsFresh(items, n) && OneRowPerVariant(items)
    ensures OneRowPerVariant(ItemsAfterAdd(items, cartId, variantId, quantity, n, false))
  {
    var r := ItemsAfterAdd(items, cartId, variantId, quantity, n, false);
    if FirstItemOf(items, cartId, variantId).None? {
      forall i, j | 0 <= i < j < |r| ensures !HoldsVariant(r[j], r[i].cartId, r[i].variantId) {
        if j == |items| {
          assert r[i] == items[i];
        }
      }
    } else {
      var k := FirstItemOf(items, cartId, variantId).value;
      forall i, j | 0 <= i < j < |r| ensures !HoldsVariant(r[j], r[i].cartId, r[i].variantId) {
        UpdatePointwise(items, items[k].id, items[k].quantity + quantity, i);
        UpdatePointwise(items, items[k].id, items[k].quantity + quantity, j);
        assert !HoldsVariant(items[j], items[i].cartId, items[i].variantId);
      }
    }
  }

  /** Two successful adds of a variant the cart did not hold leave one row for it,
      carrying both quantities. */
  lemma AddTwiceSumsQuantities(items: seq<CartItemRow>, cartId: nat, variantId: nat, q1: int, q2: int, n: nat, m: nat)
    requires CartItemIdsFresh(items, n)
    requires forall i | 0 <= i < |items| :: !HoldsVariant(items[i], cartId, variantId)
    ensures ItemsAfterAdd(ItemsAfterAdd(items, cartId, variantId, q1, n, false), cartId, variantId, q2, m, false)
      == items + [CartItemRow(n, cartId, variantId, q1 + q2)]
  {
    var once := items + [CartItemRow(n, cartId, variantId, q1)];
    AddNewVariant(items, cartId, variantId, q1, n);
    FoundAtEnd(items, cartId, variantId, q1, n);
    AddFoundUnfolds(once, cartId, variantId, q2, m);
    AppendKeepsIdsFresh(items, n, CartItemRow(n, cartId, variantId, q1));
    UpdateOneRow(once, n + 1, |items|, q1 + q2);
  }

  lemma FoundAtEnd(items: seq<CartItemRow>, cartId: nat, variantId: nat, quantity: int, n: nat)
    requires forall i | 0 <= i < |items| :: !HoldsVariant(items[i], cartId, variantId)
    ensures FirstItemOf(items + [CartItemRow(n, cartId, variantId, quantity)], cartId, variantId) == Some(|items|)
  {
    var once := items + [CartItemRow(n, cartId, variantId, quantity)];
    assert HoldsVariant(once[|items|], cartId, variantId);
  }

  /** A row with the counter's id can be appended. */
  lemma AppendKeepsIdsFresh(items: seq<CartItemRow>, n: nat, row: CartItemRow)
    requires CartItemIdsFresh(items, n) && row.id == n
    ensures CartItemIdsFresh(items + [row], n + 1)
  {
  }

  // ---------------------------------------------------------------- the cart query

  /** The row's product as the page sees it; the image is the first URL, if any. */
  datatype ProductSummary = ProductSummary(name: string, price: int, imageUrl: Option<string>)

  datatype VariantSummary = VariantSummary(size: Option<string>, color: Option<string>)

  /** `CartItem` */
  datatype CartItem = CartItem(id: nat, variantId: nat, quantity: int, product: ProductSummary, variant: VariantSummary)

  function FindVariant(variants: seq<VariantRow>, id: nat): (r: Option<VariantRow>)
    ensures r.Some? ==> r.value in variants && r.value.id == id
    ensures r.None? <==> forall v | v in variants :: v.id != id
  {
    if variants == [] then None
    else if variants[0].id == id then Some(variants[0])
    else FindVariant(variants[1..], id)
  }

  function FindProductRow(products: seq<ProductRow>, id: nat): (r: Option<ProductRow>)
    ensures r.Some? ==> r.value in products && r.value.id == id
    ensures r.None? <==> forall p | p in products :: p.id != id
  {
    if products == [] then None
    else if products[0].id == id then Some(products[0])
    else FindProductRow(products[1..], id)
  }

  /** One joined row mapped to a cart item; a missing variant or product, or a product
      whose `image_urls` is null (indexing it throws), makes the mapping throw, which is
      `None` here. An empty image list only leaves the image undefined. */
  function ToCartItem(row: CartItemRow, variants: seq<VariantRow>, products: seq<ProductRow>): (r: Option<CartItem>)
    ensures r.Some? ==> r.value.id == row.id && r.value.variantId == row.variantId && r.value.quantity == row.quantity
    ensures r.Some? ==> exists v, p | v in variants && p in products ::
      v.id == row.variantId && p.id == v.productId && p.imageUrls.Some? &&
      r.value.product == ProductSummary(p.name, p.price,
        if |p.imageUrls.value| > 0 then Some(p.imageUrls.value[0]) else None) &&
      r.value.variant == VariantSummary(v.size, v.color)
    ensures r.None? <==> (FindVariant(variants, row.variantId).None? ||
      FindProductRow(products, FindVariant(variants, row.variantId).value.productId).None? ||
      FindProductRow(products, FindVariant(variants, row.variantId).value.productId).value.imageUrls.None?)
  {
    var v := FindVariant(variants, row.variantId);
    if v.None? then None
    else
      var p := FindProductRow(products, v.value.productId);
      if p.None? || p.value.imageUrls.None? then None
      else
        var urls := p.value.imageUrls.value;
        Some(CartItem(row.id, row.variantId, row.quantity,
          ProductSummary(p.value.name, p.value.price, if |urls| > 0 then Some(urls[0]) else None),
          VariantSummary(v.value.size, v.value.color)))
  }

  /** `.from('cart_items').select(...).eq('cart_id', cartId)` */
  function RowsOfCart(items: seq<CartItemRow>, cartId: nat): (r: seq<CartItemRow>)
    ensures forall x :: x in r <==> x in items && x.cartId == cartId
  {
    if items == [] then []
    else if items[0].cartId == cartId then [items[0]] + RowsOfCart(items[1..], cartId)
    else RowsOfCart(items[1..], cartId)
  }

  /** `data.map(...)`: all rows mapped in order, or `None` when one of them throws. */
  function ToCartItems(rows: seq<CartItemRow>, variants: seq<VariantRow>, products: seq<ProductRow>): (r: Option<seq<CartItem>>)
    ensures r.Some? <==> forall i | 0 <= i < |rows| :: ToCartItem(rows[i], variants, products).Some?
    ensures r.Some? ==> (|r.value| == |rows| &&
      forall i | 0 <= i < |rows| :: r.value[i] == ToCartItem(rows[i], variants, products).value)
  {
    if rows == [] then Some([])
    else
      var head := ToCartItem(rows[0], variants, products);
      var tail := ToCartItems(rows[1..], variants, products);
      assert forall i | 1 <= i < |rows| :: rows[i] == rows[1..][i - 1];
      if head.Some? && tail.Some? then Some([head.value] + tail.value) else None
  }

  /** The items of a cart are the rows of that cart, in table order. */
  lemma CartItemsListTheCartRows(items: seq<CartItemRow>, cartId: nat, variants: seq<VariantRow>, products: seq<ProductRow>)
    requires ToCartItems(RowsOfCart(items, cartId), variants, products).Some?
    ensures forall c | c in ToCartItems(RowsOfCart(items, cartId), variants, products).value ::
      exists row | row in items :: row.cartId == cartId && row.id == c.id && row.quantity == c.quantity
  {
    var rows := RowsOfCart(items, cartId);
    var r := ToCartItems(rows, variants, products).value;
    forall c | c in r
      ensures exists row | row in items :: row.cartId == cartId && row.id == c.id && row.quantity == c.quantity
    {
      var i :| 0 <= i < |r| && r[i] == c;
      assert rows[i] in rows;
    }
  }

  // ---------------------------------------------------------------- the hook

  /** The failure outcome of each remote call a hook operation makes. */
  datatype CartFailures = CartFailures(cartSelect: bool, cartInsert: bool, itemsSelect: bool, write: bool)

  /** `getCart`: nothing for a signed-out user, the user's first cart, or a new cart
      inserted for the user. A failed insert is thrown. */
  method GetCart(db: Database, user: Option<string>, selectFails: bool, insertFails: bool)
    returns (r: Result<Option<CartRow>>)
    requires db.Valid()
    modifies db
    ensures db.Valid()
    ensures db.cartItems == old(db.cartItems) && db.orders == old(db.orders) && db.orderItems == old(db.orderItems)
    ensures db.products == old(db.products) && db.variants == old(db.variants)
    ensures user.None? ==> r == Ok(None) && db.carts == old(db.carts) && db.nextId == old(db.nextId)
    ensures user.Some? ==>
      var l := LookupCart(old(db.carts), old(db.nextId), user.value, selectFails);
      (l.Existing? ==> r == Ok(Some(l.cart)) && db.carts == old(db.carts) && db.nextId == old(db.nextId)) &&
      (l.Created? && insertFails ==> r == Err(DatabaseError) && db.carts == old(db.carts) && db.nextId == old(db.nextId)) &&
      (l.Created? && !insertFails ==> r == Ok(Some(l.cart)) && db.carts == old(db.carts) + [l.cart] && db.nextId == old(db.nextId) + 1)
  {
    if user.None? {
      return Ok(None);
    }
    var first := FirstCartOf(db.carts, user.value);
    if !selectFails && first.Some? {
      return Ok(first);
    }
    if insertFails {
      return Err(DatabaseError);
    }
    var id := db.NewId();
    var cart := CartRow(id, user.value);
    db.carts := db.carts + [cart];
    r := Ok(Some(cart));
  }

  /** `.update({ quantity: existingItems[0].quantity + quantity }).eq('id', ...)` */
  method IncreaseRow(db: Database, k: nat, quantity: int)
    requires db.Valid() && k < |db.cartItems|
    modifies db
    ensures db.Valid()
    ensures db.cartItems == UpdateQuantityById(old(db.cartItems), old(db.cartItems[k].id), old(db.cartItems[k].quantity) + quantity)
    ensures db.carts == old(db.carts) && db.orders == old(db.orders) && db.orderItems == old(db.orderItems)
    ensures db.products == old(db.products) && db.variants == old(db.variants)
  {
    var row := db.cartItems[k];
    UpdateKeepsIdsFresh(db.cartItems, row.id, row.quantity + quantity, db.nextId);
    db.cartItems := UpdateQuantityById(db.cartItems, row.id, row.quantity + quantity);
  }

  /** `.insert({ cart_id, product_variant_id, quantity })` */
  method InsertRow(db: Database, cartId: nat, variantId: nat, quantity: int)
    requires db.Valid()
    modifies db
    ensures db.Valid()
    ensures db.cartItems == old(db.cartItems) + [CartItemRow(old(db.nextId), cartId, variantId, quantity)]
    ensures db.carts == old(db.carts) && db.orders == old(db.orders) && db.orderItems == old(db.orderItems)
    ensures db.products == old(db.products) && db.variants == old(db.variants)
  {
    AppendKeepsIdsFresh(db.cartItems, db.nextId, CartItemRow(db.nextId, cartId, variantId, quantity));
    var id := db.NewId();
    db.cartItems := db.cartItems + [CartItemRow(id, cartId, variantId, quantity)];
  }

  /** The write half of `addToCart` once the cart is known. */
  method WriteItem(db: Database, cartId: nat, variantId: nat, quantity: int, lookupFails: bool)
    requires db.Valid()
    modifies db
    ensures db.Valid()
    ensures db.cartItems == ItemsAfterAdd(old(db.cartItems), cartId, variantId, quantity, old(db.nextId), lookupFails)
    ensures !lookupFails && OneRowPerVariant(old(db.cartItems)) ==> OneRowPerVariant(db.cartItems)
    ensures db.carts == old(db.carts) && db.orders == old(db.orders) && db.orderItems == old(db.orderItems)
    ensures db.products == old(db.products) && db.variants == old(db.variants)
  {
    if !lookupFails && OneRowPerVariant(db.cartItems) {
      AddKeepsOneRowPerVariant(db.cartItems, db.nextId, cartId, variantId, quantity);
    }
    var existing := if lookupFails then None else FirstItemOf(db.cartItems, cartId, variantId);
    if existing.Some? {
      IncreaseRow(db, existing.value, quantity);
    } else {
      InsertRow(db, cartId, variantId, quantity);
    }
  }

  /** `addToCart`'s mutation: signed-out users are refused before any read or write;
      otherwise the cart is found or created and the variant's row is added to or
      inserted. Every failed write is thrown. */
  method AddToCart(db: Database, user: Option<string>, variantId: nat, quantity: int, f: CartFailures)
    returns (r: Result<()>)
    requires db.Valid()
    modifies db
    ensures db.Valid()
    ensures !f.itemsSelect && OneRowPerVariant(old(db.cartItems)) ==> OneRowPerVariant(db.cartItems)
    ensures db.orders == old(db.orders) && db.orderItems == old(db.orderItems)
    ensures db.products == old(db.products) && db.variants == old(db.variants)
    ensures user.None? ==> r == Err(LoginRequiredForCart) && db.carts == old(db.carts) && db.cartItems == old(db.cartItems)
    ensures user.Some? ==>
      var l := LookupCart(old(db.carts), old(db.nextId), user.value, f.cartSelect);
      var nextAfterCart := if l.Created? then old(db.nextId) + 1 else old(db.nextId);
      (l.Created? && f.cartInsert ==> r == Err(DatabaseError) && db.carts == old(db.carts) && db.cartItems == old(db.cartItems)) &&
      (!(l.Created? && f.cartInsert) ==>
        db.carts == (if l.Created? then old(db.carts) + [l.cart] else old(db.carts)) &&
        (f.write ==> r == Err(DatabaseError) && db.cartItems == old(db.cartItems)) &&
        (!f.write ==> (r == Ok(()) &&
          db.cartItems == ItemsAfterAdd(old(db.cartItems), l.cart.id, variantId, quantity, nextAfterCart, f.itemsSelect))))
  {
    if user.None? {
      return Err(LoginRequiredForCart);
    }
    var got := GetCart(db, user, f.cartSelect, f.cartInsert);
    if got.Err? {
      return Err(got.message);
    }
    if f.write {
      return Err(DatabaseError);
    }
    WriteItem(db, got.value.value.id, variantId, quantity, f.itemsSelect);
    r := Ok(());
  }

  /** `updateCartItem`'s mutation: sets the quantity exactly, with no sign-in check. */
  method UpdateCartItem(db: Database, itemId: nat, quantity: int, writeFails: bool) returns (r: Result<()>)
    requires db.Valid()
    modifies db
    ensures db.Valid()
    ensures writeFails ==> r == Err(DatabaseError) && db.cartItems == old(db.cartItems)
    ensures !writeFails ==> r == Ok(()) && db.cartItems == UpdateQuantityById(old(db.cartItems), itemId, quantity)
    ensures db.carts == old(db.carts) && db.orders == old(db.orders) && db.orderItems == old(db.orderItems)
    ensures db.products == old(db.products) && db.variants == old(db.variants) && db.nextId == old(db.nextId)
  {
    if writeFails {
      return Err(DatabaseError);
    }
    UpdateKeepsIdsFresh(db.cartItems, itemId, quantity, db.nextId);
    db.cartItems := UpdateQuantityById(db.cartItems, itemId, quantity);
    r := Ok(());
  }

  /** `removeFromCart`'s mutation: deletes the row with that id, with no sign-in check. */
  method RemoveFromCart(db: Database, itemId: nat, writeFails: bool) returns (r: Result<()>)
    requires db.Valid()
    modifies db
    ensures db.Valid()
    ensures writeFails ==> r == Err(DatabaseError) && db.cartItems == old(db.cartItems)
    ensures !writeFails ==> r == Ok(()) && db.cartItems == DeleteById(old(db.cartItems), itemId)
    ensures db.carts == old(db.carts) && db.orders == old(db.orders) && db.orderItems == old(db.orderItems)
    ensures db.products == old(db.products) && db.variants == old(db.variants) && db.nextId == old(db.nextId)
  {
    if writeFails {
      return Err(DatabaseError);
    }
    DeleteKeepsIdsFresh(db.cartItems, itemId, db.nextId);
    db.cartItems := DeleteById(db.cartItems, itemId);
    r := Ok(());
  }

  /** The cart query, read as `cart: cartQuery.data || []`: empty for a signed-out
      user and whenever the query throws; reading it may create the user's cart. */
  method LoadCart(db: Database, user: Option<string>, f: CartFailures) returns (items: seq<CartItem>)
    requires db.Valid()
    modifies db
    ensures db.Valid()
    ensures db.cartItems == old(db.cartItems) && db.orders == old(db.orders) && db.orderItems == old(db.orderItems)
    ensures db.products == old(db.products) && db.variants == old(db.variants)
    ensures user.None? ==> items == [] && db.carts == old(db.carts) && db.nextId == old(db.nextId)
    ensures user.Some? ==>
      var l := LookupCart(old(db.carts), old(db.nextId), user.value, f.cartSelect);
      var rows := ToCartItems(RowsOfCart(old(db.cartItems), l.cart.id), old(db.variants), old(db.products));
      items == (if (l.Created? && f.cartInsert) || f.itemsSelect || rows.None? then [] else rows.value)
    ensures user.Some? ==>
      var l := LookupCart(old(db.carts), old(db.nextId), user.value, f.cartSelect);
      (l.Existing? || f.cartInsert ==> db.carts == old(db.carts) && db.nextId == old(db.nextId)) &&
      (l.Created? && !f.cartInsert ==> db.carts == old(db.carts) + [l.cart] && db.nextId == old(db.nextId) + 1)
  {
    var got := GetCart(db, user, f.cartSelect, f.cartInsert);
    if got.Err? || got.value.None? || f.itemsSelect {
      return [];
    }
    var rows := ToCartItems(RowsOfCart(db.cartItems, got.value.value.id), db.variants, db.products);
    items := if rows.None? then [] else rows.value;
  }
}

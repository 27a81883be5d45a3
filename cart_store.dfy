/** The guest cart store: the list of cart lines keyed by (id, size, color), the
    operations that replace it, and the totals derived from it after every change. */
module CartStore {

  /** One line of the cart. `price` is in integer cents. */
  datatype CartLine = CartLine(id: string, name: string, price: int, image: string,
                               size: string, color: string, quantity: int)

  /** The argument of `addToCart`: a cart line without its quantity. */
  datatype LineInput = LineInput(id: string, name: string, price: int, image: string,
                                 size: string, color: string)

  /** The line `item` becomes with the given quantity. */
  function WithQuantity(item: LineInput, quantity: int): CartLine {
    CartLine(item.id, item.name, item.price, item.image, item.size, item.color, quantity)
  }

  /** The key comparison every operation uses. */
  predicate Matches(line: CartLine, id: string, size: string, color: string) {
    line.id == id && line.size == size && line.color == color
  }

  predicate HasKey(lines: seq<CartLine>, id: string, size: string, color: string) {
    exists i | 0 <= i < |lines| :: Matches(lines[i], id, size, color)
  }

  /** The store's central invariant: no two lines share (id, size, color). */
  ghost predicate UniqueKeys(lines: seq<CartLine>) {
    forall i, j | 0 <= i < j < |lines| :: !Matches(lines[i], lines[j].id, lines[j].size, lines[j].color)
  }

  ghost predicate PositiveQuantities(lines: seq<CartLine>) {
    forall i | 0 <= i < |lines| :: lines[i].quantity >= 1
  }

  /** What every cart built through the store's operations satisfies. */
  ghost predicate WellFormed(lines: seq<CartLine>) {
    UniqueKeys(lines) && PositiveQuantities(lines)
  }

  // ---------------------------------------------------------------------------
  // Derived totals

  /** `cart.reduce((total, item) => total + item.quantity, 0)` */
  function TotalItems(lines: seq<CartLine>): int {
    if lines == [] then 0 else lines[0].quantity + TotalItems(lines[1..])
  }

  /** `cart.reduce((sum, item) => sum + item.price * item.quantity, 0)` */
  function Subtotal(lines: seq<CartLine>): int {
    if lines == [] then 0 else lines[0].price * lines[0].quantity + Subtotal(lines[1..])
  }

  lemma {:induction false} TotalsOfAppend(lines: seq<CartLine>, line: CartLine)
    ensures TotalItems(lines + [line]) == TotalItems(lines) + line.quantity
    ensures Subtotal(lines + [line]) == Subtotal(lines) + line.price * line.quantity
  {
    if lines != [] {
      assert (lines + [line])[1..] == lines[1..] + [line];
      TotalsOfAppend(lines[1..], line);
    }
  }

  lemma {:induction false} TotalsOfReplace(lines: seq<CartLine>, k: nat, line: CartLine)
    requires k < |lines|
    ensures TotalItems(lines[k := line]) == TotalItems(lines) - lines[k].quantity + line.quantity
    ensures Subtotal(lines[k := line]) == Subtotal(lines) - lines[k].price * lines[k].quantity + line.price * line.quantity
  {
    if k > 0 {
      assert lines[k := line][1..] == lines[1..][k - 1 := line];
      TotalsOfReplace(lines[1..], k - 1, line);
    } else {
      assert lines[k := line][1..] == lines[1..];
    }
  }

  /** With positive quantities, the item count is zero exactly when the cart is empty. */
  lemma {:induction false} NoItemsIffEmpty(lines: seq<CartLine>)
    requires PositiveQuantities(lines)
    ensures TotalItems(lines) == 0 <==> lines == []
    ensures TotalItems(lines) >= |lines|
  {
    if lines != [] {
      NoItemsIffEmpty(lines[1..]);
    }
  }

  // ---------------------------------------------------------------------------
  // addToCart

  /** `findIndex` on the key: the first matching position, or -1. */
  function FindIndex(lines: seq<CartLine>, id: string, size: string, color: string): (r: int)
    ensures -1 <= r < |lines|
    ensures r == -1 <==> !HasKey(lines, id, size, color)
    ensures 0 <= r ==> Matches(lines[r], id, size, color)
    ensures forall i | 0 <= i < r :: !Matches(lines[i], id, size, color)
    decreases |lines|
  {
    if |lines| == 0 then -1
    else if Matches(lines[0], id, size, color) then 0
    else
      var k := FindIndex(lines[1..], id, size, color);
      assert forall i | 1 <= i < |lines| :: lines[i] == lines[1..][i - 1];
      if k == -1 then -1 else k + 1
  }

  /** The list `addToCart(item)` leaves: the first line with the item's key gets one
      more unit, or, when there is none, a line of quantity 1 is appended. */
  function AddLine(lines: seq<CartLine>, item: LineInput): (r: seq<CartLine>)
    ensures HasKey(r, item.id, item.size, item.color)
    ensures |r| == if HasKey(lines, item.id, item.size, item.color) then |lines| else |lines| + 1
  {
    var k := FindIndex(lines, item.id, item.size, item.color);
    if k != -1 then
      var r := lines[k := lines[k].(quantity := lines[k].quantity + 1)];
      assert Matches(r[k], item.id, item.size, item.color);
      r
    else
      var r := lines + [WithQuantity(item, 1)];
      assert Matches(r[|lines|], item.id, item.size, item.color);
      r
  }

  /** Adding a key already present raises that line's quantity by exactly one and
      leaves the length, the order and every other line as they were. */
  lemma AddToPresentKey(lines: seq<CartLine>, item: LineInput, i: nat)
    requires UniqueKeys(lines)
    requires i < |lines| && Matches(lines[i], item.id, item.size, item.color)
    ensures var r := AddLine(lines, item);
      && |r| == |lines|
      && r[i] == lines[i].(quantity := lines[i].quantity + 1)
      && forall j | 0 <= j < |lines| && j != i :: r[j] == lines[j]
  {
    var k := FindIndex(lines, item.id, item.size, item.color);
    assert k == i;
  }

  /** Adding a new key appends one line of quantity 1 and keeps the existing lines. */
  lemma AddToAbsentKey(lines: seq<CartLine>, item: LineInput)
    requires !HasKey(lines, item.id, item.size, item.color)
    ensures AddLine(lines, item) == lines + [WithQuantity(item, 1)]
  {
  }

  lemma AddKeepsWellFormed(lines: seq<CartLine>, item: LineInput)
    requires WellFormed(lines)
    ensures WellFormed(AddLine(lines, item))
  {
    var k := FindIndex(lines, item.id, item.size, item.color);
    var r := AddLine(lines, item);
    if k == -1 {
      forall i, j | 0 <= i < j < |r|
        ensures !Matches(r[i], r[j].id, r[j].size, r[j].color)
      {
        if j == |lines| {
          assert r[i] == lines[i];
        }
      }
    } else {
      forall i, j | 0 <= i < j < |r|
        ensures !Matches(r[i], r[j].id, r[j].size, r[j].color)
      {
        assert !Matches(lines[i], lines[j].id, lines[j].size, lines[j].color);
      }
    }
  }

  /** The unit price the line holding `item` carries after the add: a merged line keeps
      its stored price, a new line takes the item's. */
  function UnitPriceAfterAdd(lines: seq<CartLine>, item: LineInput): int {
    var k := FindIndex(lines, item.id, item.size, item.color);
    if k != -1 then lines[k].price else item.price
  }

  /** When every stored line with the item's key has the item's price, each add
      raises the subtotal by the item's price. */
  lemma MergedPriceIsItemPrice(lines: seq<CartLine>, item: LineInput)
    requires forall i | 0 <= i < |lines| && Matches(lines[i], item.id, item.size, item.color) :: lines[i].price == item.price
    ensures UnitPriceAfterAdd(lines, item) == item.price
  {
    var k := FindIndex(lines, item.id, item.size, item.color);
    if k != -1 {
      assert lines[k].price == item.price;
    }
  }

  /** Each `addToCart` adds one unit to the item count and one unit price to the
      subtotal. */
  lemma AddRaisesTotals(lines: seq<CartLine>, item: LineInput)
    ensures TotalItems(AddLine(lines, item)) == TotalItems(lines) + 1
    ensures Subtotal(AddLine(lines, item)) == Subtotal(lines) + UnitPriceAfterAdd(lines, item)
  {
    var k := FindIndex(lines, item.id, item.size, item.color);
    if k == -1 {
      TotalsOfAppend(lines, WithQuantity(item, 1));
    } else {
      var p, q := lines[k].price, lines[k].quantity;
      var line := lines[k].(quantity := q + 1);
      assert AddLine(lines, item) == lines[k := line];
      TotalsOfReplace(lines, k, line);
      MulAddOne(p, q);
    }
  }

  lemma MulAddOne(p: int, q: int)
    ensures p * (q + 1) == p * q + p
  {
  }

  /** `n` calls of `addToCart(item)` from the cart `lines`. */
  function AddTimes(lines: seq<CartLine>, item: LineInput, n: nat): seq<CartLine> {
    if n == 0 then lines else AddLine(AddTimes(lines, item, n - 1), item)
  }

  /** From an empty cart, `n` adds of the same item give one line of quantity `n`. */
  lemma {:induction false} RepeatedAdds(item: LineInput, n: nat)
    requires n >= 1
    ensures AddTimes([], item, n) == [WithQuantity(item, n)]
  {
    if n > 1 {
      RepeatedAdds(item, n - 1);
      assert Matches(AddTimes([], item, n - 1)[0], item.id, item.size, item.color);
    }
  }

  // ---------------------------------------------------------------------------
  // removeFromCart, updateQuantity

  /** `filter` dropping every line with the given key. */
  function RemoveLines(lines: seq<CartLine>, id: string, size: string, color: string): (r: seq<CartLine>)
    ensures |r| <= |lines|
    ensures forall line :: line in r <==> line in lines && !Matches(line, id, size, color)
  {
    if lines == [] then []
    else if Matches(lines[0], id, size, color) then RemoveLines(lines[1..], id, size, color)
    else
      var rest := RemoveLines(lines[1..], id, size, color);
      assert forall line :: line in lines <==> line == lines[0] || line in lines[1..];
      [lines[0]] + rest
  }

  /** Removing an absent key changes nothing. */
  lemma {:induction false} RemoveAbsentKey(lines: seq<CartLine>, id: string, size: string, color: string)
    requires !HasKey(lines, id, size, color)
    ensures RemoveLines(lines, id, size, color) == lines
  {
    if lines != [] {
      assert !Matches(lines[0], id, size, color);
      assert !HasKey(lines[1..], id, size, color) by {
        forall i | 0 <= i < |lines| - 1 ensures !Matches(lines[1..][i], id, size, color) {
          assert lines[1..][i] == lines[i + 1];
        }
      }
      RemoveAbsentKey(lines[1..], id, size, color);
    }
  }

  /** In a cart with unique keys, removing the key of line `i` drops exactly that line
      and keeps the others in their order. */
  lemma {:induction false} RemovePresentKey(lines: seq<CartLine>, i: nat)
    requires UniqueKeys(lines)
    requires i < |lines|
    ensures RemoveLines(lines, lines[i].id, lines[i].size, lines[i].color) == lines[..i] + lines[i + 1..]
  {
    var key := lines[i];
    if i == 0 {
      assert !HasKey(lines[1..], key.id, key.size, key.color) by {
        forall j | 0 <= j < |lines| - 1 ensures !Matches(lines[1..][j], key.id, key.size, key.color) {
          assert lines[1..][j] == lines[j + 1];
        }
      }
      RemoveAbsentKey(lines[1..], key.id, key.size, key.color);
    } else {
      assert !Matches(lines[0], key.id, key.size, key.color);
      assert UniqueKeys(lines[1..]) by {
        forall a, b | 0 <= a < b < |lines| - 1
          ensures !Matches(lines[1..][a], lines[1..][b].id, lines[1..][b].size, lines[1..][b].color)
        {
          assert lines[1..][a] == lines[a + 1] && lines[1..][b] == lines[b + 1];
        }
      }
      assert lines[1..][i - 1] == key;
      RemovePresentKey(lines[1..], i - 1);
      assert lines[..i] == [lines[0]] + lines[1..][..i - 1];
      assert lines[i + 1..] == lines[1..][i..];
    }
  }

  lemma {:induction false} RemoveKeepsWellFormed(lines: seq<CartLine>, id: string, size: string, color: string)
    requires WellFormed(lines)
    ensures WellFormed(RemoveLines(lines, id, size, color))
  {
    if lines != [] {
      assert WellFormed(lines[1..]) by {
        forall a, b | 0 <= a < b < |lines| - 1
          ensures !Matches(lines[1..][a], lines[1..][b].id, lines[1..][b].size, lines[1..][b].color)
        {
          assert lines[1..][a] == lines[a + 1] && lines[1..][b] == lines[b + 1];
        }
        forall a | 0 <= a < |lines| - 1 ensures lines[1..][a].quantity >= 1 {
          assert lines[1..][a] == lines[a + 1];
        }
      }
      RemoveKeepsWellFormed(lines[1..], id, size, color);
      var rest := RemoveLines(lines[1..], id, size, color);
      if !Matches(lines[0], id, size, color) {
        var r := [lines[0]] + rest;
        forall a, b | 0 <= a < b < |r|
          ensures !Matches(r[a], r[b].id, r[b].size, r[b].color)
        {
          if a == 0 {
            assert r[b] in rest;
            assert r[b] in lines[1..];
            var j :| 0 <= j < |lines| - 1 && lines[1..][j] == r[b];
            assert lines[j + 1] == r[b];
          } else {
            assert r[a] == rest[a - 1] && r[b] == rest[b - 1];
          }
        }
      }
    }
  }

  /** `map` giving every line with the key the quantity `quantity`. */
  function SetQuantity(lines: seq<CartLine>, id: string, size: string, color: string, quantity: int): (r: seq<CartLine>)
    ensures |r| == |lines|
    ensures forall i | 0 <= i < |lines| ::
      r[i] == if Matches(lines[i], id, size, color) then lines[i].(quantity := quantity) else lines[i]
  {
    if lines == [] then []
    else
      var head := if Matches(lines[0], id, size, color) then lines[0].(quantity := quantity) else lines[0];
      var rest := SetQuantity(lines[1..], id, size, color, quantity);
      assert forall i | 1 <= i < |lines| :: lines[i] == lines[1..][i - 1];
      [head] + rest
  }

  /** The list `updateQuantity(id, size, color, quantity)` leaves. */
  function UpdateQuantityLines(lines: seq<CartLine>, id: string, size: string, color: string, quantity: int): (r: seq<CartLine>)
    ensures quantity <= 0 ==> !HasKey(r, id, size, color) && |r| <= |lines|
    ensures quantity > 0 ==> |r| == |lines|
    ensures quantity > 0 ==> forall i | 0 <= i < |r| :: r[i].quantity == (if Matches(lines[i], id, size, color) then quantity else lines[i].quantity)
  {
    if quantity <= 0 then RemoveLines(lines, id, size, color)
    else SetQuantity(lines, id, size, color, quantity)
  }

  /** Updating an absent key changes nothing, whatever the quantity. */
  lemma UpdateAbsentKey(lines: seq<CartLine>, id: string, size: string, color: string, quantity: int)
    requires !HasKey(lines, id, size, color)
    ensures UpdateQuantityLines(lines, id, size, color, quantity) == lines
  {
    if quantity <= 0 {
      RemoveAbsentKey(lines, id, size, color);
    }
  }

  /** `updateQuantity` keeps the cart well formed: a positive quantity changes no key,
      and anything else removes lines. */
  lemma UpdateKeepsWellFormed(lines: seq<CartLine>, id: string, size: string, color: string, quantity: int)
    requires WellFormed(lines)
    ensures WellFormed(UpdateQuantityLines(lines, id, size, color, quantity))
  {
    if quantity <= 0 {
      RemoveKeepsWellFormed(lines, id, size, color);
    } else {
      var r := SetQuantity(lines, id, size, color, quantity);
      forall a, b | 0 <= a < b < |r|
        ensures !Matches(r[a], r[b].id, r[b].size, r[b].color)
      {
        assert !Matches(lines[a], lines[b].id, lines[b].size, lines[b].color);
      }
    }
  }

  /** In a cart with unique keys, a positive update of line `i` moves the item count
      by the difference of the two quantities. */
  lemma UpdatePresentKeyTotals(lines: seq<CartLine>, i: nat, quantity: int)
    requires UniqueKeys(lines) && i < |lines| && quantity > 0
    ensures var r := UpdateQuantityLines(lines, lines[i].id, lines[i].size, lines[i].color, quantity);
      && r == lines[i := lines[i].(quantity := quantity)]
      && TotalItems(r) == TotalItems(lines) - lines[i].quantity + quantity
  {
    var key := lines[i];
    var r := SetQuantity(lines, key.id, key.size, key.color, quantity);
    forall j | 0 <= j < |lines| && j != i ensures r[j] == lines[j] {
      if j < i {
        assert !Matches(lines[j], key.id, key.size, key.color);
      } else {
        assert !Matches(lines[i], lines[j].id, lines[j].size, lines[j].color);
      }
    }
    assert r == lines[i := lines[i].(quantity := quantity)];
    TotalsOfReplace(lines, i, lines[i].(quantity := quantity));
  }

  // ---------------------------------------------------------------------------
  // The provider

  /** The cart provider: the current lines and the totals the save-and-recompute
      effect derives from them. */
  class CartProvider {
    var cart: seq<CartLine>
    var totalItems: int
    var subtotal: int

    /** The totals agree with the lines. */
    ghost predicate Valid()
      reads this
    {
      totalItems == TotalItems(cart) && subtotal == Subtotal(cart)
    }

    /** The provider once mounted: `saved` is the list loaded from storage ([] when none). */
    constructor (saved: seq<CartLine>)
      ensures Valid() && cart == saved
    {
      cart := saved;
      totalItems := 0;
      subtotal := 0;
      new;
      SyncTotals();
    }

    /** The effect that runs whenever the lines change: both reductions over the cart. */
    method SyncTotals()
      modifies this
      ensures Valid() && cart == old(cart)
    {
      var items := 0;
      var total := 0;
      var i := 0;
      while i < |cart|
        invariant 0 <= i <= |cart|
        invariant items + TotalItems(cart[i..]) == TotalItems(cart)
        invariant total + Subtotal(cart[i..]) == Subtotal(cart)
      {
        assert cart[i..][1..] == cart[i + 1..];
        items := items + cart[i].quantity;
        total := total + cart[i].price * cart[i].quantity;
        i := i + 1;
      }
      totalItems := items;
      subtotal := total;
    }

    method AddToCart(item: LineInput)
      modifies this
      ensures Valid() && cart == AddLine(old(cart), item)
      ensures old(Valid()) ==> totalItems == old(totalItems) + 1
      ensures old(Valid()) ==> subtotal == old(subtotal) + UnitPriceAfterAdd(old(cart), item)
      ensures WellFormed(old(cart)) ==> WellFormed(cart)
    {
      AddRaisesTotals(cart, item);
      if WellFormed(cart) {
        AddKeepsWellFormed(cart, item);
      }
      var k := FindIndex(cart, item.id, item.size, item.color);
      if k != -1 {
        cart := cart[k := cart[k].(quantity := cart[k].quantity + 1)];
      } else {
        cart := cart + [WithQuantity(item, 1)];
      }
      SyncTotals();
    }

    method RemoveFromCart(id: string, size: string, color: string)
      modifies this
      ensures Valid() && cart == RemoveLines(old(cart), id, size, color)
      ensures WellFormed(old(cart)) ==> WellFormed(cart)
    {
      if WellFormed(cart) {
        RemoveKeepsWellFormed(cart, id, size, color);
      }
      cart := RemoveLines(cart, id, size, color);
      SyncTotals();
    }

    method UpdateQuantity(id: string, size: string, color: string, quantity: int)
      modifies this
      ensures Valid() && cart == UpdateQuantityLines(old(cart), id, size, color, quantity)
      ensures quantity <= 0 ==> cart == RemoveLines(old(cart), id, size, color)
      ensures WellFormed(old(cart)) ==> WellFormed(cart)
    {
      if quantity <= 0 {
        RemoveFromCart(id, size, color);
        return;
      }
      if WellFormed(cart) {
        UpdateKeepsWellFormed(cart, id, size, color, quantity);
      }
      cart := SetQuantity(cart, id, size, color, quantity);
      SyncTotals();
    }

    method ClearCart()
      modifies this
      ensures Valid() && cart == [] && totalItems == 0 && subtotal == 0
    {
      cart := [];
      SyncTotals();
    }
  }
}

/** The cart page: its own shipping rule (free at zero), the total, the empty state,
    and the store calls its minus, plus and trash buttons make for a line. */
module CartPage {
  import opened Wrappers
  import opened CartStore
  import Checkout

  // Money in cents.
  const FreeShippingThreshold := 10000
  const ShippingFee := 799

  /** Free from the threshold on and for an empty subtotal, the fee otherwise. */
  function ShippingCost(subtotal: int): (r: int)
    ensures r == 0 <==> subtotal >= FreeShippingThreshold || subtotal == 0
    ensures r != 0 ==> r == ShippingFee
  {
    if subtotal >= FreeShippingThreshold || subtotal == 0 then 0 else ShippingFee
  }

  function Total(subtotal: int): (r: int)
    ensures r - subtotal == ShippingCost(subtotal)
  {
    subtotal + ShippingCost(subtotal)
  }

  /** The cart page quotes what checkout charges for standard shipping, except on a
      zero subtotal, where the cart page says free and checkout charges the fee. */
  lemma ShippingRulesCompared(subtotal: int)
    ensures subtotal != 0 ==> ShippingCost(subtotal) == Checkout.ShippingCost(Checkout.Standard, subtotal)
    ensures subtotal == 0 ==> ShippingCost(subtotal) == 0 && Checkout.ShippingCost(Checkout.Standard, subtotal) == ShippingFee
  {
  }

  /** What the page shows: the empty state with a link back to the products, or the
      lines with a summary and the checkout link. */
  datatype CartPageView =
    | EmptyState
    | LinesAndSummary(lines: seq<CartLine>, subtotal: int, shipping: int, total: int)

  function Render(lines: seq<CartLine>, subtotal: int): (v: CartPageView)
    ensures v.EmptyState? <==> lines == []
    ensures v.LinesAndSummary? ==> v.lines == lines && v.total == v.subtotal + v.shipping
    ensures v.LinesAndSummary? ==>
      v.subtotal == subtotal && v.shipping == ShippingCost(subtotal) && v.total == Total(subtotal)
  {
    if |lines| == 0 then EmptyState
    else LinesAndSummary(lines, subtotal, ShippingCost(subtotal), Total(subtotal))
  }

  // ---------------------------------------------------------------------------
  // Buttons

  /** A call the page makes on the store. */
  datatype StoreCall =
    | UpdateQuantityCall(id: string, size: string, color: string, quantity: int)
    | RemoveFromCartCall(id: string, size: string, color: string)

  datatype Button = Minus | Plus | Trash

  /** The call a button of `line`'s row makes; the minus button is disabled (no call)
      while the quantity is 1 or less. */
  function Press(line: CartLine, button: Button): (r: Option<StoreCall>)
    ensures button == Minus ==> (r.None? <==> line.quantity <= 1)
    ensures button == Minus && r.Some? ==> r.value.UpdateQuantityCall? && r.value.quantity >= 1
    ensures button == Trash ==> r.Some? && r.value.RemoveFromCartCall?
    ensures r.Some? ==> Matches(line, r.value.id, r.value.size, r.value.color)
  {
    match button
    case Minus =>
      if line.quantity <= 1 then None
      else Some(UpdateQuantityCall(line.id, line.size, line.color, line.quantity - 1))
    case Plus => Some(UpdateQuantityCall(line.id, line.size, line.color, line.quantity + 1))
    case Trash => Some(RemoveFromCartCall(line.id, line.size, line.color))
  }

  /** The lines the store holds after `call`. */
  function Apply(lines: seq<CartLine>, call: StoreCall): seq<CartLine> {
    match call
    case UpdateQuantityCall(id, size, color, q) => UpdateQuantityLines(lines, id, size, color, q)
    case RemoveFromCartCall(id, size, color) => RemoveLines(lines, id, size, color)
  }

  /** Through this page a line never drops below quantity 1, and keys stay unique. */
  lemma ButtonsKeepCartWellFormed(lines: seq<CartLine>, i: nat, button: Button)
    requires WellFormed(lines) && i < |lines|
    requires Press(lines[i], button).Some?
    ensures WellFormed(Apply(lines, Press(lines[i], button).value))
  {
    var call := Press(lines[i], button).value;
    match call
    case UpdateQuantityCall(id, size, color, q) => UpdateKeepsWellFormed(lines, id, size, color, q);
    case RemoveFromCartCall(id, size, color) => RemoveKeepsWellFormed(lines, id, size, color);
  }

  /** A positive quantity call for the key of line `i` changes that line only. */
  lemma SetLineQuantity(lines: seq<CartLine>, i: nat, q: int)
    requires UniqueKeys(lines) && i < |lines| && q > 0
    ensures Apply(lines, UpdateQuantityCall(lines[i].id, lines[i].size, lines[i].color, q)) == lines[i := lines[i].(quantity := q)]
    ensures TotalItems(lines[i := lines[i].(quantity := q)]) == TotalItems(lines) - lines[i].quantity + q
  {
    UpdatePresentKeyTotals(lines, i, q);
  }

  /** Minus (enabled above quantity 1) lowers that line by one and leaves every other
      line as it was. */
  lemma MinusLowersLine(lines: seq<CartLine>, i: nat)
    requires UniqueKeys(lines) && i < |lines| && lines[i].quantity > 1
    ensures Apply(lines, Press(lines[i], Minus).value) == lines[i := lines[i].(quantity := lines[i].quantity - 1)]
    ensures TotalItems(Apply(lines, Press(lines[i], Minus).value)) == TotalItems(lines) - 1
  {
    SetLineQuantity(lines, i, lines[i].quantity - 1);
  }

  /** Plus raises that line by one and leaves every other line as it was. */
  lemma PlusRaisesLine(lines: seq<CartLine>, i: nat)
    requires UniqueKeys(lines) && i < |lines| && lines[i].quantity > 0
    ensures Apply(lines, Press(lines[i], Plus).value) == lines[i := lines[i].(quantity := lines[i].quantity + 1)]
    ensures TotalItems(Apply(lines, Press(lines[i], Plus).value)) == TotalItems(lines) + 1
  {
    SetLineQuantity(lines, i, lines[i].quantity + 1);
  }

  /** Trash drops exactly that line and keeps the others in order. */
  lemma TrashDropsLine(lines: seq<CartLine>, i: nat)
    requires UniqueKeys(lines) && i < |lines|
    ensures Apply(lines, Press(lines[i], Trash).value) == lines[..i] + lines[i + 1..]
  {
    RemovePresentKey(lines, i);
  }
}

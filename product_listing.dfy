/** The product listing page: the effect that filters the fetched products by price and
    colour and sorts a copy of them by price, the colour toggle, the filter reset and
    the page title. */
module ProductListing {
  import opened Wrappers

  /** A variant row; only its colour, which may be null, takes part in filtering. */
  datatype Variant = Variant(id: string, size: Option<string>, color: Option<string>)

  /** A product row as the listing sees it. `price` is in integer cents; `variants` is
      absent when the query did not join them. */
  datatype ListedProduct = ListedProduct(id: string, name: string, price: int, variants: Option<seq<Variant>>)

  /** The four entries of the sort dropdown. */
  datatype SortOption = Recommended | Newest | PriceAsc | PriceDesc

  datatype Direction = Ascending | Descending

  /** The comparator handed to `Array.prototype.sort`: negative when `a` goes first. */
  function Compare(a: ListedProduct, b: ListedProduct, d: Direction): int {
    if d == Ascending then a.price - b.price else b.price - a.price
  }

  // ---------------------------------------------------------------- filtering

  /** The slider range is in whole dollars and inclusive at both ends. */
  predicate InPriceRange(p: ListedProduct, lo: int, hi: int) {
    100 * lo <= p.price <= 100 * hi
  }

  /** Some variant has a truthy colour (not null, not empty) that is selected. */
  predicate HasSelectedColour(p: ListedProduct, selected: seq<string>) {
    p.variants.Some? &&
    exists v | v in p.variants.value :: v.color.Some? && v.color.value != "" && v.color.value in selected
  }

  /** `t` is `s` with some elements dropped, the rest in their original order. */
  ghost predicate IsSubsequence<T>(t: seq<T>, s: seq<T>) {
    if s == [] then t == []
    else (t != [] && t[0] == s[0] && IsSubsequence(t[1..], s[1..])) || IsSubsequence(t, s[1..])
  }

  /** The price filter step. */
  function PriceFilter(s: seq<ListedProduct>, lo: int, hi: int): (r: seq<ListedProduct>)
    ensures forall p :: p in r <==> p in s && InPriceRange(p, lo, hi)
    ensures IsSubsequence(r, s)
  {
    if s == [] then []
    else if InPriceRange(s[0], lo, hi) then [s[0]] + PriceFilter(s[1..], lo, hi)
    else PriceFilter(s[1..], lo, hi)
  }

  /** The colour filter step, applied only when some colour is selected. */
  function ColourFilter(s: seq<ListedProduct>, selected: seq<string>): (r: seq<ListedProduct>)
    ensures forall p :: p in r <==> p in s && HasSelectedColour(p, selected)
    ensures IsSubsequence(r, s)
  {
    if s == [] then []
    else if HasSelectedColour(s[0], selected) then [s[0]] + ColourFilter(s[1..], selected)
    else ColourFilter(s[1..], selected)
  }

  /** Both filter steps, in the order the effect applies them. */
  function Filtered(all: seq<ListedProduct>, lo: int, hi: int, selected: seq<string>): seq<ListedProduct> {
    if |selected| > 0 then ColourFilter(PriceFilter(all, lo, hi), selected) else PriceFilter(all, lo, hi)
  }

  lemma {:induction false} SubsequenceTransitive<T>(u: seq<T>, t: seq<T>, s: seq<T>)
    requires IsSubsequence(u, t) && IsSubsequence(t, s)
    ensures IsSubsequence(u, s)
    decreases |s|
  {
    if s == [] {
    } else if t != [] && t[0] == s[0] && IsSubsequence(t[1..], s[1..]) {
      if u != [] && u[0] == t[0] && IsSubsequence(u[1..], t[1..]) {
        SubsequenceTransitive(u[1..], t[1..], s[1..]);
      } else {
        assert IsSubsequence(u, t[1..]);
        SubsequenceTransitive(u, t[1..], s[1..]);
      }
    } else {
      SubsequenceTransitive(u, t, s[1..]);
    }
  }

  /** The filtered list keeps exactly the products in range that match the colour
      selection (every product when none is selected), in their original order. */
  lemma FilteredKeepsExactlyMatches(all: seq<ListedProduct>, lo: int, hi: int, selected: seq<string>)
    ensures forall p :: p in Filtered(all, lo, hi, selected) <==>
      p in all && InPriceRange(p, lo, hi) && (|selected| == 0 || HasSelectedColour(p, selected))
    ensures IsSubsequence(Filtered(all, lo, hi, selected), all)
  {
    if |selected| > 0 {
      SubsequenceTransitive(ColourFilter(PriceFilter(all, lo, hi), selected), PriceFilter(all, lo, hi), all);
    }
  }

  // ---------------------------------------------------------------- sorting

  /** Ordered by the comparator: no later element should precede an earlier one. */
  ghost predicate SortedBy(s: seq<ListedProduct>, d: Direction) {
    forall i, j | 0 <= i < j < |s| :: Compare(s[i], s[j], d) <= 0
  }

  /** Inserting `x` after the sorted prefix `s`, moving it left past every element that
      compares strictly after it. */
  function Insert(s: seq<ListedProduct>, x: ListedProduct, d: Direction): seq<ListedProduct> {
    if |s| == 0 || Compare(s[|s| - 1], x, d) <= 0 then s + [x]
    else Insert(s[..|s| - 1], x, d) + [s[|s| - 1]]
  }

  /** The stable sort by the comparator. */
  function SortByPrice(s: seq<ListedProduct>, d: Direction): seq<ListedProduct> {
    if |s| == 0 then [] else Insert(SortByPrice(s[..|s| - 1], d), s[|s| - 1], d)
  }

  /** The products of `s` with price `k`, in order; a stable sort keeps this list. */
  function WithPrice(s: seq<ListedProduct>, k: int): seq<ListedProduct> {
    if s == [] then [] else WithPrice(s[..|s| - 1], k) + (if s[|s| - 1].price == k then [s[|s| - 1]] else [])
  }

  lemma {:induction false} WithPriceAppend(s: seq<ListedProduct>, t: seq<ListedProduct>, k: int)
    ensures WithPrice(s + t, k) == WithPrice(s, k) + WithPrice(t, k)
    decreases |t|
  {
    if t == [] {
      assert s + t == s;
    } else {
      assert (s + t)[..|s + t| - 1] == s + t[..|t| - 1];
      WithPriceAppend(s, t[..|t| - 1], k);
    }
  }

  lemma {:induction false} InsertPermutes(s: seq<ListedProduct>, x: ListedProduct, d: Direction)
    ensures multiset(Insert(s, x, d)) == multiset(s) + multiset{x}
    decreases |s|
  {
    if |s| > 0 && Compare(s[|s| - 1], x, d) > 0 {
      InsertPermutes(s[..|s| - 1], x, d);
      assert s == s[..|s| - 1] + [s[|s| - 1]];
    }
  }

  lemma {:induction false} InsertKeepsSorted(s: seq<ListedProduct>, x: ListedProduct, d: Direction)
    requires SortedBy(s, d)
    ensures SortedBy(Insert(s, x, d), d)
    decreases |s|
  {
    if |s| > 0 && Compare(s[|s| - 1], x, d) > 0 {
      var init := s[..|s| - 1];
      var last := s[|s| - 1];
      InsertKeepsSorted(init, x, d);
      InsertPermutes(init, x, d);
      var r := Insert(init, x, d);
      forall i | 0 <= i < |r| ensures Compare(r[i], last, d) <= 0 {
        assert r[i] in multiset(r);
        if r[i] != x {
          assert r[i] in multiset(init);
        }
      }
    }
  }

  lemma {:induction false} InsertKeepsWithPrice(s: seq<ListedProduct>, x: ListedProduct, d: Direction, k: int)
    ensures WithPrice(Insert(s, x, d), k) == WithPrice(s, k) + (if x.price == k then [x] else [])
    decreases |s|
  {
    if |s| == 0 || Compare(s[|s| - 1], x, d) <= 0 {
      WithPriceAppend(s, [x], k);
    } else {
      var init := s[..|s| - 1];
      var last := s[|s| - 1];
      InsertKeepsWithPrice(init, x, d, k);
      WithPriceAppend(Insert(init, x, d), [last], k);
      assert s == init + [last];
      WithPriceAppend(init, [last], k);
    }
  }

  /** Sorting by price orders the list, loses and adds nothing, and keeps products of
      equal price in their original relative order. */
  lemma {:induction false} SortByPriceCorrect(s: seq<ListedProduct>, d: Direction)
    ensures SortedBy(SortByPrice(s, d), d)
    ensures multiset(SortByPrice(s, d)) == multiset(s)
    ensures forall k :: WithPrice(SortByPrice(s, d), k) == WithPrice(s, k)
    decreases |s|
  {
    if |s| > 0 {
      var init := s[..|s| - 1];
      SortByPriceCorrect(init, d);
      InsertKeepsSorted(SortByPrice(init, d), s[|s| - 1], d);
      InsertPermutes(SortByPrice(init, d), s[|s| - 1], d);
      assert s == init + [s[|s| - 1]];
      forall k ensures WithPrice(SortByPrice(s, d), k) == WithPrice(s, k) {
        InsertKeepsWithPrice(SortByPrice(init, d), s[|s| - 1], d, k);
      }
    }
  }

  /** `Insert` puts `x` just before the run of elements at the end of `prefix` that
      compare strictly after it. */
  lemma {:induction false} InsertPosition(prefix: seq<ListedProduct>, j: nat, x: ListedProduct, d: Direction)
    requires j <= |prefix| && (j == 0 || Compare(prefix[j - 1], x, d) <= 0)
    requires forall k | j <= k < |prefix| :: Compare(prefix[k], x, d) > 0
    ensures Insert(prefix, x, d) == prefix[..j] + [x] + prefix[j..]
    decreases |prefix|
  {
    if j < |prefix| {
      var init := prefix[..|prefix| - 1];
      assert init[..j] == prefix[..j];
      InsertPosition(init, j, x, d);
      assert prefix[j..] == init[j..] + [prefix[|prefix| - 1]];
    } else {
      assert prefix[..j] == prefix;
    }
  }

  /** The array after the shift, read back as a sequence. */
  lemma Assemble(b: seq<ListedProduct>, prefix: seq<ListedProduct>, j: nat, x: ListedProduct)
    requires |b| == |prefix| + 1 && j <= |prefix| && b[j] == x
    requires forall k | 0 <= k < j :: b[k] == prefix[k]
    requires forall k | j < k < |b| :: b[k] == prefix[k - 1]
    ensures b == prefix[..j] + [x] + prefix[j..]
  {
  }

  /** Moves `a[i]` into its place in the sorted `a[..i]`, shifting the elements that
      compare strictly after it one place to the right. */
  method InsertInPlace(a: array<ListedProduct>, i: nat, d: Direction)
    requires i < a.Length
    modifies a
    ensures a[..i + 1] == Insert(old(a[..i]), old(a[i]), d)
    ensures a[i + 1..] == old(a[i + 1..])
  {
    var x := a[i];
    ghost var prefix := a[..i];
    var j := i;
    while j > 0 && Compare(a[j - 1], x, d) > 0
      invariant 0 <= j <= i
      invariant forall k | 0 <= k < j :: a[k] == prefix[k]
      invariant forall k | j < k <= i :: a[k] == prefix[k - 1]
      invariant forall k | i < k < a.Length :: a[k] == old(a[k])
      invariant forall k | j <= k < i :: Compare(prefix[k], x, d) > 0
    {
      a[j] := a[j - 1];
      j := j - 1;
    }
    a[j] := x;
    InsertPosition(prefix, j, x, d);
    Assemble(a[..i + 1], prefix, j, x);
  }

  /** `filteredProducts.sort(...)`: an insertion sort of the array in place. */
  method SortInPlace(a: array<ListedProduct>, d: Direction)
    modifies a
    ensures a[..] == SortByPrice(old(a[..]), d)
  {
    ghost var original := a[..];
    var i := 0;
    while i < a.Length
      invariant 0 <= i <= a.Length
      invariant a[..i] == SortByPrice(original[..i], d)
      invariant a[i..] == original[i..]
    {
      assert original[..i + 1][..i] == original[..i];
      assert a[i] == original[i];
      InsertInPlace(a, i, d);
      i := i + 1;
    }
    assert a[..] == a[..a.Length] && original == original[..a.Length];
  }

  /** The effect body for a loaded product list: filter, then order as the dropdown says. */
  method FilterAndSort(all: seq<ListedProduct>, lo: int, hi: int, selected: seq<string>, sort: SortOption)
    returns (shown: seq<ListedProduct>)
    ensures forall p :: p in shown <==>
      p in all && InPriceRange(p, lo, hi) && (|selected| == 0 || HasSelectedColour(p, selected))
    ensures multiset(shown) == multiset(Filtered(all, lo, hi, selected))
    ensures sort == Recommended || sort == Newest ==> shown == Filtered(all, lo, hi, selected)
    ensures sort == PriceAsc ==> SortedBy(shown, Ascending)
    ensures sort == PriceDesc ==> SortedBy(shown, Descending)
    ensures forall k :: WithPrice(shown, k) == WithPrice(Filtered(all, lo, hi, selected), k)
  {
    var filtered := PriceFilter(all, lo, hi);
    if |selected| > 0 {
      filtered := ColourFilter(filtered, selected);
    }
    FilteredKeepsExactlyMatches(all, lo, hi, selected);
    if sort == PriceAsc || sort == PriceDesc {
      var d := if sort == PriceAsc then Ascending else Descending;
      var a := new ListedProduct[|filtered|](i requires 0 <= i < |filtered| => filtered[i]);
      assert a[..] == filtered;
      SortInPlace(a, d);
      SortByPriceCorrect(filtered, d);
      shown := a[..];
      forall p ensures p in shown <==> p in filtered {
        assert p in shown <==> p in multiset(shown);
        assert p in filtered <==> p in multiset(filtered);
      }
    } else {
      shown := filtered;
    }
  }

  // ---------------------------------------------------------------- filter state

  /** `selectedColors.filter(c => c !== color)` */
  function RemoveColour(colors: seq<string>, c: string): (r: seq<string>)
    ensures forall x :: x in r <==> x in colors && x != c
    ensures IsSubsequence(r, colors)
  {
    if colors == [] then []
    else if colors[0] == c then RemoveColour(colors[1..], c)
    else [colors[0]] + RemoveColour(colors[1..], c)
  }

  /** `toggleColorSelection`: remove every copy of a selected colour, or append it. */
  function ToggleColour(colors: seq<string>, c: string): (r: seq<string>)
    ensures c in r <==> c !in colors
    ensures forall x | x != c :: x in r <==> x in colors
    ensures c !in colors ==> r == colors + [c]
  {
    if c in colors then RemoveColour(colors, c) else colors + [c]
  }

  /** Clicking the same swatch twice leaves the selection with the same colours. */
  lemma ToggleTwiceRestoresMembership(colors: seq<string>, c: string)
    ensures forall x :: x in ToggleColour(ToggleColour(colors, c), c) <==> x in colors
  {
    var once := ToggleColour(colors, c);
    assert c in once <==> c !in colors;
  }

  /** The page's filter and result state. */
  class ListingPage {
    var selectedSort: SortOption
    var lo: int
    var hi: int
    var selectedColors: seq<string>
    var products: seq<ListedProduct>

    constructor ()
      ensures selectedSort == Recommended && lo == 0 && hi == 200 && selectedColors == [] && products == []
    {
      selectedSort := Recommended;
      lo, hi := 0, 200;
      selectedColors := [];
      products := [];
    }

    /** The effect: nothing happens until the products are loaded. */
    method Refresh(all: Option<seq<ListedProduct>>)
      modifies this
      ensures all.None? ==> products == old(products)
      ensures all.Some? ==> forall p :: p in products <==>
        p in all.value && InPriceRange(p, lo, hi) && (|selectedColors| == 0 || HasSelectedColour(p, selectedColors))
      ensures all.Some? && selectedSort == PriceAsc ==> SortedBy(products, Ascending)
      ensures all.Some? && selectedSort == PriceDesc ==> SortedBy(products, Descending)
      ensures all.Some? ==> multiset(products) == multiset(Filtered(all.value, lo, hi, selectedColors))
      ensures all.Some? && (selectedSort == Recommended || selectedSort == Newest) ==>
        products == Filtered(all.value, lo, hi, selectedColors)
      ensures all.Some? ==> forall k :: WithPrice(products, k) == WithPrice(Filtered(all.value, lo, hi, selectedColors), k)
      ensures selectedSort == old(selectedSort) && lo == old(lo) && hi == old(hi) && selectedColors == old(selectedColors)
    {
      if all.Some? {
        products := FilterAndSort(all.value, lo, hi, selectedColors, selectedSort);
      }
    }

    method ToggleColorSelection(c: string)
      modifies this
      ensures selectedColors == ToggleColour(old(selectedColors), c)
      ensures selectedSort == old(selectedSort) && lo == old(lo) && hi == old(hi) && products == old(products)
    {
      selectedColors := ToggleColour(selectedColors, c);
    }

    /** The range slider moves only the upper bound. */
    method SetMaxPrice(value: int)
      modifies this
      ensures hi == value && lo == old(lo)
      ensures selectedSort == old(selectedSort) && selectedColors == old(selectedColors) && products == old(products)
    {
      hi := value;
    }

    method SetSort(sort: SortOption)
      modifies this
      ensures selectedSort == sort
      ensures lo == old(lo) && hi == old(hi) && selectedColors == old(selectedColors) && products == old(products)
    {
      selectedSort := sort;
    }

    /** `clearFilters` */
    method ClearFilters()
      modifies this
      ensures lo == 0 && hi == 200 && selectedColors == [] && selectedSort == Recommended
      ensures products == old(products)
    {
      lo, hi := 0, 200;
      selectedColors := [];
      selectedSort := Recommended;
    }
  }

  // ---------------------------------------------------------------- title

  /** `String.prototype.toUpperCase` on one character, for the ASCII letters. */
  function UpperChar(c: char): (r: char)
    ensures 'a' <= c <= 'z' ==> 'A' <= r <= 'Z' && r as int == c as int - 32
    ensures !('a' <= c <= 'z') ==> r == c
  {
    if 'a' <= c <= 'z' then (c as int - 32) as char else c
  }

  /** `getPageTitle` for the optional route parameter. */
  function PageTitle(category: Option<string>): (r: string)
    ensures category.None? || category.value == "" || category.value == "all" ==> r == "All Products"
    ensures category.Some? && category.value != "" && category.value != "all" ==>
      |r| == |category.value| && r[0] == UpperChar(category.value[0]) && r[1..] == category.value[1..]
  {
    if category.None? || category.value == "" || category.value == "all" then "All Products"
    else [UpperChar(category.value[0])] + category.value[1..]
  }
}

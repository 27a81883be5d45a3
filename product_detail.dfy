/** The product detail page: product lookup in the page's own catalogue, the initial
    selections, the colour, size, image and quantity controls, and the payload the
    Add to Cart button hands to the cart store. */
module ProductDetail {
  import opened Wrappers
  import CartStore

  /** A colour swatch: its display name and its hex value. */
  datatype Colour = Colour(name: string, value: string)

  /** A catalogue entry. `price` is in integer cents; the description and the detail
      bullet points are display text and are not part of the model. */
  datatype Product = Product(
    id: string, name: string, price: int, images: seq<string>,
    colors: seq<Colour>, sizes: seq<string>, category: string, subcategory: string)

  /** The two products the page ships with. */
  const Catalogue: seq<Product> := [
    Product("1", "Premium Cotton T-Shirt", 3999,
      ["https://images.unsplash.com/photo-1521572163474-6864f9cf17ab?ixlib=rb-1.2.1&auto=format&fit=crop&w=800&q=80",
       "https://images.unsplash.com/photo-1586363104862-3a5e2ab60d99?ixlib=rb-1.2.1&auto=format&fit=crop&w=800&q=80",
       "https://images.unsplash.com/photo-1562157873-818bc0726f68?ixlib=rb-1.2.1&auto=format&fit=crop&w=800&q=80"],
      [Colour("Black", "#000000"), Colour("White", "#FFFFFF"), Colour("Gray", "#C4C4C4")],
      ["S", "M", "L", "XL"], "men", "tops"),
    Product("2", "Slim Fit Jeans", 5999,
      ["https://images.unsplash.com/photo-1542272604-787c3835535d?ixlib=rb-1.2.1&auto=format&fit=crop&w=800&q=80",
       "https://images.unsplash.com/photo-1582552938357-32b906df40cb?ixlib=rb-1.2.1&auto=format&fit=crop&w=800&q=80",
       "https://images.unsplash.com/photo-1598554747436-c9293d6a588f?ixlib=rb-1.2.1&auto=format&fit=crop&w=800&q=80"],
      [Colour("Black", "#000000"), Colour("Blue", "#3B5998"), Colour("Dark Blue", "#1F2937")],
      ["30", "32", "34", "36", "38"], "men", "bottoms")
  ]

  /** `products.find(p => p.id === productId)`: the first product with that id. */
  function FindProduct(products: seq<Product>, id: string): (r: Option<Product>)
    ensures r.None? <==> forall p | p in products :: p.id != id
    ensures r.Some? ==> exists i | 0 <= i < |products| ::
      products[i] == r.value && r.value.id == id && forall j | 0 <= j < i :: products[j].id != id
  {
    if products == [] then None
    else if products[0].id == id then Some(products[0])
    else
      var r := FindProduct(products[1..], id);
      assert forall p :: p in products <==> p == products[0] || p in products[1..];
      if r.Some? then
        var i :| 0 <= i < |products[1..]| && products[1..][i] == r.value && r.value.id == id
          && forall j | 0 <= j < i :: products[1..][j].id != id;
        assert products[i + 1] == r.value;
        assert forall j | 1 <= j < i + 1 :: products[j] == products[1..][j - 1];
        r
      else r
  }

  /** `colors.find(c => c.value === selected)`, giving its name, or '' when none matches. */
  function ColourName(colors: seq<Colour>, value: string): (r: string)
    ensures (forall c | c in colors :: c.value != value) ==> r == ""
    ensures (exists c | c in colors :: c.value == value) ==>
      exists i | 0 <= i < |colors| :: colors[i].value == value && r == colors[i].name
        && forall j | 0 <= j < i :: colors[j].value != value
  {
    if colors == [] then ""
    else if colors[0].value == value then colors[0].name
    else
      var r := ColourName(colors[1..], value);
      assert forall c :: c in colors <==> c == colors[0] || c in colors[1..];
      if exists c | c in colors[1..] :: c.value == value then
        var i :| 0 <= i < |colors[1..]| && colors[1..][i].value == value && r == colors[1..][i].name
          && forall j | 0 <= j < i :: colors[1..][j].value != value;
        assert colors[i + 1] == colors[1..][i];
        assert forall j | 1 <= j < i + 1 :: colors[j] == colors[1..][j - 1];
        r
      else r
  }

  /** Colour values are distinct within a product. */
  ghost predicate DistinctValues(colors: seq<Colour>) {
    forall i, j | 0 <= i < j < |colors| :: colors[i].value != colors[j].value
  }

  /** Clicking the swatch of colour `i` and adding to the cart records that colour's name. */
  lemma {:induction false} SwatchGivesItsName(colors: seq<Colour>, i: nat)
    requires DistinctValues(colors) && i < |colors|
    ensures ColourName(colors, colors[i].value) == colors[i].name
  {
    if i > 0 {
      assert colors[0].value != colors[i].value;
      assert DistinctValues(colors[1..]) by {
        forall a, b | 0 <= a < b < |colors| - 1 ensures colors[1..][a].value != colors[1..][b].value {
          assert colors[1..][a] == colors[a + 1] && colors[1..][b] == colors[b + 1];
        }
      }
      assert colors[1..][i - 1] == colors[i];
      SwatchGivesItsName(colors[1..], i - 1);
    }
  }

  lemma CatalogueColoursAreDistinct()
    ensures forall p | p in Catalogue :: DistinctValues(p.colors) && |p.colors| > 0 && |p.images| > 0
  {
  }

  /** `product?.colors[0].value || ''` (a found product has at least one colour). */
  function InitialColor(product: Option<Product>): string
    requires product.Some? ==> |product.value.colors| > 0
  {
    if product.None? then "" else product.value.colors[0].value
  }

  /** `product?.sizes[0] || ''` */
  function InitialSize(product: Option<Product>): string {
    if product.None? || |product.value.sizes| == 0 then "" else product.value.sizes[0]
  }

  /** `product?.images[0] || ''` */
  function InitialImage(product: Option<Product>): string {
    if product.None? || |product.value.images| == 0 then "" else product.value.images[0]
  }

  /** The payload of `addToCart`: id, name, price and first image of the product, the
      selected size, and the name of the selected colour. No quantity is passed. */
  function AddPayload(product: Product, size: string, colorValue: string): (r: CartStore.LineInput)
    requires |product.images| > 0
    ensures r.id == product.id && r.name == product.name && r.price == product.price
    ensures r.image == product.images[0]
    ensures r.size == size && r.color == ColourName(product.colors, colorValue)
  {
    CartStore.LineInput(product.id, product.name, product.price, product.images[0], size,
                        ColourName(product.colors, colorValue))
  }

  /** What the page renders. */
  datatype DetailView = NotFound | Detail(product: Product)

  class ProductDetailPage {
    const product: Option<Product>
    var selectedColor: string
    var selectedSize: string
    var quantity: int
    var mainImage: string

    /** The product comes from the catalogue and the quantity selector is at least 1. */
    ghost predicate Valid()
      reads this
    {
      (product.Some? ==> product.value in Catalogue) && quantity >= 1
    }

    /** The page for the route parameter `productId`. */
    constructor (productId: string)
      ensures Valid()
      ensures product == FindProduct(Catalogue, productId)
      ensures selectedColor == InitialColor(product) && selectedSize == InitialSize(product)
      ensures quantity == 1 && mainImage == InitialImage(product)
    {
      product := FindProduct(Catalogue, productId);
      new;
      CatalogueColoursAreDistinct();
      selectedColor := InitialColor(product);
      selectedSize := InitialSize(product);
      quantity := 1;
      mainImage := InitialImage(product);
    }

    /** With no product the not-found view is shown, and it has no Add to Cart button. */
    function View(): (v: DetailView)
      reads this
      ensures v.NotFound? <==> product.None?
    {
      if product.None? then NotFound else Detail(product.value)
    }

    method SelectColor(value: string)
      modifies this
      ensures selectedColor == value
      ensures selectedSize == old(selectedSize) && quantity == old(quantity) && mainImage == old(mainImage)
    {
      selectedColor := value;
    }

    method SelectSize(size: string)
      modifies this
      ensures selectedSize == size
      ensures selectedColor == old(selectedColor) && quantity == old(quantity) && mainImage == old(mainImage)
    {
      selectedSize := size;
    }

    method SelectImage(image: string)
      modifies this
      ensures mainImage == image
      ensures selectedColor == old(selectedColor) && selectedSize == old(selectedSize) && quantity == old(quantity)
    {
      mainImage := image;
    }

    /** `setQuantity(Math.max(1, quantity - 1))`: never below 1. */
    method DecrementQuantity()
      requires Valid()
      modifies this
      ensures Valid()
      ensures quantity == if old(quantity) - 1 >= 1 then old(quantity) - 1 else 1
      ensures selectedColor == old(selectedColor) && selectedSize == old(selectedSize) && mainImage == old(mainImage)
    {
      quantity := if quantity - 1 >= 1 then quantity - 1 else 1;
    }

    method IncrementQuantity()
      requires Valid()
      modifies this
      ensures Valid() && quantity == old(quantity) + 1
      ensures selectedColor == old(selectedColor) && selectedSize == old(selectedSize) && mainImage == old(mainImage)
    {
      quantity := quantity + 1;
    }

    /** Add to Cart: one call of the store with the payload; the quantity selector is
        ignored, so every click adds exactly one unit. */
    method AddToCart(store: CartStore.CartProvider)
      requires Valid() && product.Some?
      modifies store
      ensures store.cart == CartStore.AddLine(old(store.cart), AddPayload(product.value, selectedSize, selectedColor))
      ensures store.Valid()
      ensures old(store.Valid()) ==> store.totalItems == old(store.totalItems) + 1
    {
      CatalogueColoursAreDistinct();
      var p := product.value;
      var colorName := ColourName(p.colors, selectedColor);
      store.AddToCart(CartStore.LineInput(p.id, p.name, p.price, p.images[0], selectedSize, colorName));
    }
  }
}

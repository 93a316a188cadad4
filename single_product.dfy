/** The product page: the product on show and the catalogue, the size,
    colour and quantity picked in its form, the "similar products" strip, and
    the cart line that "Add to Cart" sends to the store. */
module SingleProduct {
  import opened Text
  import opened Shop
  import opened Arrays

  const SizeOptions: seq<string> := ["xs", "sm", "m", "lg", "xl", "2xl"]
  const ColorOptions: seq<string> := ["black", "red", "blue", "white", "rose", "green"]
  const DefaultSize: string := "xs"
  const DefaultColor: string := "black"
  const DefaultQuantity: int := 1
  const SimilarLimit: nat := 3

  // ---------------------------------------------------------------------------
  // Similar products
  // ---------------------------------------------------------------------------

  /** Same category, exactly as written, and another id. */
  predicate IsSimilar(current: Product, p: Product)
  {
    p.category == current.category && p.id != current.id
  }

  /** Every catalogue product similar to `current`, in catalogue order. */
  function SimilarCandidates(current: Product, products: seq<Product>): seq<Product>
  {
    Filter(products, p => IsSimilar(current, p))
  }

  /** The `similarProducts` memo: nothing without a product or a catalogue,
      otherwise the first three similar products. */
  function SimilarProducts(current: Option<Product>, products: seq<Product>): (r: seq<Product>)
    ensures current.None? || products == [] ==> r == []
    ensures |r| <= SimilarLimit
    ensures forall p | p in r :: p in products
    ensures current.Some? ==> forall p | p in r :: p.category == current.value.category && p.id != current.value.id
  {
    if current.None? || |products| == 0 then []
    else
      FilterMembers(products, p => IsSimilar(current.value, p));
      Slice(SimilarCandidates(current.value, products), 0, SimilarLimit)
  }

  /** The strip shows the first similar products in catalogue order, and
      leaves one out only when it already shows three. */
  lemma SimilarAreFirstMatches(current: Product, products: seq<Product>)
    ensures var candidates := SimilarCandidates(current, products);
      SimilarProducts(Some(current), products) == candidates[..Min(SimilarLimit, |candidates|)]
    ensures forall p | p in products && IsSimilar(current, p) ::
      p in SimilarProducts(Some(current), products) || |SimilarProducts(Some(current), products)| == SimilarLimit
  {
    var candidates := SimilarCandidates(current, products);
    var r := SimilarProducts(Some(current), products);
    FilterMembers(products, p => IsSimilar(current, p));
    assert r == candidates[..Min(SimilarLimit, |candidates|)];
    forall p | p in products && IsSimilar(current, p)
      ensures p in r || |r| == SimilarLimit
    {
      assert p in candidates;
      if |candidates| <= SimilarLimit {
        assert r == candidates;
      }
    }
  }

  // ---------------------------------------------------------------------------
  // The cart-line key
  // ---------------------------------------------------------------------------

  /** The key `handleAddToCart` writes: `singleProduct.id + size + color`. */
  function CartLineIdAsWritten(productId: string, size: string, color: string): string
  {
    productId + size + color
  }

  /** Two different products can get the same key: product `1` in size `2xl`
      and product `12` in size `xl`, both in black, are both `12xlblack`. */
  lemma CartLineIdCollides()
    ensures "1" != "12"
    ensures "2xl" in SizeOptions && "xl" in SizeOptions
    ensures CartLineIdAsWritten("1", "2xl", "black") == CartLineIdAsWritten("12", "xl", "black")
  {
    assert "1" + "2xl" + "black" == "12xlblack";
    assert "12" + "xl" + "black" == "12xlblack";
  }

  /** No size option is a proper prefix of another. */
  lemma SizesPrefixFree(a: string, b: string)
    requires a in SizeOptions && b in SizeOptions
    requires |a| <= |b| && b[..|a|] == a
    ensures a == b
  {
    assert a[0] == b[0];
    if |a| == 2 && |b| == 2 {
      assert a[1] == b[1];
    }
  }

  /** For one product, the as-written key does tell the offered variants
      apart, because no size option is a proper prefix of another. */
  lemma VariantsOfOneProductDistinct(productId: string, size1: string, color1: string, size2: string, color2: string)
    requires size1 in SizeOptions && size2 in SizeOptions
    requires size1 != size2 || color1 != color2
    ensures CartLineIdAsWritten(productId, size1, color1) != CartLineIdAsWritten(productId, size2, color2)
  {
    if CartLineIdAsWritten(productId, size1, color1) == CartLineIdAsWritten(productId, size2, color2) {
      var k1 := size1 + color1;
      var k2 := size2 + color2;
      assert productId + k1 == productId + size1 + color1;
      assert productId + k2 == productId + size2 + color2;
      assert k1 == (productId + k1)[|productId|..];
      assert k2 == (productId + k2)[|productId|..];
      if |size1| <= |size2| {
        assert k2[..|size1|] == size2[..|size1|];
        SizesPrefixFree(size1, size2);
      } else {
        assert k1[..|size2|] == size1[..|size2|];
        SizesPrefixFree(size2, size1);
      }
    }
  }

  const KeySeparator: char := '-'

  /** The key with the three parts separated, so that it can be split back
      into the product id, the size and the colour. */
  function CartLineKey(productId: string, size: string, color: string): string
  {
    productId + [KeySeparator] + size + [KeySeparator] + color
  }

  /** Cutting at the last separator: the part after it is separator-free on
      both sides, so both parts agree. */
  lemma SplitAtLast(x1: string, y1: string, x2: string, y2: string, c: char)
    requires c !in y1 && c !in y2
    requires x1 + [c] + y1 == x2 + [c] + y2
    ensures x1 == x2 && y1 == y2
  {
    var w := x1 + [c] + y1;
    LastSeparator(x1, y1, c);
    LastSeparator(x2, y2, c);
    assert |x1| == |x2|;
    assert x1 == w[..|x1|] && x2 == w[..|x2|];
    assert y1 == w[|x1| + 1..] && y2 == w[|x2| + 1..];
  }

  /** In `x + [c] + y` with no `c` in `y`, the separator is the last `c`. */
  lemma LastSeparator(x: string, y: string, c: char)
    requires c !in y
    ensures var w := x + [c] + y; w[|x|] == c && forall j | |x| < j < |w| :: w[j] != c
  {
    var w := x + [c] + y;
    forall j | |x| < j < |w| ensures w[j] != c {
      assert w[j] == y[j - |x| - 1];
    }
  }

  /** The separated key identifies the product and the variant: two lines
      share a key exactly when they agree on id, size and colour, provided
      sizes and colours hold no separator (none of the offered ones does). */
  lemma CartLineKeyInjective(id1: string, size1: string, color1: string, id2: string, size2: string, color2: string)
    requires KeySeparator !in size1 && KeySeparator !in color1
    requires KeySeparator !in size2 && KeySeparator !in color2
    ensures CartLineKey(id1, size1, color1) == CartLineKey(id2, size2, color2)
        <==> id1 == id2 && size1 == size2 && color1 == color2
  {
    if CartLineKey(id1, size1, color1) == CartLineKey(id2, size2, color2) {
      SplitAtLast(id1 + [KeySeparator] + size1, color1, id2 + [KeySeparator] + size2, color2, KeySeparator);
      SplitAtLast(id1, size1, id2, size2, KeySeparator);
    }
  }

  /** The offered sizes and colours contain no separator. */
  lemma OptionsHaveNoSeparator(size: string, color: string)
    requires size in SizeOptions && color in ColorOptions
    ensures KeySeparator !in size && KeySeparator !in color
  {
  }

  /** A cart line for `product` in the picked variant under `id`: the
      product's image, title, category, price, popularity and stock, with the
      picked quantity, size and colour. */
  function LineFor(id: string, product: Product, quantity: int, size: string, color: string): CartLine
  {
    CartLine(id, product.image, product.title, product.category,
             product.price, quantity, size, color, product.popularity, product.stock)
  }

  /** The line "Add to Cart" sends, as the page writes it: the product
      snapshot in the picked variant, under the unseparated key. */
  function MakeCartLine(product: Product, quantity: int, size: string, color: string): (line: CartLine)
    ensures line.image == product.image && line.title == product.title
    ensures line.category == product.category && line.price == product.price
    ensures line.popularity == product.popularity && line.stock == product.stock
    ensures line.quantity == quantity && line.size == size && line.color == color
    ensures line.id == CartLineIdAsWritten(product.id, size, color)
  {
    LineFor(CartLineIdAsWritten(product.id, size, color), product, quantity, size, color)
  }

  /** Through "Add to Cart" as written, product `1` in size `2xl` and
      product `12` in size `xl`, both in black, land on the same cart id. */
  lemma AddedLinesCollide(p1: Product, q1: int, p2: Product, q2: int)
    requires p1.id == "1" && p2.id == "12"
    ensures p1.id != p2.id
    ensures MakeCartLine(p1, q1, "2xl", "black").id == MakeCartLine(p2, q2, "xl", "black").id
  {
    CartLineIdCollides();
  }

  /** The same line under the separated key: two lines built from the
      offered options share an id exactly when they are for the same product
      id, size and colour. */
  function MakeCartLineKeyed(product: Product, quantity: int, size: string, color: string): (line: CartLine)
    ensures line == MakeCartLine(product, quantity, size, color).(id := line.id)
    ensures line.id == CartLineKey(product.id, size, color)
  {
    LineFor(CartLineKey(product.id, size, color), product, quantity, size, color)
  }

  /** Lines built with the separated key from the offered options have the
      same id exactly when they are for the same product id and variant. */
  lemma KeyedLinesIdentifyVariant(
    p1: Product, q1: int, size1: string, color1: string,
    p2: Product, q2: int, size2: string, color2: string)
    requires size1 in SizeOptions && color1 in ColorOptions
    requires size2 in SizeOptions && color2 in ColorOptions
    ensures MakeCartLineKeyed(p1, q1, size1, color1).id == MakeCartLineKeyed(p2, q2, size2, color2).id
        <==> p1.id == p2.id && size1 == size2 && color1 == color2
  {
    OptionsHaveNoSeparator(size1, color1);
    OptionsHaveNoSeparator(size2, color2);
    CartLineKeyInjective(p1.id, size1, color1, p2.id, size2, color2);
  }

  // ---------------------------------------------------------------------------
  // The page
  // ---------------------------------------------------------------------------

  /** How loading the page's data ended: both requests answered, or the
      product request was not ok, or a request failed. */
  datatype LoadOutcome = Loaded(product: Product, catalogue: seq<Product>) | LoadFailed

  class ProductPage {
    var products: seq<Product>
    var singleProduct: Option<Product>
    var isLoading: bool
    var error: bool
    var size: string
    var color: string
    var quantity: int

    constructor ()
      ensures products == [] && singleProduct.None? && isLoading && !error
      ensures size == DefaultSize && color == DefaultColor && quantity == DefaultQuantity
    {
      products := [];
      singleProduct := None;
      isLoading := true;
      error := false;
      size := DefaultSize;
      color := DefaultColor;
      quantity := DefaultQuantity;
    }

    /** The effect that runs when the route's product id changes: load the
        product and the catalogue (the state after the loading delay), and
        reset the form. A failed load keeps what was shown before. */
    method ChangeProduct(outcome: LoadOutcome)
      modifies this
      ensures size == DefaultSize && color == DefaultColor && quantity == DefaultQuantity
      ensures !isLoading
      ensures error <==> outcome.LoadFailed?
      ensures outcome.Loaded? ==> singleProduct == Some(outcome.product) && products == outcome.catalogue
      ensures outcome.LoadFailed? ==> singleProduct == old(singleProduct) && products == old(products)
    {
      isLoading := true;
      error := false;
      if outcome.Loaded? {
        singleProduct := Some(outcome.product);
        products := outcome.catalogue;
      } else {
        error := true;
      }
      isLoading := false;
      quantity := DefaultQuantity;
      size := DefaultSize;
      color := DefaultColor;
    }

    method SetSize(value: string)
      modifies this
      ensures size == value
      ensures isLoading == old(isLoading) && error == old(error)
      ensures color == old(color) && quantity == old(quantity)
      ensures singleProduct == old(singleProduct) && products == old(products)
    {
      size := value;
    }

    method SetColor(value: string)
      modifies this
      ensures color == value
      ensures isLoading == old(isLoading) && error == old(error)
      ensures size == old(size) && quantity == old(quantity)
      ensures singleProduct == old(singleProduct) && products == old(products)
    {
      color := value;
    }

    method SetQuantity(value: int)
      modifies this
      ensures quantity == value
      ensures isLoading == old(isLoading) && error == old(error)
      ensures size == old(size) && color == old(color)
      ensures singleProduct == old(singleProduct) && products == old(products)
    {
      quantity := value;
    }

    /** `handleAddToCart`: nothing without a product; otherwise the cart
        line for the picked variant (the store dispatch and the toast are
        left to the caller). */
    method HandleAddToCart() returns (added: Option<CartLine>)
      ensures added.None? <==> singleProduct.None?
      ensures singleProduct.Some? ==> added == Some(MakeCartLine(singleProduct.value, quantity, size, color))
    {
      if singleProduct.None? {
        return None;
      }
      var p := singleProduct.value;
      added := Some(MakeCartLine(p, quantity, size, color));
    }
  }
}

/**
 * The all-apparel page: the print-on-demand catalogue narrowed to apparel
 * categories, shown as one card per product variant.
 */
module AllApparel {
  import opened Common

  datatype Category = Category(name: string)

  datatype Variant = Variant(id: nat, name: string, price: real, image: Option<string>)

  /** A catalogue product; `categories` may be absent from the response. */
  datatype Product = Product(id: nat, name: string, categories: Option<seq<Category>>, variants: seq<Variant>)

  const ApparelCategories: seq<string> := ["Apparel", "T-Shirts", "Hoodies", "Sweatshirts"]

  /** `p.categories?.some((c) => [...].includes(c.name))` */
  predicate IsApparel(p: Product)
  {
    p.categories.Some? && exists c :: c in p.categories.value && c.name in ApparelCategories
  }

  /** The category filter of `fetchApparel`. */
  function ApparelOnly(products: seq<Product>): (r: seq<Product>)
    ensures forall p :: p in r ==> p.categories.Some?
    ensures forall p :: p in r <==> p in products && IsApparel(p)
  {
    Filter(products, IsApparel)
  }

  /** The filter keeps the products in their catalogue order. */
  lemma ApparelOnlyKeepsOrder(products: seq<Product>)
    ensures Subsequence(ApparelOnly(products), products)
  {
    FilterIsSubsequence(products, IsApparel);
  }

  /** `fetchApparel`: a failed request or a response without a `result` list
      leaves the page's products as they were. */
  function FetchApparel(current: seq<Product>, response: Option<seq<Product>>): (r: seq<Product>)
    ensures response.None? ==> r == current
    ensures response.Some? ==> r == ApparelOnly(response.value)
    ensures response.Some? ==> forall p :: p in r <==> p in response.value && IsApparel(p)
  {
    match response
    case None => current
    case Some(result) => ApparelOnly(result)
  }

  // ---------------------------------------------------------------------------
  // Rendering

  /** The nested `products.map(product => product.variants.map(...))`,
      flattened into the grid's card order. */
  function Variants(products: seq<Product>): (r: seq<Variant>)
    ensures |r| == VariantCount(products)
  {
    if products == [] then [] else products[0].variants + Variants(products[1..])
  }

  function VariantCount(products: seq<Product>): nat
  {
    if products == [] then 0 else |products[0].variants| + VariantCount(products[1..])
  }

  /** Flattening distributes over concatenation, so the grid lists the
      variants product after product. */
  lemma {:induction false} VariantsAppend(a: seq<Product>, b: seq<Product>)
    ensures Variants(a + b) == Variants(a) + Variants(b)
  {
    if a == [] {
      assert a + b == b;
    } else {
      assert (a + b)[1..] == a[1..] + b;
      VariantsAppend(a[1..], b);
    }
  }

  /** A variant is on the grid exactly when it belongs to one of the products. */
  lemma {:induction false} VariantsMembership(products: seq<Product>, v: Variant)
    ensures v in Variants(products) <==> exists p :: p in products && v in p.variants
  {
    if products != [] {
      VariantsMembership(products[1..], v);
      assert forall p :: p in products <==> p == products[0] || p in products[1..];
    }
  }

  /** What a card shows in its picture area. */
  datatype Picture = Image(url: string) | NoImage

  datatype Tile = Tile(variantId: nat, picture: Picture, path: string)

  /** `handleCardClick(variant.id)`: navigates to `/product/<id>`. */
  function ClickPath(id: nat): (path: string)
    ensures StripPrefix(ProductRoute, path) == Some(NatToString(id))
  {
    ProductRoute + NatToString(id)
  }

  /** Different variants lead to different routes. */
  lemma ClickPathInjective(a: nat, b: nat)
    requires ClickPath(a) == ClickPath(b)
    ensures a == b
  {
    assert NatToString(a) == ClickPath(a)[|ProductRoute|..] == NatToString(b);
    NatToStringInjective(a, b);
  }

  /** One card: the variant's image when it has a non-empty one, otherwise the
      "No Image" placeholder. */
  function TileOf(v: Variant): (t: Tile)
    ensures t.picture.NoImage? <==> v.image.None? || v.image.value == ""
    ensures t.picture.Image? ==> Some(t.picture.url) == v.image
  {
    Tile(v.id, if v.image.Some? && v.image.value != "" then Image(v.image.value) else NoImage, ClickPath(v.id))
  }

  function Grid(products: seq<Product>): (cards: seq<Tile>)
    ensures |cards| == VariantCount(products)
  {
    var vs := Variants(products);
    seq(|vs|, i requires 0 <= i < |vs| => TileOf(vs[i]))
  }

  /** The k-th card belongs to the k-th variant in product order and opens
      that variant's route. */
  lemma GridCard(products: seq<Product>, k: nat)
    requires k < VariantCount(products)
    ensures Grid(products)[k].variantId == Variants(products)[k].id
    ensures StripPrefix(ProductRoute, Grid(products)[k].path) == Some(NatToString(Variants(products)[k].id))
  {
  }
}

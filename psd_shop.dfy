/** The digital-product shop page: the category filter over the product catalogue, the
    shopping cart (append, remove by id, clear, total) and the preview count of the product
    details view. */
module PsdShop {
  import opened Common

  // ---------------------------------------------------------------------------------
  // Catalogue

  /** A category button. */
  datatype Category = Category(id: string, name: string)

  /** One before/after image pair. */
  datatype BeforeAfter = BeforeAfter(before: string, after: string)

  /** A product as far as the filter, the cart and the preview count read it. A list the
      product may lack is an `Option`. */
  datatype Product = Product(
    id: int,
    name: string,
    category: string,
    price: int,
    discountPrice: int,
    featured: bool,
    images: seq<string>,
    beforeAfterImages: Option<seq<BeforeAfter>>,
    layersPreview: Option<seq<string>>)

  const AllCategory: string := "all"

  const Categories: seq<Category> := [
    Category("all", "All Products"),
    Category("presets", "Lightroom Presets"),
    Category("actions", "Photoshop Actions"),
    Category("lut", "LUTs"),
    Category("brushes", "Brushes"),
    Category("wedding", "Wedding PSD Files"),
    Category("album", "Album PSD Templates"),
    Category("babyshoot", "Baby Shoot PSD"),
    Category("birthday", "Birthday PSD Templates"),
    Category("festival", "Festival PSD Files"),
    Category("poster", "Poster / Banner PSD"),
    Category("invitation", "Invitation Card PSD"),
    Category("idcard", "ID Card PSD Templates"),
    Category("certificate", "Certificate PSD Templates")
  ]

  /** A stock photo URL of the image host the catalogue uses, at a width and quality. */
  function Photo(photoId: string, width: string, quality: string): string
  {
    "https://images.unsplash.com/photo-" + photoId
    + "?ixlib=rb-4.0.3&auto=format&fit=crop&w=" + width + "&q=" + quality
  }

  const Products: seq<Product> := [
    Product(1, "Cinematic Wedding Presets", "presets", 89, 59, true,
      [Photo("1554048612-b6a482bc67e5", "1200", "80"), Photo("1465495976277-4387d4b0e4a6", "1200", "80"),
       Photo("1511285560929-80b456fea0bc", "1200", "80"), Photo("1519225421980-715cb0215aed", "1200", "80"),
       Photo("1519741497674-611481863552", "1200", "80")],
      Some([BeforeAfter(Photo("1554048612-b6a482bc67e5", "800", "50"), Photo("1519741497674-611481863552", "800", "80"))]),
      Some([Photo("1611262588024-d12430b98920", "800", "80"), Photo("1551650975-87deedd944c3", "800", "80")])),
    Product(2, "Professional Portrait Actions", "actions", 79, 49, true,
      [Photo("1507003211169-0a1dd7228f2d", "1200", "80"), Photo("1504257432389-52343af06ae3", "1200", "80"),
       Photo("1494790108755-2616b786d4d5", "1200", "80"), Photo("1534528741775-53994a69daeb", "1200", "80")],
      Some([BeforeAfter(Photo("1534528741775-53994a69daeb", "800", "50"), Photo("1494790108755-2616b786d4d5", "800", "80"))]),
      Some([Photo("1551650975-87deedd944c3", "800", "80"), Photo("1611262588024-d12430b98920", "800", "80")])),
    Product(3, "Instagram Story Templates", "templates", 69, 39, false,
      [Photo("1611605698335-8b1569810432", "1200", "80"), Photo("1611162617213-7d7a39e9b1d7", "1200", "80"),
       Photo("1611605698323-2323c516a379", "1200", "80"), Photo("1611162616305-c69b3fa7fbe0", "1200", "80")],
      Some([]),
      Some([Photo("1551650975-87deedd944c3", "800", "80"), Photo("1611262588024-d12430b98920", "800", "80"),
            Photo("1542744095-fcf48d80b0fd", "800", "80")])),
    Product(4, "Cinematic LUT Pack", "lut", 89, 59, true,
      [Photo("1485846234645-a62644f84728", "1200", "80"), Photo("1516035069371-29a1b244cc32", "1200", "80"),
       Photo("1518709268805-4e9042af2176", "1200", "80"), Photo("1519642918688-7e43b19245d8", "1200", "80")],
      Some([BeforeAfter(Photo("1519642918688-7e43b19245d8", "800", "50"), Photo("1516035069371-29a1b244cc32", "800", "80"))]),
      Some([])),
    Product(5, "Professional Retouching Brushes", "brushes", 49, 29, false,
      [Photo("1563089145-599997674d42", "1200", "80"), Photo("1513475382585-d06e58bcb0e0", "1200", "80"),
       Photo("1542744095-fcf48d80b0fd", "1200", "80"), Photo("1611262588024-d12430b98920", "1200", "80")],
      Some([]),
      Some([Photo("1551650975-87deedd944c3", "800", "80")])),
    Product(6, "Wedding Album Templates", "templates", 129, 89, true,
      [Photo("1511285560929-80b456fea0bc", "1200", "80"), Photo("1465495976277-4387d4b0e4a6", "1200", "80"),
       Photo("1519225421980-715cb0215aed", "1200", "80"), Photo("1519741497674-611481863552", "1200", "80"),
       Photo("1551650975-87deedd944c3", "1200", "80")],
      Some([]),
      Some([Photo("1551650975-87deedd944c3", "800", "80"), Photo("1611262588024-d12430b98920", "800", "80"),
            Photo("1542744095-fcf48d80b0fd", "800", "80")]))
  ]

  // ---------------------------------------------------------------------------------
  // Category filter and category names

  /** The test `product => product.category === selected`. */
  function InCategory(selected: string): Product -> bool
  {
    (p: Product) => p.category == selected
  }

  /** `filteredProducts`: the whole list under 'all', otherwise the products of the selected
      category, in catalogue order and with their multiplicities. */
  function FilteredProducts(products: seq<Product>, selected: string): (r: seq<Product>)
    ensures selected == AllCategory ==> r == products
    ensures selected != AllCategory ==> forall p :: p in r <==> p in products && p.category == selected
    ensures selected != AllCategory ==>
              forall p :: multiset(r)[p] == if p.category == selected then multiset(products)[p] else 0
    ensures |r| <= |products|
  {
    if selected == AllCategory then products
    else
      KeepCounts(products, InCategory(selected));
      Keep(products, InCategory(selected))
  }

  /** The filter works element by element: filtering a concatenation concatenates the
      filtered parts, so the catalogue order is kept. */
  lemma FilteredProductsKeepsOrder(a: seq<Product>, b: seq<Product>, selected: string)
    ensures FilteredProducts(a + b, selected) == FilteredProducts(a, selected) + FilteredProducts(b, selected)
  {
    if selected != AllCategory {
      KeepAppend(a, b, InCategory(selected));
    }
  }

  /** The test `c => c.id === id`. */
  function HasId(id: string): Category -> bool
  {
    (c: Category) => c.id == id
  }

  /** `categories.find(c => c.id === id)?.name`. */
  function CategoryName(categories: seq<Category>, id: string): (r: Option<string>)
    ensures r.None? <==> forall c :: c in categories ==> c.id != id
    ensures r.Some? ==> Category(id, r.value) in categories
  {
    var found := FindFirst(categories, HasId(id));
    if found.Some? then Some(found.value.name) else None
  }

  /** A category that no button carries is listed only under 'all': no button's filter
      lets one of its products through, while 'all' lists every product. */
  lemma UnlistedCategoryOnlyUnderAll(categories: seq<Category>, products: seq<Product>, orphan: string)
    requires AllCategory != orphan
    requires CategoryName(categories, orphan).None?
    ensures forall c, p :: c in categories && c.id != AllCategory && p in FilteredProducts(products, c.id) ==>
              p.category != orphan
    ensures forall p :: p in products ==> p in FilteredProducts(products, AllCategory)
  {
    forall c, p | c in categories && c.id != AllCategory && p in FilteredProducts(products, c.id)
      ensures p.category != orphan
    {
      assert c.id != orphan;
    }
  }

  /** No button of the page carries the id "templates". */
  lemma NoTemplatesButton()
    ensures CategoryName(Categories, "templates").None?
  {
    assert forall c :: c in Categories ==> c.id != "templates";
  }

  /** The catalogue's two "templates" products have no button, and their details view
      names no category. */
  lemma TemplatesHaveNoButton()
    ensures Products[2].category == "templates" && Products[5].category == "templates"
    ensures CategoryName(Categories, Products[2].category).None?
    ensures CategoryName(Categories, Products[5].category).None?
  {
    NoTemplatesButton();
  }

  /** Hence the two "templates" products are listed under 'all' and under no other button. */
  lemma TemplatesOnlyUnderAll()
    ensures Products[2] in FilteredProducts(Products, AllCategory)
    ensures Products[5] in FilteredProducts(Products, AllCategory)
    ensures forall c :: c in Categories && c.id != AllCategory ==> Products[2] !in FilteredProducts(Products, c.id)
    ensures forall c :: c in Categories && c.id != AllCategory ==> Products[5] !in FilteredProducts(Products, c.id)
  {
    var p2, p5 := Products[2], Products[5];
    TemplatesHaveNoButton();
    UnlistedCategoryOnlyUnderAll(Categories, Products, "templates");
    assert p2 in Products && p5 in Products;
  }

  /** The other four products are in the categories "presets", "actions", "lut" and
      "brushes", ... */
  lemma OtherProductCategories()
    ensures Products[0].category == "presets" && Products[1].category == "actions"
    ensures Products[3].category == "lut" && Products[4].category == "brushes"
  {
  }

  /** ... each of which has a button, whose name their details view shows. */
  lemma ButtonName(k: nat)
    requires 1 <= k <= 4
    ensures CategoryName(Categories, Categories[k].id) == Some(Categories[k].name)
    ensures Categories[1] == Category("presets", "Lightroom Presets")
    ensures Categories[2] == Category("actions", "Photoshop Actions")
    ensures Categories[3] == Category("lut", "LUTs")
    ensures Categories[4] == Category("brushes", "Brushes")
  {
    var cs := Categories;
    var id := cs[k].id;
    assert id == ["presets", "actions", "lut", "brushes"][k - 1];
    assert forall j :: 0 <= j < k ==> cs[j].id != id;
    FindFirstAt(cs, HasId(id), k);
  }

  // ---------------------------------------------------------------------------------
  // Cart

  /** `cartItems.reduce((total, item) => total + item.discountPrice, 0)`. */
  function CartTotal(items: seq<Product>): (t: int)
    ensures items == [] ==> t == 0
  {
    if items == [] then 0 else items[0].discountPrice + CartTotal(items[1..])
  }

  /** The total of two lists put together is the sum of their totals. */
  lemma {:induction false} CartTotalConcat(a: seq<Product>, b: seq<Product>)
    ensures CartTotal(a + b) == CartTotal(a) + CartTotal(b)
  {
    if a == [] {
      assert a + b == b;
    } else {
      assert (a + b)[0] == a[0];
      assert (a + b)[1..] == a[1..] + b;
      CartTotalConcat(a[1..], b);
    }
  }

  /** Adding product `p` raises the total by `p.discountPrice`. */
  lemma CartTotalAdd(items: seq<Product>, p: Product)
    ensures CartTotal(items + [p]) == CartTotal(items) + p.discountPrice
  {
    CartTotalConcat(items, [p]);
  }

  /** The test `item => item.id !== id`, and its complement. */
  function OtherId(id: int): Product -> bool
  {
    (p: Product) => p.id != id
  }

  function SameId(id: int): Product -> bool
  {
    (p: Product) => p.id == id
  }

  /** `prev.filter(item => item.id !== id)`: every entry with the id is gone, every other
      entry stays with its multiplicity. */
  function WithoutId(items: seq<Product>, id: int): (r: seq<Product>)
    ensures forall p :: p in r <==> p in items && p.id != id
    ensures forall p :: multiset(r)[p] == if p.id != id then multiset(items)[p] else 0
    ensures |r| <= |items|
  {
    KeepCounts(items, OtherId(id));
    Keep(items, OtherId(id))
  }

  /** Removal keeps the order of the remaining entries. */
  lemma WithoutIdKeepsOrder(a: seq<Product>, b: seq<Product>, id: int)
    ensures WithoutId(a + b, id) == WithoutId(a, id) + WithoutId(b, id)
  {
    KeepAppend(a, b, OtherId(id));
  }

  /** Removing an id twice is removing it once, and removing the id of a product just
      added takes away that product together with its earlier copies. */
  lemma WithoutIdFacts(items: seq<Product>, p: Product)
    ensures WithoutId(WithoutId(items, p.id), p.id) == WithoutId(items, p.id)
    ensures WithoutId(items + [p], p.id) == WithoutId(items, p.id)
  {
    KeepAll(WithoutId(items, p.id), OtherId(p.id));
    KeepAppend(items, [p], OtherId(p.id));
    assert Keep([p], OtherId(p.id)) == [] by {
      KeepNone([p], OtherId(p.id));
    }
  }

  /** Removing an id lowers the total by exactly the prices of the removed entries. */
  lemma {:induction false} CartTotalRemove(items: seq<Product>, id: int)
    ensures CartTotal(items) == CartTotal(WithoutId(items, id)) + CartTotal(Keep(items, SameId(id)))
  {
    if items != [] {
      var x, rest := items[0], items[1..];
      CartTotalRemove(rest, id);
      if x.id != id {
        assert WithoutId(items, id) == [x] + WithoutId(rest, id);
        assert Keep(items, SameId(id)) == Keep(rest, SameId(id));
        CartTotalConcat([x], WithoutId(rest, id));
      } else {
        assert WithoutId(items, id) == WithoutId(rest, id);
        assert Keep(items, SameId(id)) == [x] + Keep(rest, SameId(id));
        CartTotalConcat([x], Keep(rest, SameId(id)));
      }
    }
  }

  /** The cart of the page: `cartItems`, which the handlers replace. */
  class Cart {
    var cartItems: seq<Product>

    constructor ()
      ensures cartItems == []
    {
      cartItems := [];
    }

    /** `calculateTotal`. */
    function Total(): (t: int)
      reads this
      ensures cartItems == [] ==> t == 0
      ensures cartItems != [] ==> t == cartItems[0].discountPrice + CartTotal(cartItems[1..])
    {
      CartTotal(cartItems)
    }

    /** `addToCart`: the product goes last; earlier entries, duplicates included, stay. */
    method AddToCart(product: Product)
      modifies this
      ensures cartItems == old(cartItems) + [product]
      ensures Total() == old(Total()) + product.discountPrice
    {
      cartItems := cartItems + [product];
      CartTotalAdd(old(cartItems), product);
    }

    /** `removeFromCart`: drops every entry with the id. */
    method RemoveFromCart(productId: int)
      modifies this
      ensures cartItems == WithoutId(old(cartItems), productId)
      ensures Total() == old(Total()) - CartTotal(Keep(old(cartItems), SameId(productId)))
    {
      CartTotalRemove(cartItems, productId);
      cartItems := WithoutId(cartItems, productId);
    }

    /** The "Clear" button: the cart is empty and its total is 0. */
    method ClearCart()
      modifies this
      ensures cartItems == [] && Total() == 0
    {
      cartItems := [];
    }
  }

  // ---------------------------------------------------------------------------------
  // Preview count

  function OptionalLength<T>(xs: Option<seq<T>>): (n: nat)
    ensures xs.None? ==> n == 0
    ensures xs.Some? ==> n == |xs.value|
  {
    if xs.Some? then |xs.value| else 0
  }

  /** A slide of the details view's main carousel. */
  datatype Slide =
    | ImageSlide(src: string)
    | CompareSlide(before: string, after: string)
    | LayerSlide(layer: string)

  /** `images.map(...)`: one image slide per image, in order. */
  function ImageSlides(images: seq<string>): (r: seq<Slide>)
    ensures |r| == |images|
    ensures forall i :: 0 <= i < |images| ==> r[i] == ImageSlide(images[i])
  {
    seq(|images|, i requires 0 <= i < |images| => ImageSlide(images[i]))
  }

  /** `beforeAfterImages && beforeAfterImages.map(...)`: nothing for a missing list,
      otherwise one comparison slide per pair, in order. */
  function CompareSlides(pairs: Option<seq<BeforeAfter>>): (r: seq<Slide>)
    ensures pairs.None? ==> r == []
    ensures pairs.Some? ==> |r| == |pairs.value|
    ensures pairs.Some? ==>
              forall i :: 0 <= i < |pairs.value| ==>
                r[i] == CompareSlide(pairs.value[i].before, pairs.value[i].after)
  {
    if pairs.None? then []
    else seq(|pairs.value|, i requires 0 <= i < |pairs.value| =>
               CompareSlide(pairs.value[i].before, pairs.value[i].after))
  }

  /** `layersPreview && layersPreview.map(...)`: nothing for a missing list, otherwise one
      layer slide per preview, in order. */
  function LayerSlides(layers: Option<seq<string>>): (r: seq<Slide>)
    ensures layers.None? ==> r == []
    ensures layers.Some? ==> |r| == |layers.value|
    ensures layers.Some? ==> forall i :: 0 <= i < |layers.value| ==> r[i] == LayerSlide(layers.value[i])
  {
    if layers.None? then []
    else seq(|layers.value|, i requires 0 <= i < |layers.value| => LayerSlide(layers.value[i]))
  }

  /** The slides the carousel draws: the images, then the before/after pairs, then the
      layer previews. */
  function Slides(p: Product): (r: seq<Slide>)
    ensures |r| >= |p.images|
    ensures r[..|p.images|] == ImageSlides(p.images)
    ensures r[|p.images|..] == CompareSlides(p.beforeAfterImages) + LayerSlides(p.layersPreview)
  {
    var a, b := ImageSlides(p.images), CompareSlides(p.beforeAfterImages) + LayerSlides(p.layersPreview);
    assert (a + b)[..|a|] == a && (a + b)[|a|..] == b;
    a + b
  }

  /** `images.length + (beforeAfterImages?.length || 0) + (layersPreview?.length || 0)`. */
  function PreviewCount(p: Product): (n: nat)
    ensures n >= |p.images|
  {
    |p.images| + OptionalLength(p.beforeAfterImages) + OptionalLength(p.layersPreview)
  }

  /** The preview count shown under the carousel is the number of slides it draws, for
      every product, whichever of its optional lists are missing. */
  lemma PreviewCountIsSlideCount(p: Product)
    ensures |Slides(p)| == PreviewCount(p)
  {
    var r := Slides(p);
    assert |r| == |r[..|p.images|]| + |r[|p.images|..]|;
  }

  /** The preview counts the details view shows for the six catalogue products. */
  lemma CataloguePreviewCounts()
    ensures |Products| == 6
    ensures PreviewCount(Products[0]) == 8 && PreviewCount(Products[1]) == 7
    ensures PreviewCount(Products[2]) == 7 && PreviewCount(Products[3]) == 5
    ensures PreviewCount(Products[4]) == 5 && PreviewCount(Products[5]) == 8
  {
  }
}

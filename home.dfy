/** The storefront home page's data shaping: what each of the four fetches returns
    for each kind of reply, the order categories and brands are shown in, and how
    image addresses are resolved against the API's base. */
module Home {
  import opened Options
  import opened Text
  import opened Seqs
  import Media

  datatype Banner = Banner(id: string, title: string, description: string, imageUrl: string, link: Option<string>)
  datatype ImageRef = ImageRef(imageUrl: Option<string>)
  datatype Product = Product(id: string, name: string, images: Option<seq<ImageRef>>)
  datatype Category = Category(id: string, name: string, slug: string, imageUrl: string, productCount: nat, sortOrder: Option<int>)
  datatype Brand = Brand(id: string, name: string, slug: string, logoUrl: string, showOnHomepage: bool, displayOrder: int, productCount: nat)

  /** A parsed reply `{ success, data }` (with `data` absent or present), or a fetch or
      parse that throws. */
  datatype Reply<D> = Parsed(success: bool, data: Option<D>) | Thrown

  /** `getHomeBanners`: `result.success ? result.data : []`, `[]` on an exception.
      A successful reply without data yields `undefined`, here `None`. */
  function HomeBanners(reply: Reply<seq<Banner>>): (r: Option<seq<Banner>>)
    ensures !(reply.Parsed? && reply.success) ==> r == Some([])
    ensures reply.Parsed? && reply.success ==> r == reply.data
  {
    match reply
    case Parsed(success, data) => if success then data else Some([])
    case Thrown => Some([])
  }

  /** The `data` of the products reply: a page whose `items` may be absent. */
  datatype ProductPage = ProductPage(items: Option<seq<Product>>)

  /** `getProducts`: `result.success ? result.data.items : []`. Reading `items` of a
      missing `data` throws, which the `catch` turns into `[]`. */
  function HomeProducts(reply: Reply<ProductPage>): (r: Option<seq<Product>>)
    ensures !(reply.Parsed? && reply.success && reply.data.Some?) ==> r == Some([])
    ensures reply.Parsed? && reply.success && reply.data.Some? ==> r == reply.data.value.items
  {
    match reply
    case Parsed(success, data) =>
      if success then (if data.Some? then data.value.items else Some([])) else Some([])
    case Thrown => Some([])
  }

  /** The categories reply's `data`: an array, or anything else. */
  datatype CategoryData = CategoryArray(items: seq<Category>) | NotArray

  /** `a.sortOrder ?? 0` */
  function SortKey(c: Category): int
  {
    if c.sortOrder.Some? then c.sortOrder.value else 0
  }

  /** `getCategories`: `[]` unless the reply succeeded with an array, which is then
      sorted by `sortOrder`. */
  function HomeCategories(reply: Reply<CategoryData>): seq<Category>
  {
    match reply
    case Parsed(success, data) =>
      if !success || data.None? || data.value.NotArray? then []
      else SortBy(data.value.items, SortKey)
    case Thrown => []
  }

  /** The categories shown are those of the reply, each once, ascending by sort order
      (missing counts as 0), and ties keep the API's order. */
  lemma HomeCategoriesSpec(items: seq<Category>, k: int)
    ensures var r := HomeCategories(Parsed(true, Some(CategoryArray(items))));
            && multiset(r) == multiset(items) && SortedBy(r, SortKey)
            && WithKey(r, SortKey, k) == WithKey(items, SortKey, k)
    ensures HomeCategories(Parsed(true, Some(NotArray))) == []
  {
    SortBySorted(items, SortKey);
    SortByStable(items, SortKey, k);
  }

  function DisplayOrder(b: Brand): int
  {
    b.displayOrder
  }

  /** `b => b.showOnHomepage` */
  predicate OnHomepage(b: Brand)
  {
    b.showOnHomepage
  }

  /** `getBrands`: the brands flagged for the homepage, by display order; `[]` on
      failure. A successful reply without data throws in `filter`, giving `[]` too. */
  function HomeBrands(reply: Reply<seq<Brand>>): seq<Brand>
  {
    match reply
    case Parsed(success, data) =>
      if success && data.Some? then SortBy(Filter(data.value, OnHomepage), DisplayOrder)
      else []
    case Thrown => []
  }

  /** The homepage shows exactly the flagged brands, each as often as the reply holds
      it, ascending by display order. */
  lemma HomeBrandsSpec(brands: seq<Brand>)
    ensures var r := HomeBrands(Parsed(true, Some(brands)));
            && (forall b :: b in r <==> b in brands && b.showOnHomepage)
            && multiset(r) == multiset(Filter(brands, OnHomepage))
            && SortedBy(r, DisplayOrder)
            && |r| <= |brands|
  {
    var p := OnHomepage;
    var f := Filter(brands, p);
    var r := SortBy(f, DisplayOrder);
    SortBySorted(f, DisplayOrder);
    forall b ensures b in r <==> b in f {
      assert b in r <==> b in multiset(r);
      assert b in f <==> b in multiset(f);
    }
    forall b | b in brands && p(b) ensures b in f {
      FilterKeeps(brands, p, b);
    }
  }

  /** Every failure leaves each section empty (or, for banners and products without
      items, undefined). */
  lemma FailuresGiveNothing()
    ensures HomeCategories(Thrown) == [] && HomeBrands(Thrown) == []
    ensures HomeBanners(Thrown) == Some([]) && HomeProducts(Thrown) == Some([])
    ensures HomeCategories(Parsed(false, None)) == [] && HomeBrands(Parsed(false, None)) == []
    ensures HomeBanners(Parsed(false, None)) == Some([]) && HomeProducts(Parsed(false, None)) == Some([])
  {
  }

  /** `url.startsWith("http") ? url : `${baseUrl}${url}`` */
  function Resolve(base: string, url: string): string
  {
    if StartsWith(url, "http") then url else base + url
  }

  /** `product.images?.[0]?.imageUrl` */
  function FirstImageUrl(images: Option<seq<ImageRef>>): Option<string>
  {
    if images.Some? && |images.value| > 0 then images.value[0].imageUrl else None
  }

  /** The product card's image: a missing first image resolves `""` and so gives the
      base address alone. */
  function ProductImageSrc(base: string, p: Product): (r: string)
    ensures !Truthy(FirstImageUrl(p.images)) ==> r == base
  {
    var first := FirstImageUrl(p.images);
    if first.Some? && StartsWith(first.value, "http") then first.value
    else base + OrOpt(first, "")
  }

  /** The card's image is the first image resolved, the logo and category pictures are
      resolved as they are; where a URL is non-empty this agrees with the admin pages'
      `getImageUrl`, and where it is empty the home page gives the base, not "". */
  lemma ResolutionAgrees(base: string, p: Product, url: string)
    ensures ProductImageSrc(base, p) == Resolve(base, OrOpt(FirstImageUrl(p.images), ""))
    ensures url != "" ==> Resolve(base, url) == Media.ImageUrl(base, Some(url))
    ensures Resolve(base, "") == base && Media.ImageUrl(base, Some("")) == ""
  {
  }
}

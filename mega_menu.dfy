/** The desktop mega-menu opened on a main category: the subcategory column with its
    active entry, the child links of the active subcategory, and the brand row. */
module MegaMenu {
  import opened Options
  import opened Text
  import RouteGuard
  import opened Header

  /** A brand of the menu's brand row. */
  datatype Brand = Brand(id: string, name: string, slug: string, logoUrl: string)

  /** The subcategory made active when the main category changes: its first
      subcategory, or none when it has none. */
  function DefaultSubcategory(main: Category): (r: Option<Category>)
    ensures r.Some? <==> HasSubcategories(main)
    ensures r.Some? ==> r.value in main.subCategories.value
  {
    if HasSubcategories(main) then Some(main.subCategories.value[0]) else None
  }

  /** `/category/${main.slug}/${sub.slug}` */
  function SubLink(main: Category, sub: Category): string
  {
    "/category/" + main.slug + "/" + sub.slug
  }

  /** `/category/${main.slug}/${sub.slug}/${child.slug}` */
  function ChildLink(main: Category, sub: Category, child: Category): string
  {
    "/category/" + main.slug + "/" + sub.slug + "/" + child.slug
  }

  /** `/brand/${brand.slug}` */
  function BrandLink(b: Brand): string
  {
    "/brand/" + b.slug
  }

  /** A child link lies below its subcategory's link, and two subcategories of one
      main category share a link only when they share a slug. */
  lemma LinksNest(main: Category, sub: Category, other: Category, child: Category)
    ensures ChildLink(main, sub, child) == SubLink(main, sub) + "/" + child.slug
    ensures StartsWith(ChildLink(main, sub, child), SubLink(main, sub) + "/")
    ensures SubLink(main, sub) == SubLink(main, other) ==> sub.slug == other.slug
  {
    var p := "/category/" + main.slug + "/";
    assert SubLink(main, sub) == p + sub.slug;
    assert SubLink(main, other) == p + other.slug;
    assert (p + sub.slug)[|p|..] == sub.slug;
    assert (p + other.slug)[|p|..] == other.slug;
    assert ChildLink(main, sub, child) == (SubLink(main, sub) + "/") + child.slug;
  }

  /** The menu's links lead into the storefront: the route guard lets every one of
      them through, with or without a session. */
  lemma LinksAreNeverGuarded(main: Category, sub: Category, child: Category, b: Brand, cookie: Option<string>)
    ensures RouteGuard.Route(SubLink(main, sub), cookie) == RouteGuard.Next
    ensures RouteGuard.Route(ChildLink(main, sub, child), cookie) == RouteGuard.Next
    ensures RouteGuard.Route(BrandLink(b), cookie) == RouteGuard.Next
  {
    assert SubLink(main, sub)[1] == 'c';
    assert ChildLink(main, sub, child)[1] == 'c';
    assert BrandLink(b)[1] == 'b';
  }

  /** The links of the children of `sub`, in order. */
  function ChildLinks(main: Category, sub: Category): (r: seq<string>)
    ensures HasSubcategories(sub) ==> |r| == |sub.subCategories.value|
    ensures !HasSubcategories(sub) ==> r == []
    ensures HasSubcategories(sub) ==>
              forall i :: 0 <= i < |r| ==> r[i] == ChildLink(main, sub, sub.subCategories.value[i])
  {
    if HasSubcategories(sub) then LinksOf(main, sub, sub.subCategories.value) else []
  }

  function LinksOf(main: Category, sub: Category, children: seq<Category>): (r: seq<string>)
    ensures |r| == |children|
    ensures forall i :: 0 <= i < |r| ==> r[i] == ChildLink(main, sub, children[i])
  {
    if children == [] then [] else [ChildLink(main, sub, children[0])] + LinksOf(main, sub, children[1..])
  }

  /** `child.name ?? "Unnamed"` */
  function ChildLabel(child: Category): string
  {
    if child.name.Some? then child.name.value else "Unnamed"
  }

  /** Only a missing name is replaced: `??` keeps an empty name, unlike `||`. */
  lemma LabelKeepsEmptyName(child: Category)
    ensures child.name.None? ==> ChildLabel(child) == "Unnamed"
    ensures child.name.Some? ==> ChildLabel(child) == child.name.value
    ensures child.name == Some("") ==> ChildLabel(child) == "" && Or("", "Unnamed") == "Unnamed"
  {
  }

  /** The brands reply: parsed JSON whose `data` may be missing, or an exception. */
  datatype BrandsReply = Parsed(data: Option<seq<Brand>>) | Thrown

  /** `setBrands(json.data || [])`; an exception keeps the brands. */
  function LoadedBrands(current: seq<Brand>, reply: BrandsReply): (r: seq<Brand>)
    ensures reply.Thrown? ==> r == current
    ensures reply.Parsed? && reply.data.None? ==> r == []
    ensures reply.Parsed? && reply.data.Some? ==> r == reply.data.value
  {
    match reply
    case Parsed(data) => if data.Some? then data.value else []
    case Thrown => current
  }

  /** The menu's state while it is shown on `main`. */
  class MegaMenuPanel {
    var main: Category
    var activeSub: Option<Category>
    var brands: seq<Brand>

    /** Mounting, with the default-subcategory effect run once. */
    constructor (m: Category)
      ensures main == m && activeSub == DefaultSubcategory(m) && brands == []
    {
      main, activeSub, brands := m, DefaultSubcategory(m), [];
    }

    /** The subcategory entry drawn as active. */
    predicate IsHighlighted(sub: Category)
      reads this
    {
      activeSub.Some? && activeSub.value.id == sub.id
    }

    /** The links of the middle column. */
    function ShownChildLinks(): seq<string>
      reads this
    {
      if activeSub.Some? then ChildLinks(main, activeSub.value) else []
    }

    /** A new `activeMainCategory` and the effect that follows it. */
    method ChangeMain(m: Category)
      modifies this
      ensures main == m && activeSub == DefaultSubcategory(m) && brands == old(brands)
      ensures HasSubcategories(m) ==> IsHighlighted(m.subCategories.value[0])
    {
      main := m;
      activeSub := DefaultSubcategory(m);
    }

    /** Pointing at one of the listed subcategories. */
    method HoverSubcategory(sub: Category)
      requires HasSubcategories(main) && sub in main.subCategories.value
      modifies this
      ensures activeSub == Some(sub) && main == old(main) && brands == old(brands)
      ensures forall s :: IsHighlighted(s) <==> s.id == sub.id
      ensures ShownChildLinks() == ChildLinks(main, sub)
    {
      activeSub := Some(sub);
    }

    /** `loadBrands` */
    method LoadBrands(reply: BrandsReply)
      modifies this
      ensures brands == LoadedBrands(old(brands), reply)
      ensures main == old(main) && activeSub == old(activeSub)
    {
      brands := LoadedBrands(brands, reply);
    }
  }
}

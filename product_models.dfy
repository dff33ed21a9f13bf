/** The product data model: products, prices, marketplace links, their enums,
    and the resolution of resource names to drawables with default fallbacks. */
module ProductModels {
  import opened Collections

  datatype MarketplaceType =
    | Official    // the brand's own store
    | Primary     // a main marketplace
    | Secondary   // a secondary marketplace

  datatype AvailabilityStatus = InStock | OutOfStock | ComingSoon | Limited | PreOrder

  /** A price: the amount as text, a currency, and an optional display range. */
  datatype ProductPrice = ProductPrice(amount: string, currency: string := "$", range: Option<string> := None)

  /** One purchase link of a product. */
  datatype MarketplaceLink = MarketplaceLink(
    name: string,
    iconName: Option<string> := None,
    kind: MarketplaceType,
    url: string,
    price: Option<ProductPrice> := None,
    availability: AvailabilityStatus := InStock)

  /** A product with the fields the view models build it from; `createdAt` is
      `None` where a caller leaves it to the declaration's default. */
  datatype Product = Product(
    id: string,
    name: string,
    description: string,
    imageName: string,
    price: ProductPrice,
    officialUrl: string,
    marketplaces: seq<MarketplaceLink> := [],
    createdAt: Option<string> := None)

  /** The defaults of the records, as a caller leaving them out obtains them. */
  lemma RecordDefaults(amount: string, name: string, kind: MarketplaceType, url: string)
    ensures ProductPrice(amount).currency == "$" && ProductPrice(amount).range == None
    ensures var l := MarketplaceLink(name := name, kind := kind, url := url);
            l.iconName == None && l.price == None && l.availability == InStock
  {
  }

  /** The bundled drawable resources that names can resolve to. */
  datatype Drawable =
    | LabubuDemo | IconPopNow
    | Popmart | Shopee | Lazada | Tiktok | Amazon
    | ComposeMultiplatform | IconOpenLink | IconCollection

  /** The resource name of each drawable. */
  function DrawableName(d: Drawable): string {
    match d
    case LabubuDemo => "labubu_demo"
    case IconPopNow => "icon_pop_now"
    case Popmart => "popmart"
    case Shopee => "shopee"
    case Lazada => "lazada"
    case Tiktok => "tiktok"
    case Amazon => "amazon"
    case ComposeMultiplatform => "compose_multiplatform"
    case IconOpenLink => "icon_open_link"
    case IconCollection => "icon_collection"
  }

  const KnownDrawableNames: set<string> :=
    {"labubu_demo", "icon_pop_now", "popmart", "shopee", "lazada", "tiktok", "amazon",
     "compose_multiplatform", "icon_open_link", "icon_collection"}

  const DefaultProductImage: Drawable := IconCollection
  const DefaultMarketplaceIcon: Drawable := IconOpenLink

  /** `DrawableResolver.resolveDrawable`: the drawable a name stands for, if any. */
  function ResolveDrawable(name: string): (r: Option<Drawable>)
    ensures r.Some? <==> name in KnownDrawableNames
    ensures r.Some? ==> DrawableName(r.value) == name
  {
    if name == "labubu_demo" then Some(LabubuDemo)
    else if name == "icon_pop_now" then Some(IconPopNow)
    else if name == "popmart" then Some(Popmart)
    else if name == "shopee" then Some(Shopee)
    else if name == "lazada" then Some(Lazada)
    else if name == "tiktok" then Some(Tiktok)
    else if name == "amazon" then Some(Amazon)
    else if name == "compose_multiplatform" then Some(ComposeMultiplatform)
    else if name == "icon_open_link" then Some(IconOpenLink)
    else if name == "icon_collection" then Some(IconCollection)
    else None
  }

  /** Every drawable is reached from its own name, so resolution and naming are
      inverse to each other. */
  lemma ResolveDrawableName(d: Drawable)
    ensures ResolveDrawable(DrawableName(d)) == Some(d)
  {
    var r := ResolveDrawable(DrawableName(d));
    assert r.Some?;
    match d
    case LabubuDemo =>
    case IconPopNow =>
    case Popmart =>
    case Shopee =>
    case Lazada =>
    case Tiktok =>
    case Amazon =>
    case ComposeMultiplatform =>
    case IconOpenLink =>
    case IconCollection =>
  }

  /** `Product.imageResource`: the resolved image, or the default product image. */
  function ImageResource(p: Product): (r: Drawable)
    ensures p.imageName in KnownDrawableNames ==> DrawableName(r) == p.imageName
    ensures p.imageName !in KnownDrawableNames ==> r == DefaultProductImage
  {
    ResolveDrawable(p.imageName).GetOr(DefaultProductImage)
  }

  /** `MarketplaceLink.iconResource`: the resolved icon, or the default
      marketplace icon when the name is absent or unknown. */
  function IconResource(l: MarketplaceLink): (r: Drawable)
    ensures l.iconName.Some? && l.iconName.value in KnownDrawableNames ==> DrawableName(r) == l.iconName.value
    ensures l.iconName.None? || l.iconName.value !in KnownDrawableNames ==> r == DefaultMarketplaceIcon
  {
    match l.iconName
    case Some(n) => ResolveDrawable(n).GetOr(DefaultMarketplaceIcon)
    case None => DefaultMarketplaceIcon
  }
}

/** What a product card shows of a product's purchase links: the primary
    (official) button, the divider, and the row of secondary buttons. */
module ProductCard {
  import opened Collections
  import opened ProductModels

  /** The part of the card's configuration that decides what is shown. */
  datatype ProductCardConfig = ProductCardConfig(showDivider: bool := true)

  const IsOfficial: MarketplaceLink -> bool := (l: MarketplaceLink) => l.kind == Official

  const IsSecondary: MarketplaceLink -> bool := (l: MarketplaceLink) => l.kind == Secondary

  /** The link behind the primary button: the first `Official` link in list order. */
  function PrimaryMarketplace(p: Product): (r: Option<MarketplaceLink>)
    ensures r.Some? <==> exists i :: 0 <= i < |p.marketplaces| && p.marketplaces[i].kind == Official
    ensures r.Some? ==> exists i :: 0 <= i < |p.marketplaces| && p.marketplaces[i] == r.value &&
                                    r.value.kind == Official &&
                                    forall j :: 0 <= j < i ==> p.marketplaces[j].kind != Official
  {
    FirstWhere(p.marketplaces, IsOfficial)
  }

  /** The links of the secondary row: exactly the `Secondary` links, each as
      often as the product lists it, in order. */
  function SecondaryMarketplaces(p: Product): (r: seq<MarketplaceLink>)
    ensures forall l :: l in r <==> l in p.marketplaces && l.kind == Secondary
    ensures forall l :: multiset(r)[l] == if l.kind == Secondary then multiset(p.marketplaces)[l] else 0
    ensures IsSubsequence(r, p.marketplaces)
  {
    FilterSpec(p.marketplaces, IsSecondary);
    Filter(p.marketplaces, IsSecondary)
  }

  /** The divider is drawn when configured and some link is `Secondary`. */
  predicate ShowDivider(config: ProductCardConfig, p: Product) {
    config.showDivider && Any(p.marketplaces, IsSecondary)
  }

  /** The secondary row is drawn when it has at least one button. */
  predicate ShowSecondaryRow(p: Product) {
    SecondaryMarketplaces(p) != []
  }

  /** A secondary button is enabled only for a link that is in stock. */
  predicate ButtonEnabled(l: MarketplaceLink) {
    l.availability == InStock
  }

  /** The divider goes with the row: it is drawn exactly when configured and
      the secondary row is drawn. */
  lemma DividerIffRow(config: ProductCardConfig, p: Product)
    ensures ShowDivider(config, p) <==> config.showDivider && ShowSecondaryRow(p)
  {
    FilterEmptyIffNone(p.marketplaces, IsSecondary);
  }

  /** The secondary row is drawn exactly when some link is `Secondary`. */
  lemma SecondaryRowIff(p: Product)
    ensures ShowSecondaryRow(p) <==> exists l :: l in p.marketplaces && l.kind == Secondary
  {
    if ShowSecondaryRow(p) {
      assert SecondaryMarketplaces(p)[0] in SecondaryMarketplaces(p);
    }
  }

  /** A `Primary` link is shown neither as the primary button nor in the
      secondary row. */
  lemma PrimaryKindNeverShown(p: Product, l: MarketplaceLink)
    requires l in p.marketplaces && l.kind == Primary
    ensures PrimaryMarketplace(p) != Some(l)
    ensures l !in SecondaryMarketplaces(p)
  {
  }

  /** The primary button shows the link at the first index holding an
      `Official` link, whatever follows it. */
  lemma PrimaryIsFirstOfficial(p: Product, i: nat)
    requires i < |p.marketplaces| && p.marketplaces[i].kind == Official
    requires forall j :: 0 <= j < i ==> p.marketplaces[j].kind != Official
    ensures PrimaryMarketplace(p) == Some(p.marketplaces[i])
  {
    var r := PrimaryMarketplace(p);
    var k :| 0 <= k < |p.marketplaces| && p.marketplaces[k] == r.value && r.value.kind == Official &&
             forall m :: 0 <= m < k ==> p.marketplaces[m].kind != Official;
    assert k == i;
  }
}

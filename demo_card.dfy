/** The fallback products as a product card shows them: the demo data of the
    product-list view model put through the card's selection rules. */
module DemoCard {
  import opened Collections
  import opened ProductModels
  import opened ProductCard
  import opened Tracker

  /** On a card, the first fallback product shows its official link as the
      primary button and its three secondary links, in order, in the row. */
  lemma FallbackFirstProductCard()
    ensures var p := FallbackProducts()[0];
            PrimaryMarketplace(p) == Some(p.marketplaces[0]) &&
            SecondaryMarketplaces(p) == p.marketplaces[1..]
  {
    var p := FallbackProducts()[0];
    PrimaryIsFirstOfficial(p, 0);
    var ms := p.marketplaces;
    var sec := IsSecondary;
    assert ms == [ms[0]] + ([ms[1]] + ([ms[2]] + ([ms[3]] + [])));
    FilterCons(ms[3], [], sec);
    FilterCons(ms[2], [ms[3]] + [], sec);
    FilterCons(ms[1], [ms[2]] + ([ms[3]] + []), sec);
    FilterCons(ms[0], [ms[1]] + ([ms[2]] + ([ms[3]] + [])), sec);
  }

  /** In the first fallback product's row, the out-of-stock Shopee button is
      disabled and the Lazada and TikTok buttons are enabled. */
  lemma FallbackFirstProductButtons()
    ensures var row := SecondaryMarketplaces(FallbackProducts()[0]);
            |row| == 3 &&
            row[0].name == "Shopee" && !ButtonEnabled(row[0]) &&
            row[1].name == "Lazada" && ButtonEnabled(row[1]) &&
            row[2].name == "TikTok" && ButtonEnabled(row[2])
  {
    FallbackFirstProductCard();
  }
}

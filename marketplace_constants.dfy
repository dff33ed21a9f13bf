/** The fixed marketplace and country catalog: which marketplaces a country can
    buy from, the localized storefront URL of a marketplace, and the country
    record (name, flag, currency) for a country code. */
module MarketplaceConstants {
  import opened Collections
  import opened Text

  /** A catalog entry. */
  datatype MarketplaceInfo = MarketplaceInfo(
    id: string,
    displayName: string,
    iconName: string,
    availableInCountries: seq<string>,
    baseUrl: Option<string> := None)

  const ShopeeInfo := MarketplaceInfo("shopee", "Shopee", "shopee", ["sg", "my", "ph"], Some("https://shopee."))
  const LazadaInfo := MarketplaceInfo("lazada", "Lazada", "lazada", ["sg", "my", "ph"], Some("https://www.lazada."))
  const AmazonInfo := MarketplaceInfo("amazon", "Amazon", "amazon", ["us", "global"], Some("https://www.amazon.com"))
  const TikTokInfo := MarketplaceInfo("tiktok", "TikTok Shop", "tiktok", ["us", "sg", "my", "ph"], Some("https://shop.tiktok.com"))

  /** `PREDEFINED_MARKETPLACES`, in declaration order. */
  const PredefinedMarketplaces: seq<MarketplaceInfo> := [ShopeeInfo, LazadaInfo, AmazonInfo, TikTokInfo]

  /** Every country code that some catalog entry is offered in. */
  const CatalogCountryCodes: set<string> := {"sg", "my", "ph", "us", "global"}

  /** The filter condition: the entry lists the (already lowered) code. */
  function OfferedIn(code: string): MarketplaceInfo -> bool {
    (m: MarketplaceInfo) => code in m.availableInCountries
  }

  /** `getMarketplacesForCountry`: the catalog filtered by the lowered code. */
  function MarketplacesForCountry(countryCode: string): seq<MarketplaceInfo> {
    Filter(PredefinedMarketplaces, OfferedIn(Lowercase(countryCode)))
  }

  /** The list holds exactly the catalog entries offered in the lowered code,
      in catalog order. */
  lemma MarketplacesForCountrySpec(countryCode: string)
    ensures forall m :: m in MarketplacesForCountry(countryCode) <==>
              m in PredefinedMarketplaces && Lowercase(countryCode) in m.availableInCountries
    ensures IsSubsequence(MarketplacesForCountry(countryCode), PredefinedMarketplaces)
  {
    FilterSpec(PredefinedMarketplaces, OfferedIn(Lowercase(countryCode)));
  }

  /** Only the lowered code matters: "SG" and "sg" give the same list. */
  lemma MarketplacesCaseInsensitive(countryCode: string)
    ensures MarketplacesForCountry(countryCode) == MarketplacesForCountry(Lowercase(countryCode))
  {
    LowercaseIdempotent(countryCode);
  }

  /** The entries of the catalog that offer `code`, written out entry by entry. */
  function OfferedEntries(code: string): seq<MarketplaceInfo> {
    (if code in ShopeeInfo.availableInCountries then [ShopeeInfo] else []) +
    ((if code in LazadaInfo.availableInCountries then [LazadaInfo] else []) +
     ((if code in AmazonInfo.availableInCountries then [AmazonInfo] else []) +
      (if code in TikTokInfo.availableInCountries then [TikTokInfo] else [])))
  }

  lemma CatalogFiltered(code: string)
    ensures Filter(PredefinedMarketplaces, OfferedIn(code)) == OfferedEntries(code)
  {
    var p := OfferedIn(code);
    var s3: seq<MarketplaceInfo> := [TikTokInfo];
    var s2 := [AmazonInfo] + s3;
    var s1 := [LazadaInfo] + s2;
    assert PredefinedMarketplaces == [ShopeeInfo] + s1;
    FilterCons(TikTokInfo, [], p);
    assert s3 == [TikTokInfo] + [];
    FilterCons(AmazonInfo, s3, p);
    FilterCons(LazadaInfo, s2, p);
    FilterCons(ShopeeInfo, s1, p);
  }

  /** For a lowered code, the list is the catalog filtered entry by entry: an
      explicit reference for what each country is offered. */
  lemma MarketplacesForLoweredCode(code: string)
    requires Lowercase(code) == code
    ensures MarketplacesForCountry(code) == OfferedEntries(code)
  {
    CatalogFiltered(code);
  }

  /** A code that no catalog entry lists gives the empty list. */
  lemma UnlistedCountryHasNoMarketplaces(countryCode: string)
    requires Lowercase(countryCode) !in CatalogCountryCodes
    ensures MarketplacesForCountry(countryCode) == []
  {
    MarketplacesCaseInsensitive(countryCode);
    LowercaseIdempotent(countryCode);
    MarketplacesForLoweredCode(Lowercase(countryCode));
  }

  /** Singapore, Malaysia and the Philippines are offered Shopee, Lazada and
      TikTok Shop, in that order. */
  lemma MarketplacesForSoutheastAsia(code: string)
    requires code == "sg" || code == "my" || code == "ph"
    ensures MarketplacesForCountry(code) == [ShopeeInfo, LazadaInfo, TikTokInfo]
  {
    LowercaseOfLower(code);
    MarketplacesForLoweredCode(code);
  }

  /** The United States is offered Amazon and TikTok Shop. */
  lemma MarketplacesForUs()
    ensures MarketplacesForCountry("us") == [AmazonInfo, TikTokInfo]
  {
    LowercaseOfLower("us");
    MarketplacesForLoweredCode("us");
    assert "us" !in ShopeeInfo.availableInCountries;
    assert "us" !in LazadaInfo.availableInCountries;
  }

  /** The "global" code is offered only Amazon. */
  lemma MarketplacesForGlobal()
    ensures MarketplacesForCountry("global") == [AmazonInfo]
  {
    LowercaseOfLower("global");
    MarketplacesForLoweredCode("global");
    assert "global" !in ShopeeInfo.availableInCountries;
    assert "global" !in LazadaInfo.availableInCountries;
    assert "global" !in TikTokInfo.availableInCountries;
  }

  /** Upper-case "SG" gives the same list as "sg". */
  lemma MarketplacesUpperCaseSg()
    ensures MarketplacesForCountry("SG") == [ShopeeInfo, LazadaInfo, TikTokInfo]
  {
    MarketplacesCaseInsensitive("SG");
    assert Lowercase("SG") == "sg";
    MarketplacesForSoutheastAsia("sg");
  }

  /** The localized storefronts, per marketplace id and lowered country code. */
  const LocalizedUrls: map<string, map<string, string>> := map[
    "shopee" := map["sg" := "https://shopee.sg", "my" := "https://shopee.com.my", "ph" := "https://shopee.ph"],
    "lazada" := map["sg" := "https://www.lazada.sg", "my" := "https://www.lazada.com.my", "ph" := "https://www.lazada.com.ph"]
  ]

  predicate HasLocalizedUrl(id: string, code: string) {
    id in LocalizedUrls && code in LocalizedUrls[id]
  }

  /** `getCountrySpecificUrl`: the localized storefront when there is one,
      else the marketplace's base URL, else the empty string. */
  function CountrySpecificUrl(marketplace: MarketplaceInfo, countryCode: string): (r: string)
    ensures var code := Lowercase(countryCode);
            r == if HasLocalizedUrl(marketplace.id, code) then LocalizedUrls[marketplace.id][code]
                 else marketplace.baseUrl.GetOr("")
  {
    var code := Lowercase(countryCode);
    if marketplace.id == "shopee" then
      if code == "sg" then "https://shopee.sg"
      else if code == "my" then "https://shopee.com.my"
      else if code == "ph" then "https://shopee.ph"
      else marketplace.baseUrl.GetOr("")
    else if marketplace.id == "lazada" then
      if code == "sg" then "https://www.lazada.sg"
      else if code == "my" then "https://www.lazada.com.my"
      else if code == "ph" then "https://www.lazada.com.ph"
      else marketplace.baseUrl.GetOr("")
    else marketplace.baseUrl.GetOr("")
  }

  /** The URL is empty exactly when there is no localized storefront and no
      (non-empty) base URL. */
  lemma CountrySpecificUrlEmptyIff(marketplace: MarketplaceInfo, countryCode: string)
    ensures CountrySpecificUrl(marketplace, countryCode) == "" <==>
            !HasLocalizedUrl(marketplace.id, Lowercase(countryCode)) &&
            (marketplace.baseUrl.None? || marketplace.baseUrl.value == "")
  {
  }

  /** Every catalog entry yields a non-empty URL for every country code. */
  lemma CatalogUrlsNonEmpty(marketplace: MarketplaceInfo, countryCode: string)
    ensures marketplace in PredefinedMarketplaces ==> CountrySpecificUrl(marketplace, countryCode) != ""
  {
    CountrySpecificUrlEmptyIff(marketplace, countryCode);
  }

  /** A country record. */
  datatype CountryInfo = CountryInfo(code: string, displayName: string, flag: string, currency: string)

  /** `SUPPORTED_COUNTRIES`. */
  const SupportedCountries: seq<CountryInfo> := [
    CountryInfo("us", "United States", "\U{1F1FA}\U{1F1F8}", "USD"),
    CountryInfo("ph", "Philippines", "\U{1F1F5}\U{1F1ED}", "PHP"),
    CountryInfo("my", "Malaysia", "\U{1F1F2}\U{1F1FE}", "MYR"),
    CountryInfo("sg", "Singapore", "\U{1F1F8}\U{1F1EC}", "SGD")
  ]

  /** The record every unsupported code resolves to. */
  const GlobalCountry := CountryInfo("global", "Global", "\U{1F30D}", "USD")

  /** `getCountryInfo`: the supported country whose code equals the lowered
      code, or the Global/USD record. */
  function GetCountryInfo(code: string): (r: CountryInfo)
    ensures r in SupportedCountries || r == GlobalCountry
    ensures (exists c :: c in SupportedCountries && c.code == Lowercase(code)) ==>
              r in SupportedCountries && r.code == Lowercase(code)
    ensures (forall c :: c in SupportedCountries ==> c.code != Lowercase(code)) ==> r == GlobalCountry
  {
    var lowered := Lowercase(code);
    var found := FirstWhere(SupportedCountries, (c: CountryInfo) => c.code == lowered);
    if found.Some? then
      found.value
    else
      assert forall c :: c in SupportedCountries ==> c.code != lowered by {
        forall c | c in SupportedCountries ensures c.code != lowered {
          var i :| 0 <= i < |SupportedCountries| && SupportedCountries[i] == c;
        }
      }
      GlobalCountry
  }

  /** The returned code is one of the five known codes, and the currency is the
      one its row gives. */
  lemma CountryInfoCodeAndCurrency(code: string)
    ensures var r := GetCountryInfo(code);
            r.code in {"us", "ph", "my", "sg", "global"} &&
            r.currency == (if r.code == "ph" then "PHP" else if r.code == "my" then "MYR"
                           else if r.code == "sg" then "SGD" else "USD")
  {
  }

  /** Each supported code, in any letter case, finds its own row. */
  lemma CountryInfoSupported(code: string)
    requires Lowercase(code) in {"us", "ph", "my", "sg"}
    ensures GetCountryInfo(code).code == Lowercase(code)
    ensures GetCountryInfo(code).currency ==
              match Lowercase(code)
              case "us" => "USD"
              case "ph" => "PHP"
              case "my" => "MYR"
              case _ => "SGD"
  {
    var lowered := Lowercase(code);
    var i := if lowered == "us" then 0 else if lowered == "ph" then 1 else if lowered == "my" then 2 else 3;
    assert SupportedCountries[i].code == lowered;
  }

  /** Upper-case "PH" finds the Philippines row. */
  lemma CountryInfoUpperCasePh()
    ensures GetCountryInfo("PH").currency == "PHP"
  {
    assert Lowercase("PH") == "ph";
    CountryInfoSupported("PH");
  }

  /** Every code outside the table, "global" included, resolves to the
      Global/USD record. */
  lemma CountryInfoUnsupported(code: string)
    requires Lowercase(code) !in {"us", "ph", "my", "sg"}
    ensures GetCountryInfo(code) == GlobalCountry
  {
  }
}

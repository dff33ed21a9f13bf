/** The add-product view model: a draft product edited field by field,
    validated, and submitted to the product store.

    The store write, the fresh identifier and the creation timestamp come from
    outside: the caller passes the identifier, the timestamp and the outcome
    of the write. */
module AddProduct {
  import opened Collections
  import opened Text
  import opened ProductModels
  import opened MarketplaceConstants

  /** The draft and its flags. */
  datatype AddProductUiState = AddProductUiState(
    name: string := "",
    description: string := "",
    imageName: string := "labubu_demo",
    price: ProductPrice := ProductPrice("", "SGD"),
    officialUrl: string := "",
    marketplaces: seq<MarketplaceLink> := [],
    isLoading: bool := false,
    error: Option<string> := None)
  {
    /** The five required fields are all non-blank. */
    predicate IsValid() {
      !IsBlank(name) && !IsBlank(description) && !IsBlank(price.amount) &&
      !IsBlank(imageName) && !IsBlank(officialUrl)
    }
  }

  /** A draft is valid exactly when each required field holds a character that
      is not whitespace. */
  lemma IsValidIff(s: AddProductUiState)
    ensures s.IsValid() <==>
              HasContent(s.name) && HasContent(s.description) && HasContent(s.price.amount) &&
              HasContent(s.imageName) && HasContent(s.officialUrl)
  {
    IsBlankIff(s.name);
    IsBlankIff(s.description);
    IsBlankIff(s.price.amount);
    IsBlankIff(s.imageName);
    IsBlankIff(s.officialUrl);
  }

  ghost predicate HasContent(t: string) {
    exists i :: 0 <= i < |t| && !IsWhitespace(t[i])
  }

  /** The message set when saving an invalid draft. */
  const FillAllFieldsMessage := "Please fill in all required fields"

  /** The outcome of the store write, chosen by the caller. */
  datatype StoreOutcome = Stored | StoreFailed(message: Option<string>)

  /** `getCurrencyForCountry`: the currency of the country's row in the
      country table (USD for any code outside it). */
  function CurrencyForCountry(countryCode: string): (r: string)
    ensures r == GetCountryInfo(countryCode).currency
  {
    var code := Lowercase(countryCode);
    CountryInfoCodeAndCurrency(countryCode);
    if code == "us" then "USD"
    else if code == "ph" then "PHP"
    else if code == "my" then "MYR"
    else if code == "sg" then "SGD"
    else if code == "global" then "USD"
    else "USD"
  }

  /** `getDefaultIconForCountry`: Shopee for Singapore, Malaysia and any code
      outside the table, Amazon for the United States, Lazada for the
      Philippines; always a known drawable. */
  function DefaultIconForCountry(countryCode: string): (r: string)
    ensures ResolveDrawable(r).Some?
    ensures r in {"shopee", "amazon", "lazada"}
    ensures Lowercase(countryCode) !in {"sg", "my", "us", "ph"} ==> r == "shopee"
  {
    var code := Lowercase(countryCode);
    if code == "sg" || code == "my" then "shopee"
    else if code == "us" then "amazon"
    else if code == "ph" then "lazada"
    else "shopee"
  }

  /** For each country of the table the default icon belongs to a marketplace
      the catalog offers there. */
  lemma DefaultIconOfferedInCountry(countryCode: string)
    requires Lowercase(countryCode) in {"sg", "my", "ph", "us"}
    ensures exists m :: m in MarketplacesForCountry(countryCode) && m.iconName == DefaultIconForCountry(countryCode)
  {
    var code := Lowercase(countryCode);
    MarketplacesCaseInsensitive(countryCode);
    LowercaseIdempotent(countryCode);
    MarketplacesForLoweredCode(code);
    if code == "us" {
      assert AmazonInfo in MarketplacesForCountry(countryCode);
    } else if code == "ph" {
      assert LazadaInfo in MarketplacesForCountry(countryCode);
    } else {
      assert ShopeeInfo in MarketplacesForCountry(countryCode);
    }
  }

  /** The code "global" falls to the Shopee icon, although the catalog offers
      only Amazon there. */
  lemma DefaultIconForGlobalNotOffered()
    ensures DefaultIconForCountry("global") == "shopee"
    ensures forall m :: m in MarketplacesForCountry("global") ==> m.iconName != DefaultIconForCountry("global")
  {
    LowercaseOfLower("global");
    MarketplacesForGlobal();
  }

  /** The default icon depends only on the lowered code. */
  lemma DefaultIconCaseInsensitive(countryCode: string)
    ensures DefaultIconForCountry(countryCode) == DefaultIconForCountry(Lowercase(countryCode))
  {
    LowercaseIdempotent(countryCode);
  }

  /** The default icons of the table's countries: Shopee for Singapore and
      Malaysia, Amazon for the United States, Lazada for the Philippines. */
  lemma DefaultIconPerCountry(code: string)
    requires code in {"sg", "my", "us", "ph"}
    ensures DefaultIconForCountry(code) ==
              if code == "us" then "amazon" else if code == "ph" then "lazada" else "shopee"
  {
    LowercaseOfLower(code);
  }

  /** The draft a view model for `countryCode` starts with: all defaults, with
      the country's currency. */
  function InitialDraft(countryCode: string): (r: AddProductUiState)
    ensures r == AddProductUiState(price := ProductPrice("", GetCountryInfo(countryCode).currency))
    ensures !r.IsValid()
  {
    AddProductUiState(price := ProductPrice(amount := "", currency := CurrencyForCountry(countryCode)))
  }

  /** The link `addMarketplace` appends: unnamed, with the country's default
      icon, `Secondary`, no URL, in stock. */
  function NewMarketplaceLink(countryCode: string): (r: MarketplaceLink)
    ensures r.kind == Secondary && r.name == "" && r.url == "" && r.availability == InStock
    ensures r.iconName == Some(DefaultIconForCountry(countryCode))
    ensures r.price == None
  {
    MarketplaceLink(name := "", iconName := Some(DefaultIconForCountry(countryCode)), kind := Secondary,
                    url := "", availability := InStock)
  }

  /** The product built from a draft on save. */
  function DraftProduct(s: AddProductUiState, id: string, createdAt: string): (p: Product)
    ensures p.id == id && p.createdAt == Some(createdAt)
    ensures p.name == s.name && p.description == s.description && p.imageName == s.imageName
    ensures p.price == s.price && p.officialUrl == s.officialUrl && p.marketplaces == s.marketplaces
  {
    Product(id, s.name, s.description, s.imageName, s.price, s.officialUrl, s.marketplaces, Some(createdAt))
  }

  class AddProductViewModel {
    const countryCode: string
    var uiState: AddProductUiState

    constructor (countryCode: string := "sg")
      ensures this.countryCode == countryCode
      ensures uiState == InitialDraft(countryCode)
    {
      this.countryCode := countryCode;
      uiState := AddProductUiState(price := ProductPrice(amount := "", currency := CurrencyForCountry(countryCode)));
    }

    method UpdateName(name: string)
      modifies this
      ensures uiState == old(uiState).(name := name, error := None)
    {
      uiState := uiState.(name := name, error := None);
    }

    method UpdateDescription(description: string)
      modifies this
      ensures uiState == old(uiState).(description := description, error := None)
    {
      uiState := uiState.(description := description, error := None);
    }

    method UpdateImageName(imageName: string)
      modifies this
      ensures uiState == old(uiState).(imageName := imageName, error := None)
    {
      uiState := uiState.(imageName := imageName, error := None);
    }

    method UpdatePrice(price: ProductPrice)
      modifies this
      ensures uiState == old(uiState).(price := price, error := None)
    {
      uiState := uiState.(price := price, error := None);
    }

    method UpdateOfficialUrl(url: string)
      modifies this
      ensures uiState == old(uiState).(officialUrl := url, error := None)
    {
      uiState := uiState.(officialUrl := url, error := None);
    }

    /** Appends one new link; the existing links are kept as they are. */
    method AddMarketplace()
      modifies this
      ensures |uiState.marketplaces| == |old(uiState.marketplaces)| + 1
      ensures uiState.marketplaces[..|old(uiState.marketplaces)|] == old(uiState.marketplaces)
      ensures uiState.marketplaces[|old(uiState.marketplaces)|] == NewMarketplaceLink(countryCode)
      ensures uiState == old(uiState).(marketplaces := uiState.marketplaces, error := None)
    {
      var newMarketplace := NewMarketplaceLink(countryCode);
      var updated := uiState.marketplaces + [newMarketplace];
      uiState := uiState.(marketplaces := updated, error := None);
    }

    /** Replaces the link at `index` when it is a valid position; otherwise
        changes nothing, not even the error. */
    method UpdateMarketplace(index: int, marketplace: MarketplaceLink)
      modifies this
      ensures var before := old(uiState.marketplaces);
              if 0 <= index < |before| then
                |uiState.marketplaces| == |before| &&
                uiState.marketplaces[index] == marketplace &&
                (forall j :: 0 <= j < |before| && j != index ==> uiState.marketplaces[j] == before[j]) &&
                uiState == old(uiState).(marketplaces := uiState.marketplaces, error := None)
              else uiState == old(uiState)
    {
      var updated := uiState.marketplaces;
      if 0 <= index < |updated| {
        updated := updated[index := marketplace];
        uiState := uiState.(marketplaces := updated, error := None);
      }
    }

    /** Removes the link at `index` when it is a valid position, keeping the
        others in order; otherwise changes nothing, not even the error. */
    method RemoveMarketplace(index: int)
      modifies this
      ensures var before := old(uiState.marketplaces);
              if 0 <= index < |before| then
                |uiState.marketplaces| == |before| - 1 &&
                (forall j :: 0 <= j < index ==> uiState.marketplaces[j] == before[j]) &&
                (forall j :: index <= j < |uiState.marketplaces| ==> uiState.marketplaces[j] == before[j + 1]) &&
                uiState == old(uiState).(marketplaces := uiState.marketplaces, error := None)
              else uiState == old(uiState)
    {
      var updated := uiState.marketplaces;
      if 0 <= index < |updated| {
        updated := updated[..index] + updated[index + 1..];
        uiState := uiState.(marketplaces := updated, error := None);
      }
    }

    /** `saveProduct`. An invalid draft only gets the error message and nothing
        is written. A valid draft is written as a product with the given `id`
        and `createdAt`; `saved` says whether the success callback ran, and
        `written` is the product handed to the store. */
    method SaveProduct(id: string, createdAt: string, outcome: StoreOutcome)
      returns (written: Option<Product>, saved: bool)
      modifies this
      ensures !old(uiState).IsValid() ==>
                uiState == old(uiState).(error := Some(FillAllFieldsMessage)) && written == None && !saved
      ensures old(uiState).IsValid() ==>
                written == Some(DraftProduct(old(uiState), id, createdAt)) &&
                saved == outcome.Stored? &&
                uiState == old(uiState).(isLoading := false,
                                         error := if outcome.Stored? then None
                                                  else Some("Failed to save product: " + Template(outcome.message)))
    {
      if !uiState.IsValid() {
        uiState := uiState.(error := Some(FillAllFieldsMessage));
        return None, false;
      }
      uiState := uiState.(isLoading := true, error := None);
      var product := DraftProduct(uiState, id, createdAt);
      written := Some(product);
      match outcome {
        case Stored =>
          uiState := uiState.(isLoading := false);
          saved := true;
        case StoreFailed(message) =>
          uiState := uiState.(isLoading := false, error := Some("Failed to save product: " + Template(message)));
          saved := false;
      }
    }
  }

  /** The link the add-product screen fills in when a catalog marketplace is
      selected: its name and icon, `Secondary`, its URL for the country, in stock. */
  function SelectedMarketplaceLink(info: MarketplaceInfo, countryCode: string): (r: MarketplaceLink)
    ensures r.name == info.displayName && r.iconName == Some(info.iconName)
    ensures r.kind == Secondary && r.availability == InStock && r.price == None
    ensures r.url == CountrySpecificUrl(info, countryCode)
    ensures info in PredefinedMarketplaces ==> r.url != ""
  {
    CatalogUrlsNonEmpty(info, countryCode);
    MarketplaceLink(name := info.displayName, iconName := Some(info.iconName), kind := Secondary,
                    url := CountrySpecificUrl(info, countryCode), availability := InStock)
  }

  /** The screen's toggle on an unselected marketplace: `addMarketplace` and
      then `updateMarketplace` at the old length. Together they append exactly
      the selected link. */
  method SelectMarketplace(vm: AddProductViewModel, info: MarketplaceInfo, countryCode: string)
    modifies vm
    ensures vm.uiState == old(vm.uiState).(marketplaces := old(vm.uiState.marketplaces) + [SelectedMarketplaceLink(info, countryCode)],
                                           error := None)
  {
    var newIndex := |vm.uiState.marketplaces|;
    vm.AddMarketplace();
    vm.UpdateMarketplace(newIndex, SelectedMarketplaceLink(info, countryCode));
    assert vm.uiState.marketplaces == old(vm.uiState.marketplaces) + [SelectedMarketplaceLink(info, countryCode)];
  }

  /** The screen's toggle on a selected marketplace: removes the first link
      bearing the marketplace's display name, if there is one. */
  method DeselectMarketplace(vm: AddProductViewModel, info: MarketplaceInfo)
    modifies vm
    ensures var ms := old(vm.uiState.marketplaces);
            if exists i :: 0 <= i < |ms| && ms[i].name == info.displayName then
              exists i :: 0 <= i < |ms| && ms[i].name == info.displayName &&
                          (forall j :: 0 <= j < i ==> ms[j].name != info.displayName) &&
                          vm.uiState == old(vm.uiState).(marketplaces := ms[..i] + ms[i + 1..], error := None)
            else vm.uiState == old(vm.uiState)
  {
    var ms := vm.uiState.marketplaces;
    var index := 0;
    while index < |ms| && ms[index].name != info.displayName
      invariant 0 <= index <= |ms|
      invariant forall j :: 0 <= j < index ==> ms[j].name != info.displayName
    {
      index := index + 1;
    }
    if index < |ms| {
      vm.RemoveMarketplace(index);
      assert vm.uiState.marketplaces == ms[..index] + ms[index + 1..];
    }
  }
}

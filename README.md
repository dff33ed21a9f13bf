# PopTracker core in Dafny

PopTracker is a catalog app for collectible toys: it lists products, each
with purchase links on several marketplaces (the brand's official store,
Shopee, Lazada, TikTok Shop, Amazon), filtered by the user's country. Most
of the app is user-interface code. This project models and proves the
logic underneath it:

- `MarketplaceConstants` (`marketplace_constants.dfy`): the fixed catalog.
  It answers which marketplaces a country can buy from (filtered by the
  lowered country code, in catalog order) and what a marketplace's URL is
  for a country (localized storefront, then base URL, then `""`). It also
  maps a country code to its country record, with a Global/USD fallback.
- `ProductModels` (`product_models.dfy`): products, prices and marketplace
  links with their defaults; the `MarketplaceType` and `AvailabilityStatus`
  enums; resolving a resource name to a drawable, with default image and
  icon fallbacks. Drawables are an enum.
- `ProductCard` (`product_card.dfy`): which links a product card shows.
  The primary button shows the first `Official` link. The row shows the
  `Secondary` links. The divider and row appear only when there is a
  secondary link. A row button is enabled only for an in-stock link
  (`ButtonEnabled`, from `MarketplaceButtons.kt:68`).
- `Tracker` (`tracker.dfy`): the product-list view model.
  - Feed activity is a sequence of events: a load starts, the feed emits a
    list, or the feed fails.
  - `Step`/`Run` specify the exposed state (`products`, `isLoading`,
    `error`).
  - The class `TrackerViewModel` holds those three fields. Each event
    handler (`LoadProducts`, `RefreshProducts`, `OnProducts`, `OnFailure`)
    is proved to perform exactly one `Step`. `LoadFallbackProducts` is the
    helper that `OnProducts` and `OnFailure` share; it only replaces
    `products` with the fallback list.
  - Its invariant: once the feed has emitted or failed, `products` is never
    empty.
- `AddProduct` (`add_product.dfy`): the add-product draft.
  - The class `AddProductViewModel` holds the draft in one field,
    `uiState`. Its methods update that field.
  - The module also has the five-field validity check and the country
    helpers for currency and default icon. The default icon is Shopee for
    every code outside sg/my/us/ph, "global" included, although the catalog
    offers only Amazon for "global" (`DefaultIconForGlobalNotOffered`). The
    add-product screen only passes the four supported codes, so a draft never
    meets this case.
  - `SelectMarketplace` and `DeselectMarketplace` model the add-product
    screen's marketplace toggle. `SelectMarketplace` is `addMarketplace`
    followed by `updateMarketplace` at the old length; it is proved to
    append exactly the selected link.
- `DemoCard` (`demo_card.dfy`): the fallback products as a card shows
  them, which ties the product list's demo data to the card's rules.
- `Collections` and `Text` (`collections.dfy`, `text.dfy`): the Kotlin
  library operations the core uses (`filter`, `firstOrNull`/`find`, `any`,
  `lowercase()`, `isBlank()`, string templates of nullable values), each
  with its characterising lemmas.

Inputs that come from outside are parameters:
- For `saveProduct`: the fresh identifier (`Uuid.random()`), the creation
  timestamp (`System.currentTimeMillis()`) and the outcome of the store
  write.
- For the product list: each feed event.

Three behaviours of the code that a reader might not expect; the model
follows the code in each:

- A refresh does not cancel the previous subscription, as one might expect
  it to. `refreshProducts` only starts another load. Every emission, from
  any subscription, is handled the same way. So `isLoading` is cleared on
  every emission or failure, not once per load.
- One might expect `Product` to have the fields `ProductModels.kt` declares
  (`title`/`subtitle`). But both view models build products with `name`,
  `description`, `imageName`, `price`, `officialUrl` and `marketplaces`, and
  `AddProductViewModel` also sets `createdAt`. The model uses that field
  set. The fallback products leave `createdAt` out, so the model makes it
  `Option<string>`: `None` marks a product that leaves the field to its
  declaration's default. That declaration is not part of this model.
- `AddProductViewModel` passes the country code to the product
  repository; the repository shown takes none. The repository is not part
  of this model.

## Model

| member | source | states |
|---|---|---|
| `MarketplaceConstants.MarketplacesForCountrySpec` | composeApp/src/commonMain/kotlin/io/everytech/poptracker/data/MarketplaceConstants.kt:43-47 | the result holds exactly the catalog entries whose country list contains the lowered code, and is a subsequence of the catalog (catalog order kept) |
| `MarketplaceConstants.CatalogFiltered` | composeApp/src/commonMain/kotlin/io/everytech/poptracker/data/MarketplaceConstants.kt:12-47 | filtering the catalog by a code gives Shopee, Lazada, Amazon, TikTok Shop in that order, each present iff it lists the code |
| `MarketplaceConstants.MarketplacesForLoweredCode` | composeApp/src/commonMain/kotlin/io/everytech/poptracker/data/MarketplaceConstants.kt:43-47 | for a code already in lower case, the result is that entry-by-entry list |
| `MarketplaceConstants.MarketplacesCaseInsensitive` | composeApp/src/commonMain/kotlin/io/everytech/poptracker/data/MarketplaceConstants.kt:43-47 | the result for a code equals the result for its lower-case form |
| `MarketplaceConstants.UnlistedCountryHasNoMarketplaces` | composeApp/src/commonMain/kotlin/io/everytech/poptracker/data/MarketplaceConstants.kt:43-47 | a code whose lower-case form no catalog entry lists gives the empty list |
| `MarketplaceConstants.MarketplacesForSoutheastAsia` | composeApp/src/commonMain/kotlin/io/everytech/poptracker/data/MarketplaceConstants.kt:12-41 | "sg", "my" and "ph" each give [Shopee, Lazada, TikTok Shop] |
| `MarketplaceConstants.MarketplacesForUs` | composeApp/src/commonMain/kotlin/io/everytech/poptracker/data/MarketplaceConstants.kt:27-41 | "us" gives [Amazon, TikTok Shop] |
| `MarketplaceConstants.MarketplacesForGlobal` | composeApp/src/commonMain/kotlin/io/everytech/poptracker/data/MarketplaceConstants.kt:27-33 | "global" gives [Amazon] |
| `MarketplaceConstants.MarketplacesUpperCaseSg` | composeApp/src/commonMain/kotlin/io/everytech/poptracker/data/MarketplaceConstants.kt:43-47 | "SG" gives the same list as "sg": [Shopee, Lazada, TikTok Shop] |
| `MarketplaceConstants.CountrySpecificUrl` | composeApp/src/commonMain/kotlin/io/everytech/poptracker/data/MarketplaceConstants.kt:49-65 | the result is the localized storefront from a per-marketplace table (Shopee and Lazada for sg/my/ph, compared after lowering) when there is one, else the base URL, else "" |
| `MarketplaceConstants.CountrySpecificUrlEmptyIff` | composeApp/src/commonMain/kotlin/io/everytech/poptracker/data/MarketplaceConstants.kt:49-65 | the URL is empty iff no localized storefront exists and the base URL is absent or empty |
| `MarketplaceConstants.CatalogUrlsNonEmpty` | composeApp/src/commonMain/kotlin/io/everytech/poptracker/data/MarketplaceConstants.kt:12-65 | every catalog entry gives a non-empty URL for every country code |
| `MarketplaceConstants.GetCountryInfo` | composeApp/src/commonMain/kotlin/io/everytech/poptracker/data/MarketplaceConstants.kt:83-86 | the result is a supported row or the Global record; it is the row whose code equals the lowered code when one exists, and the Global/USD record when none does |
| `MarketplaceConstants.CountryInfoCodeAndCurrency` | composeApp/src/commonMain/kotlin/io/everytech/poptracker/data/MarketplaceConstants.kt:76-86 | the returned code is one of us/ph/my/sg/global and the currency is that row's (PHP, MYR, SGD, otherwise USD) |
| `MarketplaceConstants.CountryInfoSupported` | composeApp/src/commonMain/kotlin/io/everytech/poptracker/data/MarketplaceConstants.kt:76-86 | a code whose lower-case form is us, ph, my or sg resolves to that row: that code, and currency USD, PHP, MYR or SGD |
| `MarketplaceConstants.CountryInfoUpperCasePh` | composeApp/src/commonMain/kotlin/io/everytech/poptracker/data/MarketplaceConstants.kt:76-86 | upper-case "PH" resolves to the Philippines currency PHP |
| `MarketplaceConstants.CountryInfoUnsupported` | composeApp/src/commonMain/kotlin/io/everytech/poptracker/data/MarketplaceConstants.kt:83-86 | every code whose lower-case form is not us, ph, my or sg ("global" included) resolves to the Global/USD record |
| `ProductModels.RecordDefaults` | composeApp/src/commonMain/kotlin/io/everytech/poptracker/ui/components/product/ProductModels.kt:18-32 | a price defaults to currency "$" and no range; a link defaults to no icon, no price and InStock |
| `ProductModels.ResolveDrawable` | composeApp/src/commonMain/kotlin/io/everytech/poptracker/ui/components/product/ProductModels.kt:56-76 | a name resolves iff it is one of the ten known names, and then to the drawable bearing that name |
| `ProductModels.ResolveDrawableName` | composeApp/src/commonMain/kotlin/io/everytech/poptracker/ui/components/product/ProductModels.kt:56-76 | every drawable is resolved from its own name (resolution inverts naming) |
| `ProductModels.ImageResource` | composeApp/src/commonMain/kotlin/io/everytech/poptracker/ui/components/product/ProductModels.kt:80-81 | a known image name gives its drawable; any other name gives the default product image (icon_collection) |
| `ProductModels.IconResource` | composeApp/src/commonMain/kotlin/io/everytech/poptracker/ui/components/product/ProductModels.kt:83-84 | a known icon name gives its drawable; an absent or unknown one gives the default marketplace icon (icon_open_link) |
| `ProductCard.PrimaryMarketplace` | composeApp/src/commonMain/kotlin/io/everytech/poptracker/ui/components/product/ProductCard.kt:128 | there is a primary link iff some link is Official, and it is an Official link with no Official link before it |
| `ProductCard.PrimaryIsFirstOfficial` | composeApp/src/commonMain/kotlin/io/everytech/poptracker/ui/components/product/ProductCard.kt:128 | the primary link is the one at the first index holding an Official link |
| `ProductCard.SecondaryMarketplaces` | composeApp/src/commonMain/kotlin/io/everytech/poptracker/ui/components/product/ProductCard.kt:147-149 | the row holds exactly the Secondary links, each as many times as the product lists it, as a subsequence of the links (order kept) |
| `ProductCard.DividerIffRow` | composeApp/src/commonMain/kotlin/io/everytech/poptracker/ui/components/product/ProductCard.kt:140-150 | the divider is shown iff the configuration asks for it and the secondary row is shown |
| `ProductCard.SecondaryRowIff` | composeApp/src/commonMain/kotlin/io/everytech/poptracker/ui/components/product/ProductCard.kt:147-150 | the secondary row is shown iff some link is Secondary |
| `ProductCard.PrimaryKindNeverShown` | composeApp/src/commonMain/kotlin/io/everytech/poptracker/ui/components/product/ProductCard.kt:128-149 | a Primary link is neither the primary link nor in the secondary row |
| `Tracker.FallbackProductsShape` | composeApp/src/commonMain/kotlin/io/everytech/poptracker/ui/viewmodels/TrackerViewModel.kt:66-132 | the fallback list has 4 products with ids demo-1..demo-4, all distinct; only demo-1 has links and its first link is Official |
| `DemoCard.FallbackFirstProductCard` | composeApp/src/commonMain/kotlin/io/everytech/poptracker/ui/viewmodels/TrackerViewModel.kt:67-104 | demo-1's card shows its official link as the primary button and its other three links, in order, as the secondary row |
| `DemoCard.FallbackFirstProductButtons` | composeApp/src/commonMain/kotlin/io/everytech/poptracker/ui/components/product/MarketplaceButtons.kt:62-68 | a row button is enabled only for an in-stock link: in demo-1's row the out-of-stock Shopee button is disabled, Lazada and TikTok are enabled |
| `Tracker.Reconcile` | composeApp/src/commonMain/kotlin/io/everytech/poptracker/ui/viewmodels/TrackerViewModel.kt:40-46 | the installed list is never empty: a non-empty emission is installed verbatim, an empty one installs the fallback list |
| `Tracker.NonEmptyOnceHandled` | composeApp/src/commonMain/kotlin/io/everytech/poptracker/ui/viewmodels/TrackerViewModel.kt:40-55 | after any run of events containing an emission or a failure, the product list is non-empty |
| `Tracker.ProductsFollowLastHandled` | composeApp/src/commonMain/kotlin/io/everytech/poptracker/ui/viewmodels/TrackerViewModel.kt:40-55 | the product list is decided by the last emission or failure alone (its list or the fallback), with no merging of earlier emissions |
| `Tracker.LoadingFollowsLastEvent` | composeApp/src/commonMain/kotlin/io/everytech/poptracker/ui/viewmodels/TrackerViewModel.kt:31-55 | `isLoading` holds iff the last event is the start of a load |
| `Tracker.TrackerViewModel.constructor` | composeApp/src/commonMain/kotlin/io/everytech/poptracker/ui/viewmodels/TrackerViewModel.kt:16-33 | construction starts the first load: no products, loading, no error, invariant established |
| `Tracker.TrackerViewModel.LoadProducts` | composeApp/src/commonMain/kotlin/io/everytech/poptracker/ui/viewmodels/TrackerViewModel.kt:30-33 | starting a load sets `isLoading` and clears `error`, products unchanged, invariant kept |
| `Tracker.TrackerViewModel.RefreshProducts` | composeApp/src/commonMain/kotlin/io/everytech/poptracker/ui/viewmodels/TrackerViewModel.kt:59-61 | a refresh is another start of a load |
| `Tracker.TrackerViewModel.OnProducts` | composeApp/src/commonMain/kotlin/io/everytech/poptracker/ui/viewmodels/TrackerViewModel.kt:37-48 | an emission installs the list verbatim when non-empty, the fallback when empty; loading ends, error unchanged, products non-empty |
| `Tracker.TrackerViewModel.OnFailure` | composeApp/src/commonMain/kotlin/io/everytech/poptracker/ui/viewmodels/TrackerViewModel.kt:49-55 | a feed failure sets error to "Failed to load products: " + message, installs the fallback and ends loading |
| `Tracker.TrackerViewModel.LoadFallbackProducts` | composeApp/src/commonMain/kotlin/io/everytech/poptracker/ui/viewmodels/TrackerViewModel.kt:63-136 | the products become the fallback list |
| `Text.IsBlankIff` | composeApp/src/commonMain/kotlin/io/everytech/poptracker/ui/viewmodels/AddProductViewModel.kt:26-30 | a string is blank iff every character is whitespace (so the empty string is blank) |
| `AddProduct.IsValidIff` | composeApp/src/commonMain/kotlin/io/everytech/poptracker/ui/viewmodels/AddProductViewModel.kt:25-30 | a draft is valid iff name, description, price amount, image name and official URL each contain a non-whitespace character |
| `AddProduct.CurrencyForCountry` | composeApp/src/commonMain/kotlin/io/everytech/poptracker/ui/viewmodels/AddProductViewModel.kt:139-148 | the currency equals the country table's currency for the code (USD, PHP, MYR, SGD; USD for any other code) |
| `AddProduct.DefaultIconForCountry` | composeApp/src/commonMain/kotlin/io/everytech/poptracker/ui/viewmodels/AddProductViewModel.kt:150-157 | the icon is one of shopee/amazon/lazada and always resolves to a drawable; any code outside sg/my/us/ph gives shopee |
| `AddProduct.DefaultIconForGlobalNotOffered` | composeApp/src/commonMain/kotlin/io/everytech/poptracker/ui/viewmodels/AddProductViewModel.kt:150-157 | "global" gives the shopee icon, which no marketplace offered for "global" carries |
| `AddProduct.DefaultIconOfferedInCountry` | composeApp/src/commonMain/kotlin/io/everytech/poptracker/ui/viewmodels/AddProductViewModel.kt:150-157 | for sg/my/ph/us the default icon is the icon of a marketplace the catalog offers in that country |
| `AddProduct.DefaultIconCaseInsensitive` | composeApp/src/commonMain/kotlin/io/everytech/poptracker/ui/viewmodels/AddProductViewModel.kt:150-157 | the icon for a code equals the icon for its lower-case form |
| `AddProduct.DefaultIconPerCountry` | composeApp/src/commonMain/kotlin/io/everytech/poptracker/ui/viewmodels/AddProductViewModel.kt:150-157 | sg and my give shopee, us gives amazon, ph gives lazada |
| `AddProduct.InitialDraft` | composeApp/src/commonMain/kotlin/io/everytech/poptracker/ui/viewmodels/AddProductViewModel.kt:15-46 | the initial draft is the all-defaults draft (empty fields, image "labubu_demo", no links, not loading, no error) with an empty amount and the currency of the code's row in the country table; it is not valid |
| `AddProduct.NewMarketplaceLink` | composeApp/src/commonMain/kotlin/io/everytech/poptracker/ui/viewmodels/AddProductViewModel.kt:73-79 | the appended link is unnamed, Secondary, without URL or price, InStock, with the country's default icon |
| `AddProduct.DraftProduct` | composeApp/src/commonMain/kotlin/io/everytech/poptracker/ui/viewmodels/AddProductViewModel.kt:111-121 | the saved product carries the given id and timestamp and every draft field unchanged |
| `AddProduct.AddProductViewModel.constructor` | composeApp/src/commonMain/kotlin/io/everytech/poptracker/ui/viewmodels/AddProductViewModel.kt:33-46 | the view model starts from the initial draft for its country code (default "sg") |
| `AddProduct.AddProductViewModel.UpdateName` | composeApp/src/commonMain/kotlin/io/everytech/poptracker/ui/viewmodels/AddProductViewModel.kt:49-51 | only the name changes, and the error is cleared |
| `AddProduct.AddProductViewModel.UpdateDescription` | composeApp/src/commonMain/kotlin/io/everytech/poptracker/ui/viewmodels/AddProductViewModel.kt:53-55 | only the description changes, and the error is cleared |
| `AddProduct.AddProductViewModel.UpdateImageName` | composeApp/src/commonMain/kotlin/io/everytech/poptracker/ui/viewmodels/AddProductViewModel.kt:57-59 | only the image name changes, and the error is cleared |
| `AddProduct.AddProductViewModel.UpdatePrice` | composeApp/src/commonMain/kotlin/io/everytech/poptracker/ui/viewmodels/AddProductViewModel.kt:61-63 | only the price changes, and the error is cleared |
| `AddProduct.AddProductViewModel.UpdateOfficialUrl` | composeApp/src/commonMain/kotlin/io/everytech/poptracker/ui/viewmodels/AddProductViewModel.kt:65-70 | only the official URL changes, and the error is cleared |
| `AddProduct.AddProductViewModel.AddMarketplace` | composeApp/src/commonMain/kotlin/io/everytech/poptracker/ui/viewmodels/AddProductViewModel.kt:72-82 | the links grow by exactly the new link at the end, the prefix is unchanged, the error is cleared, nothing else changes |
| `AddProduct.AddProductViewModel.UpdateMarketplace` | composeApp/src/commonMain/kotlin/io/everytech/poptracker/ui/viewmodels/AddProductViewModel.kt:84-90 | an index in range replaces only that link and clears the error; any other index leaves the whole state, error included, unchanged |
| `AddProduct.AddProductViewModel.RemoveMarketplace` | composeApp/src/commonMain/kotlin/io/everytech/poptracker/ui/viewmodels/AddProductViewModel.kt:92-98 | an index in range removes that link, keeps the others in order, shrinks the list by one and clears the error; any other index changes nothing |
| `AddProduct.AddProductViewModel.SaveProduct` | composeApp/src/commonMain/kotlin/io/everytech/poptracker/ui/viewmodels/AddProductViewModel.kt:100-137 | an invalid draft only gets the "Please fill in all required fields" error and nothing is written; a valid draft is written as its product, loading ends, and the success callback runs iff the write succeeded, else error is "Failed to save product: " + message |
| `AddProduct.SelectedMarketplaceLink` | composeApp/src/commonMain/kotlin/io/everytech/poptracker/ui/screens/AddProductScreen.kt:524-532 | the selected link carries the marketplace's name and icon, is Secondary and InStock with no price, and its URL is the marketplace's country-specific URL, which is non-empty for a catalog marketplace |
| `AddProduct.SelectMarketplace` | composeApp/src/commonMain/kotlin/io/everytech/poptracker/ui/screens/AddProductScreen.kt:521-533 | `addMarketplace` then `updateMarketplace` at the old length yields the old links followed by the selected link, with the error cleared |
| `AddProduct.DeselectMarketplace` | composeApp/src/commonMain/kotlin/io/everytech/poptracker/ui/screens/AddProductScreen.kt:516-520 | the first link bearing the marketplace's display name is removed if there is one; otherwise nothing changes |

## Left out

- Rendering: screens, cards, buttons, themes, previews and navigation. Only the card's selection rules and the screen's marketplace toggle are modelled.
- The product repository and its document-store client. Its live query is the sequence of `Emit`/`Fail` events. Its write is a `StoreOutcome` chosen by the caller. The repository turns its own errors into an empty emission, so in practice the empty-emission path is how the fallback gets installed.
- Coroutines: each handler runs as one atomic step. An edit made between `saveProduct`'s validation and its write is not modelled. Neither is the interleaving of several collectors after a refresh; each of their emissions is still one step.
- `Uuid.random()` and `System.currentTimeMillis()`: they are parameters of `SaveProduct`.
- Logging, the analytics test, the platform entry points and the build files: side effects and configuration only.
- Aspect ratios, padding and the other layout fields of the card configuration: floating point and layout. Only `showDivider` is modelled.
- The older parallel UI tree (`je.ramos.poptracker`) is not part of this model.
- Text.Lowercase: lowers ASCII letters only. Kotlin's `lowercase()` also maps non-ASCII letters. Every code in the tables is ASCII, so a lookup hits a row only for the same inputs either way. A code that differs only in a non-ASCII letter is outside the model.
- Text.IsWhitespace: holds the JVM's whitespace and space-separator characters as a fixed set. Other platforms' `isWhitespace` tables may differ slightly.

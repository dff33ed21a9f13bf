/** The product-list view model: it reconciles the lists a live product feed
    emits with a fixed fallback list, and exposes the products, a loading flag
    and an error message.

    The feed subscription is modelled as a sequence of events, each handled
    atomically: a load starts (`StartLoad`), the feed emits a list (`Emit`), or
    the feed fails with an exception message (`Fail`). */
module Tracker {
  import opened Collections
  import opened Text
  import opened ProductModels

  /** The exposed state: `products`, `isLoading` and `error`. */
  datatype TrackerState = TrackerState(products: seq<Product>, isLoading: bool, error: Option<string>)

  datatype FeedEvent =
    | StartLoad                        // `loadProducts` (at construction or on refresh) begins
    | Emit(productList: seq<Product>)  // the feed emits a list of products
    | Fail(message: Option<string>)    // the feed throws; `message` is the exception's message
  {
    /** An event the collector or its `catch` block handles. */
    predicate IsHandled() {
      !StartLoad?
    }
  }

  /** The state before any load has started. */
  const InitialState := TrackerState([], false, None)

  /** The demo products installed when the feed is empty or fails. */
  function FallbackProducts(): seq<Product> {
    [
      Product(
        id := "demo-1",
        name := "Labubu Halloween Keychain",
        description := "Limited Edition Collectible",
        imageName := "labubu_demo",
        price := ProductPrice(amount := "15.99"),
        officialUrl := "https://www.popmart.com/products/labubu-halloween",
        marketplaces := [
          MarketplaceLink(name := "Popmart", iconName := Some("popmart"), kind := Official,
                          url := "https://www.popmart.com", availability := InStock),
          MarketplaceLink(name := "Shopee", iconName := Some("shopee"), kind := Secondary,
                          url := "https://shopee.com", availability := OutOfStock),
          MarketplaceLink(name := "Lazada", iconName := Some("lazada"), kind := Secondary,
                          url := "https://lazada.com", availability := InStock),
          MarketplaceLink(name := "TikTok", iconName := Some("tiktok"), kind := Secondary,
                          url := "https://tiktok.com", availability := InStock)
        ]),
      Product(
        id := "demo-2",
        name := "Crybaby x Labubu Blind Box",
        description := "Series 1 Mystery Figure",
        imageName := "labubu_demo",
        price := ProductPrice(amount := "12.99"),
        officialUrl := "https://www.popmart.com/products/crybaby-labubu",
        marketplaces := []),
      Product(
        id := "demo-3",
        name := "Dimoo Space Travel Series",
        description := "Astronaut Edition",
        imageName := "labubu_demo",
        price := ProductPrice(amount := "14.99"),
        officialUrl := "https://www.popmart.com/products/dimoo-space-travel",
        marketplaces := []),
      Product(
        id := "demo-4",
        name := "Skull Panda City of Night",
        description := "Glow in the Dark",
        imageName := "labubu_demo",
        price := ProductPrice(amount := "16.99"),
        officialUrl := "https://www.popmart.com/products/skull-panda-city-night",
        marketplaces := [])
    ]
  }

  /** The fallback list: four products with ids demo-1 to demo-4; only the
      first has links, and its first link is the official one. */
  lemma FallbackProductsShape()
    ensures var f := FallbackProducts();
            |f| == 4 &&
            f[0].id == "demo-1" && f[1].id == "demo-2" && f[2].id == "demo-3" && f[3].id == "demo-4" &&
            f[0].marketplaces != [] && f[0].marketplaces[0].kind == Official &&
            f[1].marketplaces == [] && f[2].marketplaces == [] && f[3].marketplaces == []
    ensures forall i, j :: 0 <= i < j < |FallbackProducts()| ==> FallbackProducts()[i].id != FallbackProducts()[j].id
  {
  }

  /** The list installed by one emission: the emitted list verbatim when it is
      non-empty, otherwise the fallback list; never empty. */
  function Reconcile(productList: seq<Product>): (r: seq<Product>)
    ensures r != []
    ensures productList != [] ==> r == productList
    ensures productList == [] ==> r == FallbackProducts()
  {
    if productList == [] then FallbackProducts() else productList
  }

  /** The effect of one event on the exposed state. */
  function Step(s: TrackerState, e: FeedEvent): TrackerState {
    match e
    case StartLoad => s.(isLoading := true, error := None)
    case Emit(productList) => s.(products := Reconcile(productList), isLoading := false)
    case Fail(message) =>
      TrackerState(FallbackProducts(), false, Some("Failed to load products: " + Template(message)))
  }

  /** The state after handling `events` in order, starting from `s`. */
  function Run(s: TrackerState, events: seq<FeedEvent>): TrackerState
    decreases |events|
  {
    if events == [] then s else Step(Run(s, events[..|events| - 1]), events[|events| - 1])
  }

  /** Some emission or failure is among the events. */
  ghost predicate AnyHandled(events: seq<FeedEvent>) {
    exists i :: 0 <= i < |events| && events[i].IsHandled()
  }

  /** Once an emission or a failure has been handled, the product list is
      never empty again. */
  lemma {:induction false} NonEmptyOnceHandled(s: TrackerState, events: seq<FeedEvent>)
    requires AnyHandled(events)
    ensures Run(s, events).products != []
    decreases |events|
  {
    var last := events[|events| - 1];
    var init := events[..|events| - 1];
    if !last.IsHandled() {
      var i :| 0 <= i < |events| && events[i].IsHandled();
      assert init[i] == events[i];
      NonEmptyOnceHandled(s, init);
    }
  }

  /** The last emission or failure among the events, if any. */
  function LastHandled(events: seq<FeedEvent>): (r: Option<FeedEvent>)
    ensures r.Some? ==> r.value.IsHandled()
    decreases |events|
  {
    if events == [] then None
    else if events[|events| - 1].IsHandled() then Some(events[|events| - 1])
    else LastHandled(events[..|events| - 1])
  }

  /** Emissions never merge: the products are decided by the last emission or
      failure alone (its list, or the fallback), whatever came before it. */
  lemma {:induction false} ProductsFollowLastHandled(s: TrackerState, events: seq<FeedEvent>)
    ensures Run(s, events).products ==
              match LastHandled(events)
              case None => s.products
              case Some(Emit(productList)) => Reconcile(productList)
              case Some(_) => FallbackProducts()
    decreases |events|
  {
    if events != [] && !events[|events| - 1].IsHandled() {
      ProductsFollowLastHandled(s, events[..|events| - 1]);
    }
  }

  /** Loading is on exactly while the last event is the start of a load. */
  lemma LoadingFollowsLastEvent(s: TrackerState, events: seq<FeedEvent>)
    requires events != []
    ensures Run(s, events).isLoading <==> events[|events| - 1] == StartLoad
  {
  }

  /** The class that owns the exposed state and handles the feed's events. */
  class TrackerViewModel {
    var products: seq<Product>
    var isLoading: bool
    var error: Option<string>
    /** The events handled so far. */
    ghost var events: seq<FeedEvent>

    function State(): TrackerState
      reads this
    {
      TrackerState(products, isLoading, error)
    }

    /** The state is the one the handled events produce, and once the feed has
        emitted or failed the product list is not empty. */
    ghost predicate Valid()
      reads this
    {
      State() == Run(InitialState, events) &&
      (AnyHandled(events) ==> products != [])
    }

    /** Construction starts the first load. */
    constructor ()
      ensures Valid() && events == [StartLoad]
      ensures products == [] && isLoading && error == None
    {
      products := [];
      isLoading := false;
      error := None;
      events := [];
      new;
      LoadProducts();
    }

    /** `loadProducts`, up to the subscription: loading on, error cleared. */
    method LoadProducts()
      requires Valid()
      modifies this
      ensures Valid() && events == old(events) + [StartLoad]
      ensures State() == Step(old(State()), StartLoad)
      ensures products == old(products) && isLoading && error == None
    {
      isLoading := true;
      error := None;
      AppendEvent(StartLoad);
    }

    /** `refreshProducts`: starts another load. */
    method RefreshProducts()
      requires Valid()
      modifies this
      ensures Valid() && events == old(events) + [StartLoad]
      ensures State() == Step(old(State()), StartLoad)
      ensures products == old(products) && isLoading && error == None
    {
      LoadProducts();
    }

    /** The collector's body for one emitted list. */
    method OnProducts(productList: seq<Product>)
      requires Valid()
      modifies this
      ensures Valid() && events == old(events) + [Emit(productList)]
      ensures State() == Step(old(State()), Emit(productList))
      ensures products != []
      ensures productList != [] ==> products == productList
      ensures productList == [] ==> products == FallbackProducts()
      ensures !isLoading && error == old(error)
    {
      if productList == [] {
        LoadFallbackProducts();
      } else {
        products := productList;
      }
      isLoading := false;
      AppendEvent(Emit(productList));
    }

    /** The `catch` block when the feed throws with `message`. */
    method OnFailure(message: Option<string>)
      requires Valid()
      modifies this
      ensures Valid() && events == old(events) + [Fail(message)]
      ensures State() == Step(old(State()), Fail(message))
      ensures error == Some("Failed to load products: " + Template(message))
      ensures products == FallbackProducts() && !isLoading
    {
      error := Some("Failed to load products: " + Template(message));
      LoadFallbackProducts();
      isLoading := false;
      AppendEvent(Fail(message));
    }

    /** `loadFallbackProducts`: installs the fallback list. */
    method LoadFallbackProducts()
      modifies this`products
      ensures products == FallbackProducts()
    {
      products := FallbackProducts();
    }

    /** Records a handled event, once the fields hold its effect. */
    ghost method AppendEvent(e: FeedEvent)
      requires State() == Step(Run(InitialState, events), e)
      requires AnyHandled(events) ==> Run(InitialState, events).products != []
      modifies this`events
      ensures events == old(events) + [e] && Valid()
    {
      var before := events;
      events := events + [e];
      assert events[..|events| - 1] == before;
      if AnyHandled(events) {
        NonEmptyOnceHandled(InitialState, events);
      }
    }
  }
}

/**
 * Client runs of the model: what a caller can conclude from the contracts alone
 * for the eight-listing session, a server error, an up swipe, and a restart.
 */
module Scenarios {
  import opened Wrappers
  import opened Listing
  import opened UseListings
  import opened SwipeDeck
  import opened App

  /** Swipes the first listing of the window, which then leaves the window. */
  method SwipeFirst(app: AppState, direction: Direction)
    requires app.Valid() && app.listings.IdsApart()
    requires app.listings.displayed != []
    requires forall l :: l in app.listings.displayed ==> !IsFalsyId(l.id)
    modifies app, app.listings
    ensures app.Valid() && app.listings.IdsApart()
    ensures forall l :: l in app.listings.displayed ==> !IsFalsyId(l.id)
    ensures app.listings.displayed == old(app.listings.displayed)[1..]
    ensures app.likes == AddLike(old(app.likes), direction, old(app.listings.displayed)[0])
    ensures app.listings.pool == old(app.listings.pool)
    ensures app.listings.loading == old(app.listings.loading)
    ensures app.listings.initialized == old(app.listings.initialized)
    ensures app.user == old(app.user)
  {
    assert app.listings.displayed[0] in app.listings.displayed;
    ConsumeRemovesExactlyOne(app.listings.displayed, app.listings.pool, 0);
    app.HandleSwipe(direction, Some(app.listings.displayed[0]));
  }

  /** Any eight listings with distinct, non-falsy ids. */
  predicate EightDistinct(eight: seq<Listing>) {
    |eight| == 8 && UniqueIds(eight) && forall l :: l in eight ==> !IsFalsyId(l.id)
  }

  /** A fetch of eight listings shows five and keeps three in reserve. */
  method FetchEight(eight: seq<Listing>) returns (app: AppState)
    requires EightDistinct(eight)
    ensures fresh(app) && fresh(app.listings)
    ensures app.Valid() && app.listings.IdsApart() && app.likes == []
    ensures app.listings.displayed == eight[..5] && app.listings.pool == eight[5..]
    ensures app.listings.initialized && !app.listings.loading && app.listings.error == None
  {
    var storage := new BrowserStorage(map[]);
    app := new AppState(storage);
    app.listings.StartFetch();
    app.listings.CompleteFetch(Received(Response(200, Payload(Some(eight)))));
    assert |app.listings.displayed| == 5 && |app.listings.pool| == 3;
  }

  /** Three right swipes on distinct ids collect those listings in swipe order. */
  lemma ThreeLikes(eight: seq<Listing>)
    requires EightDistinct(eight)
    ensures AddLike(AddLike(AddLike([], Right, eight[0]), Right, eight[1]), Right, eight[2]) == eight[..3]
  {
    var one := AddLike([], Right, eight[0]);
    assert one == [eight[0]];
    assert eight[1].id != eight[0].id;
    var two := AddLike(one, Right, eight[1]);
    assert two == [eight[0], eight[1]];
    assert eight[2].id != eight[0].id && eight[2].id != eight[1].id;
  }

  /** Three right swipes and two left swipes empty the window; the refill shows the other three. */
  method EightListings(eight: seq<Listing>)
    requires EightDistinct(eight)
  {
    var app := FetchEight(eight);
    var buffer := app.listings;
    assert forall l :: l in buffer.displayed ==> l in eight;
    SwipeFirst(app, Right);
    SwipeFirst(app, Right);
    SwipeFirst(app, Right);
    SwipeFirst(app, Left);
    SwipeFirst(app, Left);
    assert buffer.displayed == [];
    ThreeLikes(eight);
    assert app.likes == eight[..3];
    var fired, fetchStarted := buffer.AutoRefill();
    assert fired && !fetchStarted;
    assert buffer.displayed == eight[5..] && buffer.pool == [];
  }

  /** Left-swipes every listing of the window, first to last. */
  method DrainWindow(app: AppState)
    requires app.Valid() && app.listings.IdsApart()
    requires forall l :: l in app.listings.displayed ==> !IsFalsyId(l.id)
    modifies app, app.listings
    ensures app.Valid() && app.listings.IdsApart()
    ensures app.listings.displayed == []
    ensures app.listings.pool == old(app.listings.pool)
    ensures app.listings.loading == old(app.listings.loading)
    ensures app.listings.initialized == old(app.listings.initialized)
  {
    while app.listings.displayed != []
      invariant app.Valid() && app.listings.IdsApart()
      invariant forall l :: l in app.listings.displayed ==> !IsFalsyId(l.id)
      invariant app.listings.pool == old(app.listings.pool)
      invariant app.listings.loading == old(app.listings.loading)
      invariant app.listings.initialized == old(app.listings.initialized)
      decreases |app.listings.displayed|
    {
      SwipeFirst(app, Left);
    }
  }

  /** Once window and pool are both empty, the next refill issues a fetch, and only once. */
  method DepletedPoolFetches(eight: seq<Listing>)
    requires EightDistinct(eight)
  {
    var app := FetchEight(eight);
    var buffer := app.listings;
    assert forall l :: l in buffer.displayed ==> l in eight;
    DrainWindow(app);
    var fired, fetchStarted := buffer.AutoRefill();
    assert fired && !fetchStarted && buffer.pool == [];
    assert forall l :: l in buffer.displayed ==> l in eight;
    DrainWindow(app);
    fired, fetchStarted := buffer.AutoRefill();
    assert fired && fetchStarted && buffer.loading;
    // While that fetch is pending the effect does not fire again.
    fired, fetchStarted := buffer.AutoRefill();
    assert !fired;
  }

  /** A fetch answered with status 500 sets the error, ends loading and shows the error screen. */
  method ServerErrorShowsError() {
    var storage := new BrowserStorage(map[]);
    var app := new AppState(storage);
    var buffer := app.listings;
    buffer.StartFetch();
    var outcome := Received(Response(500, Payload(None)));
    assert !IsOkStatus(500);
    assert DecimalString(500) == "500" by {
      assert DecimalString(5) == "5";
      assert DecimalString(50) == "50";
    }
    assert "API error: " + "500" == "API error: 500";
    assert FetchResult(outcome) == Err("API error: 500");
    buffer.CompleteFetch(outcome);
    assert buffer.error == Some("API error: 500") && !buffer.loading;
    assert buffer.displayed == [] && !buffer.initialized;
    var deck := new Deck();
    assert app.DeckView(deck) == ErrorScreen("API error: 500");
    // The retry button issues the fetch again.
    buffer.StartFetch();
    assert app.DeckView(deck) == LoadingScreen;
  }

  method UpSwipeIsRejected(l: Listing) {
    var storage := new BrowserStorage(map[]);
    var app := new AppState(storage);
    var deck := new Deck();
    app.SwipeCard(deck, Up, l);
    assert app.likes == [] && deck.lastSwipe == None;
    app.SwipeCard(deck, Right, l);
    assert app.likes == [l];
    assert deck.lastSwipe == Some(Feedback(Right, "¡Me gusta!", l));
    deck.ExpireFeedback();
    assert deck.lastSwipe == None;
  }

  method RestartKeepsSession(u: User) {
    var storage := new BrowserStorage(map[]);
    var app := new AppState(storage);
    app.PersistUser(Some(u), false);

    var second := new AppState(storage);
    second.RestoreSession();
    assert second.user == Some(u);

    second.Logout(false);
    var third := new AppState(storage);
    third.RestoreSession();
    assert third.user == None;
  }

  method CorruptStorageMeansNoSession() {
    var storage := new BrowserStorage(map[UserStorageKey := Unreadable]);
    var app := new AppState(storage);
    app.RestoreSession();
    assert app.user == None;
  }

  /**
   * With an empty catalog, or a failing one after a first success, every completed
   * fetch leaves an initialized, idle, empty window, so the refill fetches again.
   */
  method EmptyCatalogRefetches(reason: string) {
    var buffer := new ListingBuffer();
    buffer.StartFetch();
    buffer.CompleteFetch(Received(Response(200, Payload(Some([])))));
    assert buffer.initialized && !buffer.loading && buffer.displayed == [] && buffer.pool == [];
    var fired, fetchStarted := buffer.AutoRefill();
    assert fired && fetchStarted;

    buffer.CompleteFetch(TransportFailure(reason));
    assert buffer.error.Some? && !buffer.loading && buffer.displayed == [];
    fired, fetchStarted := buffer.AutoRefill();
    assert fired && fetchStarted;

    buffer.CompleteFetch(Received(Response(200, Payload(None))));
    fired, fetchStarted := buffer.AutoRefill();
    assert fired && fetchStarted;
  }
}

/** The view model's test cases, stated for every weather client whose search answers the
    mocks' default coordinate with a non-empty list (the tests use one fixed such client). */
module WeatherFeatureScenarios {
  import opened Options
  import opened CoreLocation
  import opened WeatherClientInterface
  import opened PathMonitorClientInterface
  import opened LocationClientInterface
  import opened LocationClientMocks
  import opened WeatherFeature
  import opened Composition
  import opened WorldProperties

  /** The search answer the scenarios rely on. */
  ghost predicate FindsPlaces(client: WeatherClient, found: seq<Location>) {
    client.searchLocations(UnknownCoordinate) == Some(found) && |found| > 0
  }

  /** The state once the path monitor has published "satisfied" and no location is known. */
  const ConnectedWithoutLocation: AppState := AppState(true, None, [], Some(true))

  lemma SatisfiedBeforeLocation(client: WeatherClient, location: LocationClient)
    ensures Run(client, World(InitialState, location, []), PathInputs([NetworkPath(Satisfied)]))
         == World(ConnectedWithoutLocation, location, [])
  {
  }

  /** Connected and authorized from the start: construction alone resolves the first place found
      and shows its forecast. */
  lemma Basics(client: WeatherClient, found: seq<Location>)
    requires FindsPlaces(client, found)
    ensures Start(client, [NetworkPath(Satisfied)], AuthorizedWhenInUseMock)
         == World(AppState(true, Some(found[0]), ForecastFor(client, found[0].woeid), Some(true)),
                  AuthorizedWhenInUseMock,
                  [Locate(RequestLocation), SearchLocations(UnknownCoordinate), FetchWeather(found[0].woeid)])
  {
    SatisfiedBeforeLocation(client, AuthorizedWhenInUseMock);
    PerformRequestLocation(client, World(ConnectedWithoutLocation, AuthorizedWhenInUseMock, []));
  }

  /** Disconnected from the start: the location update is dropped, so the weather client is
      never called, whatever it would answer. */
  lemma DisconnectedState(client: WeatherClient)
    ensures Start(client, [NetworkPath(Unsatisfied)], AuthorizedWhenInUseMock)
         == World(AppState(false, None, [], Some(false)), AuthorizedWhenInUseMock, [Locate(RequestLocation)])
  {
    var w0 := World(InitialState, AuthorizedWhenInUseMock, []);
    var offline := World(AppState(false, None, [], Some(false)), AuthorizedWhenInUseMock, []);
    assert PathInputs([NetworkPath(Unsatisfied)]) == [PathUpdate(NetworkPath(Unsatisfied))];
    assert Step(client, w0, PathUpdate(NetworkPath(Unsatisfied))) == offline;
    assert Run(client, w0, PathInputs([NetworkPath(Unsatisfied)])) == Run(client, offline, []);
    PerformRequestLocation(client, offline);
  }

  /** Path updates after construction: the first "satisfied" passes the duplicate filter and
      refreshes; going offline clears the results but keeps the place; coming back re-fetches. */
  lemma PathUpdates(client: WeatherClient, found: seq<Location>)
    requires FindsPlaces(client, found)
    ensures var w0 := Start(client, [], AuthorizedWhenInUseMock);
      var w1 := Step(client, w0, PathUpdate(NetworkPath(Satisfied)));
      var w2 := Step(client, w1, PathUpdate(NetworkPath(Unsatisfied)));
      var w3 := Step(client, w2, PathUpdate(NetworkPath(Satisfied)));
      && w1.app == AppState(true, Some(found[0]), ForecastFor(client, found[0].woeid), Some(true))
      && w2.app == AppState(false, Some(found[0]), [], Some(false))
      && w3.app == AppState(true, Some(found[0]), ForecastFor(client, found[0].woeid), Some(true))
  {
    var w := World(InitialState, AuthorizedWhenInUseMock, []);
    var forecast := ForecastFor(client, found[0].woeid);
    assert PathInputs([]) == [];
    PerformRequestLocation(client, w);
    var w0 := Start(client, [], AuthorizedWhenInUseMock);
    assert w0.app == AppState(true, Some(found[0]), forecast, None);
    var w1 := Step(client, w0, PathUpdate(NetworkPath(Satisfied)));
    var r1 := OnPathUpdate(client, w0.app, NetworkPath(Satisfied));
    DispatchRecordsOnly(client, w0.(app := r1.state), r1.requests);
    assert w1.app == AppState(true, Some(found[0]), forecast, Some(true));
    var w2 := Step(client, w1, PathUpdate(NetworkPath(Unsatisfied)));
    assert w2.app == AppState(false, Some(found[0]), [], Some(false));
    var r3 := OnPathUpdate(client, w2.app, NetworkPath(Satisfied));
    DispatchRecordsOnly(client, w2.(app := r3.state), r3.requests);
  }

  /** Undetermined authorization: construction does nothing; one tap grants, locates, searches
      and fetches. */
  lemma LocationAuthorization(client: WeatherClient, found: seq<Location>)
    requires FindsPlaces(client, found)
    ensures var w0 := Start(client, [NetworkPath(Satisfied)], NewNotDetermined());
      var w1 := Step(client, w0, TapLocationButton);
      && w0.app == ConnectedWithoutLocation
      && w1.app == AppState(true, Some(found[0]), ForecastFor(client, found[0].woeid), Some(true))
      && CurrentAuthorization(w1.location) == AuthorizedWhenInUse
  {
    SatisfiedBeforeLocation(client, NewNotDetermined());
    var w0 := World(ConnectedWithoutLocation, NewNotDetermined(), []);
    assert Start(client, [NetworkPath(Satisfied)], NewNotDetermined()) == w0;
    assert Step(client, w0, TapLocationButton) == Perform(client, w0, RequestWhenInUseAuthorization);
    PerformAuthorizationGranted(client, w0);
    var granted := World(ConnectedWithoutLocation, NotDeterminedMock(AuthorizedWhenInUse),
                         [Locate(RequestWhenInUseAuthorization)]);
    assert w0.log + [Locate(RequestWhenInUseAuthorization)] == granted.log;
    assert Perform(client, w0, RequestWhenInUseAuthorization) == Perform(client, granted, RequestLocation);
    PerformRequestLocation(client, granted);
    var r := OnDelegateEvent(client, ConnectedWithoutLocation, DidUpdateLocations([UnknownLocation]));
    assert r.state == OnSearchResult(client, ConnectedWithoutLocation, found).state;
  }

  /** Denied authorization: the tap changes nothing visible and never asks for a position. */
  lemma LocationAuthorizationDenied(client: WeatherClient)
    ensures var w0 := Start(client, [NetworkPath(Satisfied)], NewNotDeterminedDenied());
      var w1 := Step(client, w0, TapLocationButton);
      && w0.app == ConnectedWithoutLocation
      && w1.app == w0.app
      && Locate(RequestLocation) !in w1.log
      && CurrentAuthorization(w1.location) == Denied
  {
    SatisfiedBeforeLocation(client, NewNotDeterminedDenied());
    PerformAuthorizationDenied(client, World(ConnectedWithoutLocation, NewNotDeterminedDenied(), []));
  }
}

/** What the synchronous composition keeps and computes: the state invariant across any run,
    and the closed forms of the mock requests fed back into the view model. */
module WorldProperties {
  import opened Options
  import opened CoreLocation
  import opened WeatherClientInterface
  import opened PathMonitorClientInterface
  import opened LocationClientInterface
  import opened LocationClientMocks
  import opened WeatherFeature
  import opened Composition

  ghost predicate WorldInv(client: WeatherClient, w: World) {
    Consistent(client, w.app) && Reachable(w.location)
  }

  lemma {:induction false} DeliverKeeps(client: WeatherClient, w: World, e: DelegateEvent)
    requires WorldInv(client, w)
    ensures WorldInv(client, Deliver(client, w, e))
    ensures w.log <= Deliver(client, w, e).log
    decreases EventRank(e), 1, 0
  {
    var reaction := OnDelegateEvent(client, w.app, e);
    DelegateEventRank(client, w.app, e);
    DelegateEventKeepsConsistent(client, w.app, e);
    DispatchKeeps(client, w.(app := reaction.state), reaction.requests);
  }

  lemma {:induction false} DeliverAllKeeps(client: WeatherClient, w: World, es: seq<DelegateEvent>)
    requires WorldInv(client, w)
    ensures WorldInv(client, DeliverAll(client, w, es))
    ensures w.log <= DeliverAll(client, w, es).log
    decreases MaxEventRank(es), 2, |es|
  {
    if |es| > 0 {
      DeliverKeeps(client, w, es[0]);
      DeliverAllKeeps(client, Deliver(client, w, es[0]), es[1..]);
    }
  }

  lemma {:induction false} DispatchKeeps(client: WeatherClient, w: World, qs: seq<Request>)
    requires WorldInv(client, w)
    ensures WorldInv(client, Dispatch(client, w, qs))
    ensures w.log <= Dispatch(client, w, qs).log
    decreases MaxRequestRank(qs), 2, |qs|
  {
    if |qs| > 0 {
      var next :=
        match qs[0]
        case Locate(request) => Perform(client, w, request)
        case _ => w.(log := w.log + [qs[0]]);
      if qs[0].Locate? {
        PerformKeeps(client, w, qs[0].request);
      }
      DispatchKeeps(client, next, qs[1..]);
    }
  }

  /** A location request keeps the invariant and is logged before whatever it sets off. */
  lemma {:induction false} PerformKeeps(client: WeatherClient, w: World, request: LocationRequest)
    requires WorldInv(client, w)
    ensures WorldInv(client, Perform(client, w, request))
    ensures w.log + [Locate(request)] <= Perform(client, w, request).log
    decreases LocationRequestRank(request), 1, 0
  {
    var answer := Handle(w.location, request);
    MockEventRank(w.location, request);
    HandleKeepsReachable(w.location, request);
    DeliverAllKeeps(client, World(w.app, answer.client, w.log + [Locate(request)]), answer.emitted);
  }

  lemma StepKeeps(client: WeatherClient, w: World, input: Input)
    requires WorldInv(client, w)
    ensures WorldInv(client, Step(client, w, input))
    ensures w.log <= Step(client, w, input).log
  {
    match input
    case PathUpdate(path) =>
      var reaction := OnPathUpdate(client, w.app, path);
      PathUpdateKeepsConsistent(client, w.app, path);
      DispatchKeeps(client, w.(app := reaction.state), reaction.requests);
    case TapLocationButton =>
      match LocationButtonTapped(CurrentAuthorization(w.location))
      case None =>
      case Some(request) => PerformKeeps(client, w, request);
  }

  lemma {:induction false} RunKeeps(client: WeatherClient, w: World, inputs: seq<Input>)
    requires WorldInv(client, w)
    ensures WorldInv(client, Run(client, w, inputs))
    ensures w.log <= Run(client, w, inputs).log
    decreases |inputs|
  {
    if |inputs| > 0 {
      StepKeeps(client, w, inputs[0]);
      RunKeeps(client, Step(client, w, inputs[0]), inputs[1..]);
    }
  }

  lemma StartEstablishes(client: WeatherClient, initialPaths: seq<NetworkPath>, location: LocationClient)
    requires Reachable(location)
    ensures WorldInv(client, Start(client, initialPaths, location))
  {
    var w0 := World(InitialState, location, []);
    RunKeeps(client, w0, PathInputs(initialPaths));
    var subscribed := Run(client, w0, PathInputs(initialPaths));
    match EagerRequest(CurrentAuthorization(location))
    case None =>
    case Some(request) => PerformKeeps(client, subscribed, request);
  }

  /** Whatever the path monitor publishes and however often the button is tapped, a mock-driven
      view model with synchronous clients shows results only while connected, and while
      connected at a known location shows exactly that location's forecast. */
  lemma ResultsOnlyWhileConnected(client: WeatherClient, initialPaths: seq<NetworkPath>,
                                  location: LocationClient, inputs: seq<Input>)
    requires Reachable(location)
    ensures var w := Run(client, Start(client, initialPaths, location), inputs);
      && (|w.app.weatherResults| > 0 ==> w.app.isConnected)
      && (w.app.isConnected && w.app.currentLocation.Some? ==>
            w.app.weatherResults == ForecastFor(client, w.app.currentLocation.value.woeid))
  {
    StartEstablishes(client, initialPaths, location);
    RunKeeps(client, Start(client, initialPaths, location), inputs);
  }

  /** Weather-client requests are answered inline, so dispatching them only records them. */
  lemma {:induction false} DispatchRecordsOnly(client: WeatherClient, w: World, qs: seq<Request>)
    requires forall i :: 0 <= i < |qs| ==> !qs[i].Locate?
    ensures Dispatch(client, w, qs) == w.(log := w.log + qs)
    decreases |qs|
  {
    if |qs| > 0 {
      DispatchRecordsOnly(client, w.(log := w.log + [qs[0]]), qs[1..]);
      assert w.log + [qs[0]] + qs[1..] == w.log + qs;
    }
  }

  /** `requestLocation` on any mock: the update it sends is handled as if the delegate had
      received it, and the mock is left as it was. */
  lemma PerformRequestLocation(client: WeatherClient, w: World)
    ensures var r := OnDelegateEvent(client, w.app, DidUpdateLocations([UnknownLocation]));
      Perform(client, w, RequestLocation) == World(r.state, w.location, w.log + [Locate(RequestLocation)] + r.requests)
  {
    var e := DidUpdateLocations([UnknownLocation]);
    var r := OnDelegateEvent(client, w.app, e);
    var w1 := World(w.app, w.location, w.log + [Locate(RequestLocation)]);
    assert Perform(client, w, RequestLocation) == DeliverAll(client, w1, [e]);
    assert DeliverAll(client, w1, [e]) == Deliver(client, w1, e);
    DispatchRecordsOnly(client, w1.(app := r.state), r.requests);
  }

  /** `requestWhenInUseAuthorization` on the "not determined" mock: it grants, the delegate hears
      of it and asks for a position, with everything that follows from that. */
  lemma PerformAuthorizationGranted(client: WeatherClient, w: World)
    requires w.location.NotDeterminedMock?
    ensures Perform(client, w, RequestWhenInUseAuthorization)
         == Perform(client, World(w.app, NotDeterminedMock(AuthorizedWhenInUse),
                                  w.log + [Locate(RequestWhenInUseAuthorization)]), RequestLocation)
  {
  }

  /** `requestWhenInUseAuthorization` on the "not determined, denied" mock: it denies, and the
      view model neither changes nor asks for anything more. */
  lemma PerformAuthorizationDenied(client: WeatherClient, w: World)
    requires w.location.NotDeterminedDeniedMock?
    ensures Perform(client, w, RequestWhenInUseAuthorization)
         == World(w.app, NotDeterminedDeniedMock(Denied), w.log + [Locate(RequestWhenInUseAuthorization)])
  {
  }

  /** Before any location is known, path updates issue no request and leave the mock alone. */
  lemma {:induction false} PathsBeforeLocation(client: WeatherClient, w: World, paths: seq<NetworkPath>)
    requires w.app.currentLocation.None?
    ensures Run(client, w, PathInputs(paths)).location == w.location
    ensures Run(client, w, PathInputs(paths)).log == w.log
    ensures Run(client, w, PathInputs(paths)).app.currentLocation.None?
    decreases |paths|
  {
    if |paths| > 0 {
      var next := Step(client, w, PathUpdate(paths[0]));
      assert PathInputs(paths)[1..] == PathInputs(paths[1..]);
      PathsBeforeLocation(client, next, paths[1..]);
    }
  }

  /** `init` issues a request to any client exactly when the status is "authorized when in use",
      and that first request is `requestLocation`. (It always queries the status and subscribes
      to both publishers; those are not requests.) */
  lemma StartEagerOnlyWhenInUse(client: WeatherClient, initialPaths: seq<NetworkPath>, location: LocationClient)
    ensures var w := Start(client, initialPaths, location);
      && (|w.log| > 0 <==> CurrentAuthorization(location) == AuthorizedWhenInUse)
      && (|w.log| > 0 ==> w.log[0] == Locate(RequestLocation))
  {
    var w0 := World(InitialState, location, []);
    PathsBeforeLocation(client, w0, initialPaths);
    var subscribed := Run(client, w0, PathInputs(initialPaths));
    if CurrentAuthorization(location) == AuthorizedWhenInUse {
      PerformRequestLocation(client, subscribed);
    }
  }
}

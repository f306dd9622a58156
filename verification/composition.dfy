/** The view model wired to a mock location client, as the tests wire it: every request on the
    location client runs at once, and the events its subject sends are delivered back into the
    view model before the request returns (re-entrantly, depth first). */
module Composition {
  import opened Options
  import opened CoreLocation
  import opened WeatherClientInterface
  import opened PathMonitorClientInterface
  import opened LocationClientInterface
  import opened LocationClientMocks
  import opened WeatherFeature

  /** The view model's state, the mock location client it holds, and every request issued so far. */
  datatype World = World(app: AppState, location: LocationClient, log: seq<Request>)

  /** What drives the world from outside: the path monitor publishing, or the user tapping the
      location button. */
  datatype Input = PathUpdate(path: NetworkPath) | TapLocationButton

  // Ranks bounding the depth of synchronous feedback: an event only causes requests of lower
  // rank, and a request only causes events of lower rank.

  function EventRank(e: DelegateEvent): nat {
    match e
    case DidChangeAuthorizationStatus(_) => 3
    case DidUpdateLocations(_) => 1
    case DidFailWithError(_) => 1
  }

  function LocationRequestRank(request: LocationRequest): nat {
    match request
    case RequestLocation => 2
    case RequestWhenInUseAuthorization => 4
  }

  function RequestRank(q: Request): nat {
    match q
    case Locate(request) => LocationRequestRank(request)
    case _ => 0
  }

  function MaxEventRank(es: seq<DelegateEvent>): nat {
    if |es| == 0 then 0
    else if EventRank(es[0]) < MaxEventRank(es[1..]) then MaxEventRank(es[1..])
    else EventRank(es[0])
  }

  function MaxRequestRank(qs: seq<Request>): nat {
    if |qs| == 0 then 0
    else if RequestRank(qs[0]) < MaxRequestRank(qs[1..]) then MaxRequestRank(qs[1..])
    else RequestRank(qs[0])
  }

  lemma DelegateEventRank(client: WeatherClient, s: AppState, e: DelegateEvent)
    ensures MaxRequestRank(OnDelegateEvent(client, s, e).requests) < EventRank(e)
  {
    var r := OnDelegateEvent(client, s, e);
    if e.DidUpdateLocations? && s.isConnected && |e.locations| > 0 {
      assert forall i :: 0 <= i < |r.requests| ==> !r.requests[i].Locate?;
      NoLocateRankZero(r.requests);
    }
  }

  lemma {:induction false} NoLocateRankZero(qs: seq<Request>)
    requires forall i :: 0 <= i < |qs| ==> !qs[i].Locate?
    ensures MaxRequestRank(qs) == 0
  {
    if |qs| > 0 {
      NoLocateRankZero(qs[1..]);
    }
  }

  lemma MockEventRank(c: LocationClient, request: LocationRequest)
    ensures MaxEventRank(Handle(c, request).emitted) < LocationRequestRank(request)
  {
  }

  /** The view model's delegate sink receiving `e`, with all the feedback it causes. */
  function Deliver(client: WeatherClient, w: World, e: DelegateEvent): World
    decreases EventRank(e), 1, 0
  {
    var reaction := OnDelegateEvent(client, w.app, e);
    DelegateEventRank(client, w.app, e);
    Dispatch(client, w.(app := reaction.state), reaction.requests)
  }

  /** The events a mock's subject sent, delivered in order. */
  function DeliverAll(client: WeatherClient, w: World, es: seq<DelegateEvent>): World
    decreases MaxEventRank(es), 2, |es|
  {
    if |es| == 0 then w
    else DeliverAll(client, Deliver(client, w, es[0]), es[1..])
  }

  /** Requests a handler issued, in order: weather-client calls were already answered and are
      only recorded; location-client calls run on the mock. */
  function Dispatch(client: WeatherClient, w: World, qs: seq<Request>): World
    decreases MaxRequestRank(qs), 2, |qs|
  {
    if |qs| == 0 then w
    else
      var next :=
        match qs[0]
        case Locate(request) => Perform(client, w, request)
        case _ => w.(log := w.log + [qs[0]]);
      Dispatch(client, next, qs[1..])
  }

  /** A call on the mock location client, followed by the delivery of what its subject sent. */
  function Perform(client: WeatherClient, w: World, request: LocationRequest): World
    decreases LocationRequestRank(request), 1, 0
  {
    var answer := Handle(w.location, request);
    MockEventRank(w.location, request);
    DeliverAll(client, World(w.app, answer.client, w.log + [Locate(request)]), answer.emitted)
  }

  /** One input, with everything it sets off. */
  function Step(client: WeatherClient, w: World, input: Input): World {
    match input
    case PathUpdate(path) =>
      var reaction := OnPathUpdate(client, w.app, path);
      Dispatch(client, w.(app := reaction.state), reaction.requests)
    case TapLocationButton =>
      match LocationButtonTapped(CurrentAuthorization(w.location))
      case None => w
      case Some(request) => Perform(client, w, request)
  }

  function Run(client: WeatherClient, w: World, inputs: seq<Input>): World
    decreases |inputs|
  {
    if |inputs| == 0 then w else Run(client, Step(client, w, inputs[0]), inputs[1..])
  }

  function PathInputs(paths: seq<NetworkPath>): (inputs: seq<Input>)
    ensures |inputs| == |paths|
    ensures forall i :: 0 <= i < |paths| ==> inputs[i] == PathUpdate(paths[i])
  {
    seq(|paths|, i requires 0 <= i < |paths| => PathUpdate(paths[i]))
  }

  /** `init`: subscribe to the path monitor (which delivers `initialPaths` on subscription),
      subscribe to the delegate, then make the eager location request if the status allows it. */
  function Start(client: WeatherClient, initialPaths: seq<NetworkPath>, location: LocationClient): World {
    var subscribed := Run(client, World(InitialState, location, []), PathInputs(initialPaths));
    match EagerRequest(CurrentAuthorization(location))
    case None => subscribed
    case Some(request) => Perform(client, subscribed, request)
  }
}

/** `AppViewModel`: the app's observable state and its reaction to each event, as pure
    functions. The weather client answers synchronously; every request a handler issues
    is reported, in order, next to the new state. */
module WeatherFeature {
  import opened Options
  import opened CoreLocation
  import opened WeatherClientInterface
  import opened PathMonitorClientInterface
  import opened LocationClientInterface

  /** The published fields, plus the last connectivity value let through by
      `removeDuplicates` (`None` before the first emission). */
  datatype AppState = AppState(
    isConnected: bool,
    currentLocation: Option<Location>,
    weatherResults: seq<ConsolidatedWeather>,
    lastConnectivity: Option<bool>)

  /** The state right after the stored properties are initialised. */
  const InitialState: AppState := AppState(true, None, [], None)

  /** A request the view model issues to one of its injected clients. Queries such as
      `authorizationStatus()` and the subscriptions themselves are not requests. */
  datatype Request =
    | FetchWeather(woeid: int)
    | SearchLocations(coordinate: Coordinate)
    | Locate(request: LocationRequest)

  /** A handler's outcome: the new state and the requests it issued, in order. */
  datatype Reaction = Reaction(state: AppState, requests: seq<Request>)

  /** What a weather request for `woeid` leaves in `weatherResults`: the forecast on success,
      nothing on failure. */
  function ForecastFor(client: WeatherClient, woeid: int): seq<ConsolidatedWeather> {
    match client.weather(woeid)
    case Some(response) => response.consolidatedWeather
    case None => []
  }

  /** `refreshWeather`: without a current location nothing happens; otherwise the results are
      cleared, one weather request is issued for the location, and its answer (if any) fills
      the results. */
  function RefreshWeather(client: WeatherClient, s: AppState): (r: Reaction)
    ensures s.currentLocation.None? ==> r == Reaction(s, [])
    ensures s.currentLocation.Some? ==>
      && r.requests == [FetchWeather(s.currentLocation.value.woeid)]
      && r.state.isConnected == s.isConnected
      && r.state.currentLocation == s.currentLocation
      && r.state.lastConnectivity == s.lastConnectivity
      && (client.weather(s.currentLocation.value.woeid).None? ==> r.state.weatherResults == [])
      && (client.weather(s.currentLocation.value.woeid).Some? ==>
            r.state.weatherResults == client.weather(s.currentLocation.value.woeid).value.consolidatedWeather)
  {
    match s.currentLocation
    case None => Reaction(s, [])
    case Some(location) =>
      var cleared := s.(weatherResults := []);
      var answered :=
        match client.weather(location.woeid)
        case Some(response) => cleared.(weatherResults := response.consolidatedWeather)
        case None => cleared;
      Reaction(answered, [FetchWeather(location.woeid)])
  }

  /** The connectivity subscription: `status == .satisfied`, then `removeDuplicates`, then the sink. */
  function OnPathUpdate(client: WeatherClient, s: AppState, path: NetworkPath): (r: Reaction)
    // a value equal to the previous one is suppressed
    ensures s.lastConnectivity == Some(path.status == Satisfied) ==> r == Reaction(s, [])
    // otherwise (always on the first emission) it is recorded and published
    ensures s.lastConnectivity != Some(path.status == Satisfied) ==>
      && r.state.isConnected == (path.status == Satisfied)
      && r.state.lastConnectivity == Some(path.status == Satisfied)
      && r.state.currentLocation == s.currentLocation
    // going offline clears the results and asks for nothing
    ensures s.lastConnectivity != Some(path.status == Satisfied) && path.status != Satisfied ==>
      r.state.weatherResults == [] && r.requests == []
    // going online refreshes the weather of the known location, if any
    ensures s.lastConnectivity != Some(path.status == Satisfied) && path.status == Satisfied ==>
      match s.currentLocation
      case None => r.state.weatherResults == s.weatherResults && r.requests == []
      case Some(location) =>
        r.state.weatherResults == ForecastFor(client, location.woeid) && r.requests == [FetchWeather(location.woeid)]
  {
    var connected := path.status == Satisfied;
    if s.lastConnectivity == Some(connected) then Reaction(s, [])
    else
      var published := s.(isConnected := connected, lastConnectivity := Some(connected));
      if connected then RefreshWeather(client, published)
      else Reaction(published.(weatherResults := []), [])
  }

  /** The answer to a location search: the first place found (or none) becomes current and the
      weather is refreshed. */
  function OnSearchResult(client: WeatherClient, s: AppState, found: seq<Location>): (r: Reaction)
    ensures r.state.currentLocation == First(found)
    ensures r.state.isConnected == s.isConnected
    ensures r.state.lastConnectivity == s.lastConnectivity
    ensures |found| > 0 ==>
      r.state.weatherResults == ForecastFor(client, found[0].woeid) && r.requests == [FetchWeather(found[0].woeid)]
    // an empty answer forgets the location but keeps whatever results were shown
    ensures |found| == 0 ==> r.state.weatherResults == s.weatherResults && r.requests == []
  {
    RefreshWeather(client, s.(currentLocation := First(found)))
  }

  /** The location-delegate subscription. */
  function OnDelegateEvent(client: WeatherClient, s: AppState, e: DelegateEvent): (r: Reaction)
    // an authorization change never touches the state; an authorized one asks for a position
    ensures e.DidChangeAuthorizationStatus? ==>
      && r.state == s
      && (IsAuthorized(e.status) ==> r.requests == [Locate(RequestLocation)])
      && (!IsAuthorized(e.status) ==> r.requests == [])
    ensures e.DidFailWithError? ==> r == Reaction(s, [])
    // a location update never issues a request to the location client
    ensures e.DidUpdateLocations? ==> forall i :: 0 <= i < |r.requests| ==> !r.requests[i].Locate?
    // updates while offline, or without any location, are dropped before any search
    ensures e.DidUpdateLocations? && (!s.isConnected || |e.locations| == 0) ==> r == Reaction(s, [])
    // otherwise the first location's coordinate is searched
    ensures e.DidUpdateLocations? && s.isConnected && |e.locations| > 0 ==>
      && |r.requests| > 0
      && r.requests[0] == SearchLocations(e.locations[0].coordinate)
      && (client.searchLocations(e.locations[0].coordinate).None? ==> r == Reaction(s, r.requests[..1]) && |r.requests| == 1)
      && (client.searchLocations(e.locations[0].coordinate).Some? ==>
            var answered := OnSearchResult(client, s, client.searchLocations(e.locations[0].coordinate).value);
            r.state == answered.state && r.requests[1..] == answered.requests)
  {
    match e
    case DidChangeAuthorizationStatus(status) =>
      (match status
       case NotDetermined => Reaction(s, [])
       case Restricted => Reaction(s, [])
       case Denied => Reaction(s, [])
       case AuthorizedAlways => Reaction(s, [Locate(RequestLocation)])
       case AuthorizedWhenInUse => Reaction(s, [Locate(RequestLocation)]))
    case DidUpdateLocations(locations) =>
      if !s.isConnected || |locations| == 0 then Reaction(s, [])
      else
        var coordinate := locations[0].coordinate;
        var search := SearchLocations(coordinate);
        (match client.searchLocations(coordinate)
         case None => Reaction(s, [search])
         case Some(found) =>
           var answered := OnSearchResult(client, s, found);
           Reaction(answered.state, [search] + answered.requests))
    case DidFailWithError(_) => Reaction(s, [])
  }

  /** `locationButtonTapped`: the location request the button issues for the current status. */
  function LocationButtonTapped(status: AuthorizationStatus): (r: Option<LocationRequest>)
    ensures r == Some(RequestWhenInUseAuthorization) <==> status == NotDetermined
    ensures r == Some(RequestLocation) <==> IsAuthorized(status)
    ensures r == None <==> status == Restricted || status == Denied
  {
    match status
    case NotDetermined => Some(RequestWhenInUseAuthorization)
    case Restricted => None
    case Denied => None
    case AuthorizedAlways => Some(RequestLocation)
    case AuthorizedWhenInUse => Some(RequestLocation)
  }

  /** The eager request at the end of `init`: only the exact status "authorized when in use"
      triggers it. */
  function EagerRequest(status: AuthorizationStatus): (r: Option<LocationRequest>)
    ensures r.Some? <==> status == AuthorizedWhenInUse
    ensures r.Some? ==> r.value == RequestLocation
  {
    if status == AuthorizedWhenInUse then Some(RequestLocation) else None
  }

  /** The state invariant under synchronous clients: the remembered connectivity is the
      published one; offline there are no results; online with a known location the results
      are exactly what the weather client answers for it. */
  ghost predicate Consistent(client: WeatherClient, s: AppState) {
    && (s.lastConnectivity.Some? ==> s.lastConnectivity.value == s.isConnected)
    && (!s.isConnected ==> s.weatherResults == [])
    && (s.isConnected && s.currentLocation.Some? ==>
          s.weatherResults == ForecastFor(client, s.currentLocation.value.woeid))
  }

  lemma PathUpdateKeepsConsistent(client: WeatherClient, s: AppState, path: NetworkPath)
    requires Consistent(client, s)
    ensures Consistent(client, OnPathUpdate(client, s, path).state)
  {
  }

  lemma DelegateEventKeepsConsistent(client: WeatherClient, s: AppState, e: DelegateEvent)
    requires Consistent(client, s)
    ensures Consistent(client, OnDelegateEvent(client, s, e).state)
  {
  }
}

# Weather feature: connectivity, location and weather orchestration

A Dafny model of `AppViewModel`, the view model of the weather app's feature package, and of
the three mock location clients it is tested with.

The view model publishes three fields: `isConnected`, `currentLocation` and `weatherResults`.
It subscribes to a path monitor, which publishes connectivity. It also subscribes to a location
client's delegate events. In reaction it calls an injected weather client, which fetches a
forecast for a place id and searches places near a coordinate. It also calls the location
client, which requests authorization or a position.

The model makes each handler a pure function. A handler maps the state and one event to a
`Reaction`: the new state plus the requests issued to the clients, in order. The weather client
is a pair of total functions returning `Option`, where `None` means the publisher failed. Its
answers are applied at once, as in the tests.

The mock location clients form a second small state machine. Each holds the authorization
status it reports and emits events in answer to a request. `Composition` wires the two
together the way the tests do. A request on the mock runs at once. The events the mock sends
are fed back into the view model's delegate handler before the request returns. `World` holds
the view model state, the mock, and a log of every request issued. `Step` consumes one
outside input: a path update or a tap on the location button. `Start` is the constructor.

Modules:
- `Options`: optionals and `first`.
- `CoreLocation`: authorization status, coordinates, locations.
- `WeatherClientInterface`, `PathMonitorClientInterface`, `LocationClientInterface`: the client
  value types.
- `LocationClientMocks`: the three mocks.
- `WeatherFeature`: the view model.
- `Composition`: synchronous wiring.
- `WorldProperties`: the invariant and the closed forms of the fed-back requests.
- `WeatherFeatureScenarios`: the feature's test cases, proved for every client that finds a place.

## Model

| member | source | states |
|---|---|---|
| Options.First | WeatherFeature/Sources/WeatherFeature/ContentView.swift:55 | `first` is `nil` exactly for an empty list, and otherwise the head |
| LocationClientMocks.NewNotDetermined | LocationClient/Sources/LocationClient/Mocks.swift:17-18 | a fresh `notDetermined` mock reports `notDetermined` |
| LocationClientMocks.NewNotDeterminedDenied | LocationClient/Sources/LocationClient/Mocks.swift:31-32 | a fresh `notDeterminedDenied` mock reports `notDetermined` |
| LocationClientMocks.OnRequestLocation | LocationClient/Sources/LocationClient/Mocks.swift:10 | in every mock (lines 10, 21 and 35 are the same closure), `requestLocation` emits exactly one `didUpdateLocations` carrying exactly one location, and it never changes the instance or its status |
| LocationClientMocks.OnRequestWhenInUseAuthorization | LocationClient/Sources/LocationClient/Mocks.swift:11-40 | the `authorizedWhenInUse` mock ignores the request and emits nothing. `notDetermined` moves to `authorizedWhenInUse`, and `notDeterminedDenied` moves to `denied`. Each emits one status change. Afterwards `authorizationStatus()` returns the status that every emitted event carries |
| LocationClientMocks.HandleKeepsReachable | LocationClient/Sources/LocationClient/Mocks.swift:18-40 | no request takes a mock outside its reachable statuses: undetermined or granted for `notDetermined`, undetermined or denied for `notDeterminedDenied`. A mock never turns into another kind of mock |
| LocationClientMocks.Make | LocationClient/Sources/LocationClient/Mocks.swift:17-19 | a factory call creates an instance under an identity no earlier instance has, with its own status and subject. Existing instances are untouched |
| LocationClientMocks.RequestOn | LocationClient/Sources/LocationClient/Mocks.swift:20-27 | a request through one instance moves that instance's status as the mock prescribes and sends its events on that instance's subject only. Every other identity keeps its state. Holders of the same identity (copies of one instance) see the change |
| LocationClientMocks.FactoryInstancesIndependent | LocationClient/Sources/LocationClient/Mocks.swift:31-33 | two factory calls give two distinct instances. A request through either leaves the other's status unchanged and sends nothing on the other's subject |
| LocationClientMocks.FactoriesFromEmptyStore | LocationClient/Sources/LocationClient/Mocks.swift:7-42 | the three factories called in turn give instances that each report their own status. A grant on the `notDetermined` instance leaves the `notDeterminedDenied` instance undetermined |
| WeatherFeature.RefreshWeather | WeatherFeature/Sources/WeatherFeature/ContentView.swift:72-79 | with no current location, nothing changes and no request is made. Otherwise there is exactly one weather request, for the location's `woeid`. The results become the response's days, or stay empty on failure. Connectivity and location are untouched |
| WeatherFeature.OnPathUpdate | WeatherFeature/Sources/WeatherFeature/ContentView.swift:31-42 | a value equal to the last one let through changes nothing and asks nothing. Any other value passes, and the first emission always passes, even when it equals the default `true`. A passing value sets `isConnected` to whether the status is satisfied and keeps the location. Going offline empties the results with no request. Going online refreshes the known location's forecast, if any |
| WeatherFeature.OnSearchResult | WeatherFeature/Sources/WeatherFeature/ContentView.swift:58-61 | the current location becomes the first place found, or `nil` for an empty list, and the weather is refreshed for it. An empty list therefore keeps the results that were shown |
| WeatherFeature.OnDelegateEvent | WeatherFeature/Sources/WeatherFeature/ContentView.swift:44-65 | an authorization change never touches the state. It issues `requestLocation` exactly for the two authorized statuses. A failure changes nothing. A location update while offline or with no locations changes nothing and searches nothing. Otherwise it searches the first coordinate, and on an answer it acts as the search sink. A location update never issues a request to the location client |
| WeatherFeature.LocationButtonTapped | WeatherFeature/Sources/WeatherFeature/ContentView.swift:81-89 | requests authorization if and only if the status is `notDetermined`. Requests a position if and only if the status is authorized. Does nothing if and only if the status is restricted or denied |
| WeatherFeature.EagerRequest | WeatherFeature/Sources/WeatherFeature/ContentView.swift:67-69 | construction requests a position if and only if the status is exactly `authorizedWhenInUse`. `authorizedAlways` does not trigger it |
| WeatherFeature.PathUpdateKeepsConsistent | WeatherFeature/Sources/WeatherFeature/ContentView.swift:31-42 | a connectivity update keeps the invariant. The invariant: the remembered value is the published one, there are no results offline, and online at a known place the results are that place's forecast |
| WeatherFeature.DelegateEventKeepsConsistent | WeatherFeature/Sources/WeatherFeature/ContentView.swift:44-65 | every delegate event keeps the same invariant |
| WorldProperties.PerformKeeps | WeatherFeature/Sources/WeatherFeature/ContentView.swift:51 | a location request, with all the events it feeds back and the requests those cause, keeps the invariant and the mock's reachability. The request is logged before anything it sets off |
| WorldProperties.StepKeeps | WeatherFeature/Sources/WeatherFeature/ContentView.swift:31-89 | a path update or a button tap, with everything it sets off, keeps the invariant and only appends to the request log |
| WorldProperties.RunKeeps | WeatherFeature/Sources/WeatherFeature/ContentView.swift:31-89 | any sequence of inputs keeps the invariant and only appends to the log |
| WorldProperties.StartEstablishes | WeatherFeature/Sources/WeatherFeature/ContentView.swift:23-70 | construction with any initial path emissions and any freshly made mock ends in a state satisfying the invariant |
| WorldProperties.ResultsOnlyWhileConnected | WeatherFeature/Sources/WeatherFeature/ContentView.swift:37-41 | after construction and any inputs, `weatherResults` is non-empty only while `isConnected`. While connected at a known location, it is exactly that location's forecast |
| WorldProperties.DispatchRecordsOnly | WeatherFeature/Sources/WeatherFeature/ContentView.swift:56-78 | weather-client requests are answered where they are made, so passing them on only records them |
| WorldProperties.PerformRequestLocation | LocationClient/Sources/LocationClient/Mocks.swift:10 | `requestLocation` on any mock equals the view model receiving one default location update. The mock stays as it was, and the log gains the request followed by whatever the update issued |
| WorldProperties.PerformAuthorizationGranted | LocationClient/Sources/LocationClient/Mocks.swift:22-25 | on the `notDetermined` mock, an authorization request grants. The delegate hears of it and issues `requestLocation`, with all that follows |
| WorldProperties.PerformAuthorizationDenied | LocationClient/Sources/LocationClient/Mocks.swift:36-39 | on the `notDeterminedDenied` mock, an authorization request denies. The view model state is unchanged and the only request logged is the authorization request |
| WorldProperties.PathsBeforeLocation | WeatherFeature/Sources/WeatherFeature/ContentView.swift:72-73 | while no location is known, path updates make no request and leave the mock alone |
| WorldProperties.StartEagerOnlyWhenInUse | WeatherFeature/Sources/WeatherFeature/ContentView.swift:67-69 | construction issues a request to any client if and only if the status is `authorizedWhenInUse`, and its first request is then `requestLocation`. It always queries the status and subscribes to both publishers, but those are not requests |
| WeatherFeatureScenarios.SatisfiedBeforeLocation | WeatherFeature/Sources/WeatherFeature/ContentView.swift:31-42 | a first "satisfied" emission, before any location, publishes connected with no results and no request |
| WeatherFeatureScenarios.Basics | WeatherFeature/Tests/WeatherFeatureTests/WeatherFeatureTests.swift:46-59 | connected and `authorizedWhenInUse`: construction alone ends at the first place found, with its forecast. The requests are exactly locate, search, fetch |
| WeatherFeatureScenarios.DisconnectedState | WeatherFeature/Tests/WeatherFeatureTests/WeatherFeatureTests.swift:61-71 | disconnected from the start: no location, not connected, no results. The weather client is never called |
| WeatherFeatureScenarios.PathUpdates | WeatherFeature/Tests/WeatherFeatureTests/WeatherFeatureTests.swift:73-100 | "satisfied", then "unsatisfied", then "satisfied" yields populated, then empty with the place kept, then populated again |
| WeatherFeatureScenarios.LocationAuthorization | WeatherFeature/Tests/WeatherFeatureTests/WeatherFeatureTests.swift:102-131 | with the status undetermined, construction shows nothing. One tap grants, locates, searches and shows the forecast |
| WeatherFeatureScenarios.LocationAuthorizationDenied | WeatherFeature/Tests/WeatherFeatureTests/WeatherFeatureTests.swift:134-165 | when authorization is denied, a tap leaves the state unchanged and never issues `requestLocation` |

## Behaviour worth noting

- An empty search answer sets `currentLocation` to `nil`. `refreshWeather` then returns early,
  so results shown for the previous place stay on screen (`OnSearchResult`).
- Going offline clears the results but does not cancel a weather fetch already in flight, so its
  answer would still be applied. With synchronous clients every answer arrives before the next
  event, so `ResultsOnlyWhileConnected` holds anyway.
- The eager request at construction fires only for `authorizedWhenInUse`. An `authorizedAlways`
  status, which is also granted, does not trigger it.
- An authorization change to `notDetermined`, `restricted` or `denied` is ignored. The view model
  has no separate "denied" state.

## Left out

- SwiftUI views, previews and the day-of-week formatter: presentation only.
- The live clients (network session and JSON decoding, the platform location manager, the path
  monitor): operating-system and network I/O.
- Floating-point values (temperatures, dates, coordinates): kept as opaque `real` payloads and
  never computed with.
- Combine scheduling, cancellables, `weak self` and asynchronous delivery. Every client answers
  synchronously, as in the tests, so nothing is ever in flight. A new fetch or search replaces the
  stored cancellable, which cancels the previous request. That superseding is not modelled.
  The force-unwrap of `self` in the delegate sink cannot fail in this setting.
- The error values carried by failures: the sinks ignore completion, so a failure is `None`.
- The weather client is a pure function, so repeated requests for one place get one answer. A
  client that answers differently over time is not modelled.
- The Combine path-monitor mocks `.satisfied` and `.unsatisfied` are not part of this model.
  `Start` takes the emissions the publisher delivers on subscription as a parameter, and later
  emissions arrive as `PathUpdate` inputs.
- Several view models side by side: instance identity is modelled for the mocks (`MockStore`),
  but `Composition` wires one view model to one mock instance.
- `@unknown default` cases: the status and path enumerations are closed here.
- Delegate events that a live location manager would send on its own: the mocks' subjects are
  private, so in `Composition` only the mocks' answers reach the delegate handler. The handler
  itself (`WeatherFeature.OnDelegateEvent`) is stated for every event.

/** The three mock location clients. Each is a tiny state machine: the status its
    `authorizationStatus` closure reports, and the events its private subject emits
    in answer to a request. */
module LocationClientMocks {
  import opened CoreLocation
  import opened LocationClientInterface

  /** A mock instance. The two "not determined" mocks capture a mutable status; the
      "authorized when in use" mock answers a constant. */
  datatype LocationClient =
    | AuthorizedWhenInUseMock
    | NotDeterminedMock(status: AuthorizationStatus)
    | NotDeterminedDeniedMock(status: AuthorizationStatus)

  /** What a request leaves behind: the instance afterwards and the events its subject sent,
      in order. */
  datatype MockReaction = MockReaction(client: LocationClient, emitted: seq<DelegateEvent>)

  /** The `notDetermined` factory: a fresh instance whose status starts undetermined. */
  function NewNotDetermined(): (c: LocationClient)
    ensures c.NotDeterminedMock?
    ensures CurrentAuthorization(c) == NotDetermined
  {
    NotDeterminedMock(NotDetermined)
  }

  /** The `notDeterminedDenied` factory: a fresh instance whose status starts undetermined. */
  function NewNotDeterminedDenied(): (c: LocationClient)
    ensures c.NotDeterminedDeniedMock?
    ensures CurrentAuthorization(c) == NotDetermined
  {
    NotDeterminedDeniedMock(NotDetermined)
  }

  /** The `authorizationStatus` closure. */
  function CurrentAuthorization(c: LocationClient): AuthorizationStatus {
    match c
    case AuthorizedWhenInUseMock => AuthorizedWhenInUse
    case NotDeterminedMock(status) => status
    case NotDeterminedDeniedMock(status) => status
  }

  /** The `requestLocation` closure: every mock sends one location update carrying a single
      default location, and leaves its status alone. */
  function OnRequestLocation(c: LocationClient): (r: MockReaction)
    ensures r.client == c
    ensures CurrentAuthorization(r.client) == CurrentAuthorization(c)
    ensures |r.emitted| == 1
    ensures r.emitted[0].DidUpdateLocations?
    ensures |r.emitted[0].locations| == 1
  {
    MockReaction(c, [DidUpdateLocations([UnknownLocation])])
  }

  /** The `requestWhenInUseAuthorization` closure. */
  function OnRequestWhenInUseAuthorization(c: LocationClient): (r: MockReaction)
    // the "authorized when in use" mock ignores the request and sends nothing
    ensures c.AuthorizedWhenInUseMock? ==> r == MockReaction(c, [])
    // the "not determined" mock becomes authorized and says so
    ensures c.NotDeterminedMock? ==>
      && r.client.NotDeterminedMock?
      && CurrentAuthorization(r.client) == AuthorizedWhenInUse
      && r.emitted == [DidChangeAuthorizationStatus(AuthorizedWhenInUse)]
    // the "not determined, denied" mock becomes denied and says so
    ensures c.NotDeterminedDeniedMock? ==>
      && r.client.NotDeterminedDeniedMock?
      && CurrentAuthorization(r.client) == Denied
      && r.emitted == [DidChangeAuthorizationStatus(Denied)]
    // the status queried afterwards is the one every emitted event carries
    ensures forall i :: 0 <= i < |r.emitted| ==>
      r.emitted[i] == DidChangeAuthorizationStatus(CurrentAuthorization(r.client))
  {
    match c
    case AuthorizedWhenInUseMock => MockReaction(c, [])
    case NotDeterminedMock(_) =>
      var status := AuthorizedWhenInUse;
      MockReaction(NotDeterminedMock(status), [DidChangeAuthorizationStatus(status)])
    case NotDeterminedDeniedMock(_) =>
      var status := Denied;
      MockReaction(NotDeterminedDeniedMock(status), [DidChangeAuthorizationStatus(status)])
  }

  /** Either request, by name. */
  function Handle(c: LocationClient, request: LocationRequest): MockReaction {
    match request
    case RequestLocation => OnRequestLocation(c)
    case RequestWhenInUseAuthorization => OnRequestWhenInUseAuthorization(c)
  }

  /** The statuses a mock can hold once created by its factory: the two "not determined"
      mocks only ever move to their single answer. */
  ghost predicate Reachable(c: LocationClient) {
    match c
    case AuthorizedWhenInUseMock => true
    case NotDeterminedMock(status) => status == NotDetermined || status == AuthorizedWhenInUse
    case NotDeterminedDeniedMock(status) => status == NotDetermined || status == Denied
  }

  /** Requests never take a mock outside its reachable statuses, and never change which mock it is. */
  lemma HandleKeepsReachable(c: LocationClient, request: LocationRequest)
    requires Reachable(c)
    ensures Reachable(Handle(c, request).client)
    ensures Handle(c, request).client.AuthorizedWhenInUseMock? == c.AuthorizedWhenInUseMock?
    ensures Handle(c, request).client.NotDeterminedMock? == c.NotDeterminedMock?
  {
  }

  /** Mock instances by identity. Each factory call captures a fresh status variable and a fresh
      subject; `instances` maps an identity to that instance's current state. Holders of the same
      identity (copies of one instance) share it. */
  datatype MockStore = MockStore(instances: map<nat, LocationClient>, nextId: nat)

  /** The events one instance's subject sent: they reach only that instance's subscribers. */
  datatype Delivery = Delivery(subject: nat, events: seq<DelegateEvent>)

  const EmptyStore: MockStore := MockStore(map[], 0)

  /** Every identity in use was handed out by an earlier factory call. */
  ghost predicate Allocated(store: MockStore) {
    forall id :: id in store.instances ==> id < store.nextId
  }

  /** A factory call: a new instance under an identity no earlier instance has. */
  function Make(store: MockStore, made: LocationClient): (r: (MockStore, nat))
    requires Allocated(store)
    ensures Allocated(r.0)
    ensures r.1 !in store.instances
    ensures r.0.instances.Keys == store.instances.Keys + {r.1}
    ensures r.0.instances[r.1] == made
    ensures forall id :: id in store.instances ==> r.0.instances[id] == store.instances[id]
  {
    (MockStore(store.instances[store.nextId := made], store.nextId + 1), store.nextId)
  }

  /** A request through the instance `id`: its status moves as `Handle` says, and its events go
      out on its own subject only. */
  function RequestOn(store: MockStore, id: nat, request: LocationRequest): (r: (MockStore, Delivery))
    requires id in store.instances
    ensures r.0.nextId == store.nextId
    ensures r.0.instances.Keys == store.instances.Keys
    ensures r.1.subject == id
    ensures CurrentAuthorization(r.0.instances[id]) == CurrentAuthorization(Handle(store.instances[id], request).client)
    ensures r.1.events == Handle(store.instances[id], request).emitted
    ensures forall other :: other in store.instances && other != id ==> r.0.instances[other] == store.instances[other]
  {
    var reaction := Handle(store.instances[id], request);
    (store.(instances := store.instances[id := reaction.client]), Delivery(id, reaction.emitted))
  }

  /** Two factory calls yield two instances. A request through either one leaves the other's
      status unchanged, and sends nothing on the other's subject. */
  lemma FactoryInstancesIndependent(store: MockStore, first: LocationClient, second: LocationClient,
                                    request: LocationRequest)
    requires Allocated(store)
    ensures var (s1, a) := Make(store, first);
      var (s2, b) := Make(s1, second);
      && a != b
      && RequestOn(s2, a, request).0.instances[b] == second
      && RequestOn(s2, a, request).1.subject != b
      && RequestOn(s2, b, request).0.instances[a] == first
      && RequestOn(s2, b, request).1.subject != a
  {
  }

  /** Starting from no instances, the three factories called in turn make three instances that
      each report their own initial status. A grant on the "not determined" one leaves the
      "not determined, denied" one undetermined. */
  lemma FactoriesFromEmptyStore()
    ensures var (s1, a) := Make(EmptyStore, AuthorizedWhenInUseMock);
      var (s2, b) := Make(s1, NewNotDetermined());
      var (s3, c) := Make(s2, NewNotDeterminedDenied());
      var (s4, _) := RequestOn(s3, b, RequestWhenInUseAuthorization);
      && CurrentAuthorization(s4.instances[a]) == AuthorizedWhenInUse
      && CurrentAuthorization(s4.instances[b]) == AuthorizedWhenInUse
      && CurrentAuthorization(s4.instances[c]) == NotDetermined
  {
  }
}

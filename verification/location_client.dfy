/** The location client's interface: its delegate events and its two imperative requests. */
module LocationClientInterface {
  import opened CoreLocation

  /** The error a failed location request carries; the app never looks inside it. */
  datatype LocationError = LocationError(description: string)

  /** `LocationClient.DelegateEvent`. */
  datatype DelegateEvent =
    | DidChangeAuthorizationStatus(status: AuthorizationStatus)
    | DidUpdateLocations(locations: seq<GeoLocation>)
    | DidFailWithError(error: LocationError)

  /** The two fire-and-forget closures of `LocationClient`. */
  datatype LocationRequest = RequestLocation | RequestWhenInUseAuthorization
}

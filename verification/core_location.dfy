/** The platform (CoreLocation) values the clients exchange. Coordinates are opaque payloads. */
module CoreLocation {

  /** `CLAuthorizationStatus`: the five cases the platform reports. */
  datatype AuthorizationStatus =
    | NotDetermined
    | Restricted
    | Denied
    | AuthorizedAlways
    | AuthorizedWhenInUse

  /** True for the two statuses that let the app ask for a position. */
  predicate IsAuthorized(status: AuthorizationStatus) {
    status == AuthorizedAlways || status == AuthorizedWhenInUse
  }

  /** `CLLocationCoordinate2D`. */
  datatype Coordinate = Coordinate(latitude: real, longitude: real)

  /** `CLLocation`, of which the model only needs the coordinate. */
  datatype GeoLocation = GeoLocation(coordinate: Coordinate)

  /** The coordinate of a default-constructed `CLLocation()`. */
  const UnknownCoordinate: Coordinate := Coordinate(0.0, 0.0)

  /** A default-constructed `CLLocation()`, the position every mock reports. */
  const UnknownLocation: GeoLocation := GeoLocation(UnknownCoordinate)
}

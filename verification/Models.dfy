/** The records the service stores (models.py) and the outcome of a call.

    Identifiers are UUID strings that the code only ever compares, so naturals stand
    for them. Money is in cents, average ratings in hundredths. */
module Models {
  datatype Option<+T> = None | Some(value: T)

  type Id = nat

  datatype Role = RIDER | DRIVER

  datatype RideStatus = REQUESTED | MATCHED | IN_PROGRESS | COMPLETED | CANCELLED

  datatype Point = Point(lat: real, lng: real)

  datatype User = User(id: Id, username: string, role: Role, avgRating: Option<nat>, ratingCount: nat)

  datatype Driver = Driver(
    userId: Id, vehicleType: string, licensePlate: string,
    isAvailable: bool, avgRating: Option<nat>, ratingCount: nat)

  datatype Ride = Ride(
    id: Id, rider: Id, driver: Option<Id>, pickup: Point, dropoff: Point, status: RideStatus,
    estimatedFare: Option<nat>, fare: Option<nat>,
    requestedAt: nat, completedAt: Option<nat>, version: nat)

  datatype Rating = Rating(rideId: Id, fromUser: Id, toUser: Id, score: nat)

  /** A signed session token: whose it is and which mode it claims. */
  datatype Token = Token(username: string, role: Role)

  /** What handlers send into the streams of a ride or a driver. Minutes of arrival are a
      function of the two points. */
  datatype Signal =
    | DriverMoved(ride: Id, at: Point, dropoff: Point)
    | DriverEta(ride: Id, at: Point, pickup: Point)
    | StreamClosed(key: Id)

  /** How a call ends: with a saved ride, with nothing to return, refused with an HTTP
      status, or torn down by an unhandled error. */
  datatype Outcome = Granted(ride: Ride) | Finished | Refused(code: nat) | Failed

  /** ACTIVE_RIDE_STATUSES of repositories/ride.py. */
  predicate Active(s: RideStatus) {
    s == REQUESTED || s == MATCHED || s == IN_PROGRESS
  }

  /** _ACTIVE_RIDE_STATUSES of services/driver.py: the ride occupies its driver. */
  predicate Occupying(s: RideStatus) {
    s == MATCHED || s == IN_PROGRESS
  }
}

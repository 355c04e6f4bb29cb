/** The rows of the managed database the route handlers read and write,
    with each table as an immutable map from primary key to row. */
module Tables {
  import opened Common
  import Constants

  type Id = string

  /** A point in time (timestamps are ISO strings in the database). */
  type Time = int

  /** The great-circle distance in km between two (latitude, longitude)
      points; the Haversine formula itself is not part of this model. */
  type Distance = (real, real, real, real) -> real

  datatype User = User(
    id: Id,
    phone: string,
    firstName: Option<string>,
    lastName: Option<string>,
    userType: Option<string>,
    email: Option<string>,
    isVerified: bool)

  datatype Place = Place(address: string, latitude: real, longitude: real)

  datatype RideStatus =
    Requested | Accepted | DriverEnRoute | Arrived | InProgress | Completed | Cancelled

  /** The string stored in the `status` column. */
  function StatusName(st: RideStatus): string {
    match st
    case Requested => "requested"
    case Accepted => "accepted"
    case DriverEnRoute => "driver_en_route"
    case Arrived => "arrived"
    case InProgress => "in_progress"
    case Completed => "completed"
    case Cancelled => "cancelled"
  }

  function ParseStatus(s: string): (r: Option<RideStatus>)
    ensures r.Some? ==> StatusName(r.value) == s
  {
    match s
    case "requested" => Some(Requested)
    case "accepted" => Some(Accepted)
    case "driver_en_route" => Some(DriverEnRoute)
    case "arrived" => Some(Arrived)
    case "in_progress" => Some(InProgress)
    case "completed" => Some(Completed)
    case "cancelled" => Some(Cancelled)
    case _ => None
  }

  /** Status names and parsing are inverse, and the names are exactly the
      RIDE_STATUS values of the constants file. */
  lemma StatusNamesRoundTrip(st: RideStatus, s: string)
    ensures ParseStatus(StatusName(st)) == Some(st)
    ensures StatusName(st) in Constants.RideStatusNames
    ensures ParseStatus(s).Some? <==> s in Constants.RideStatusNames
  {
  }

  datatype Ride = Ride(
    id: Id,
    passengerId: Id,
    driverId: Option<Id>,
    pickup: Place,
    destination: Place,
    fareAmount: real,
    distanceKm: real,
    estimatedDuration: int,
    status: RideStatus,
    startedAt: Option<Time>,
    completedAt: Option<Time>,
    createdAt: Time)

  /** The caller is the ride's passenger or its driver. */
  predicate IsParty(ride: Ride, user: Id) {
    ride.passengerId == user || ride.driverId == Some(user)
  }

  datatype DriverLocation = DriverLocation(
    driverId: Id,
    latitude: real,
    longitude: real,
    heading: Option<real>,
    isOnline: bool,
    lastUpdated: Time)

  datatype Payment = Payment(
    id: Id,
    driverId: Id,
    rideId: Id,
    amount: real,
    commissionRate: real,
    status: string,
    paymentDate: Time)

  datatype Db = Db(
    users: map<Id, User>,
    rides: map<Id, Ride>,
    locations: map<Id, DriverLocation>,
    payments: map<Id, Payment>)

  /** JavaScript truthiness of an optional string: missing or "" is falsy. */
  predicate Present(s: Option<string>) {
    s.Some? && s.value != ""
  }

  /** JavaScript truthiness of an optional number: missing or 0 is falsy. */
  predicate NonZero(x: Option<real>) {
    x.Some? && x.value != 0.0
  }
}

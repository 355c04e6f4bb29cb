/** The driver routes: location upsert, nearby ride requests and accepting
    a ride. Requests are handled one at a time (the read-then-write race of
    accept-ride is outside this sequential model). */
module DriverRoutes {
  import opened Common
  import opened Tables
  import opened Query

  /** POST /location. Latitude and longitude come from a JSON body, so an
      exact 0 is falsy and refused. The upsert writes one row per driver. */
  function UpdateLocation(locations: map<Id, DriverLocation>, caller: Id, latitude: Option<real>, longitude: Option<real>,
                          heading: Option<real>, isOnline: Option<bool>, now: Time): (r: (map<Id, DriverLocation>, Reply<DriverLocation>))
    ensures !NonZero(latitude) || !NonZero(longitude) ==>
      r == (locations, Failure(400, "Latitude and longitude are required"))
    ensures r.1.Success? <==> NonZero(latitude) && NonZero(longitude)
    ensures r.1.Success? ==>
      && r.0 == locations[caller := r.1.data]
      && r.0.Keys == locations.Keys + {caller}
      && r.1.data == DriverLocation(caller, latitude.value, longitude.value, heading, isOnline.GetOr(true), now)
  {
    if !NonZero(latitude) || !NonZero(longitude) then
      (locations, Failure(BadRequest, "Latitude and longitude are required"))
    else
      var row := DriverLocation(caller, latitude.value, longitude.value, heading, isOnline.GetOr(true), now);
      (locations[caller := row], Success(row))
  }

  /** A driver who does not say otherwise comes online. */
  lemma OmittedOnlineMeansOnline(locations: map<Id, DriverLocation>, caller: Id, lat: real, lon: real, now: Time)
    requires lat != 0.0 && lon != 0.0
    ensures var (locations', reply) := UpdateLocation(locations, caller, Some(lat), Some(lon), None, None, now);
      reply.Success? && locations'[caller].isOnline
  {
  }

  const NearbyScanLimit: nat := 20
  const DefaultRadiusKm: real := 5.0

  predicate IsRequested(ride: Ride) {
    ride.status == Requested
  }

  predicate Near(ride: Ride, latitude: real, longitude: real, radius: real, distance: Distance) {
    distance(latitude, longitude, ride.pickup.latitude, ride.pickup.longitude) <= radius
  }

  /** The rows the nearby query scans: the first twenty requested rides in
      the database's order, before any distance check. */
  function FirstRequested(scan: seq<Ride>): (r: seq<Ride>)
    ensures |r| <= NearbyScanLimit
    ensures forall ride :: ride in r ==> ride in scan && IsRequested(ride)
  {
    var requested := Filter(scan, IsRequested);
    assert forall ride :: ride in Limit(requested, NearbyScanLimit) ==> ride in requested;
    Limit(requested, NearbyScanLimit)
  }

  /** GET /nearby-rides. The coordinates are query strings, so only a
      missing or empty value is refused (the string "0" is truthy); None
      stands for those. `scan` is the rides table in the database's order. */
  function NearbyRides(locations: map<Id, DriverLocation>, caller: Id, latitude: Option<real>, longitude: Option<real>,
                       radius: Option<real>, scan: seq<Ride>, distance: Distance): (r: Reply<seq<Ride>>)
    ensures latitude.None? || longitude.None? ==> r == Failure(400, "Latitude and longitude are required")
    ensures latitude.Some? && longitude.Some? && (caller !in locations || !locations[caller].isOnline) ==>
      r == Success([])
    ensures r.Success? ==>
      && |r.data| <= 20
      && Subsequence(r.data, scan)
      && forall i :: 0 <= i < |r.data| ==>
           IsRequested(r.data[i]) && Near(r.data[i], latitude.value, longitude.value, radius.GetOr(5.0), distance)
    ensures r.Success? && caller in locations && locations[caller].isOnline ==>
      forall ride :: ride in r.data <==>
        ride in FirstRequested(scan) && Near(ride, latitude.value, longitude.value, radius.GetOr(5.0), distance)
  {
    if latitude.None? || longitude.None? then Failure(BadRequest, "Latitude and longitude are required")
    else if caller !in locations || !locations[caller].isOnline then
      EmptySubsequence(scan);
      Success([])
    else
      var lat := latitude.value;
      var lon := longitude.value;
      var within := radius.GetOr(DefaultRadiusKm);
      var requested := Limit(Filter(scan, IsRequested), NearbyScanLimit);
      var near := Filter(requested, (ride: Ride) => Near(ride, lat, lon, within, distance));
      FilterIsSubsequence(scan, IsRequested);
      LimitIsSubsequence(Filter(scan, IsRequested), NearbyScanLimit);
      FilterIsSubsequence(requested, (ride: Ride) => Near(ride, lat, lon, within, distance));
      SubsequenceTransitive(requested, Filter(scan, IsRequested), scan);
      SubsequenceTransitive(near, requested, scan);
      assert forall i :: 0 <= i < |requested| ==> IsRequested(requested[i]);
      assert forall i :: 0 <= i < |near| ==> near[i] in requested;
      assert requested == FirstRequested(scan);
      forall ride | ride in near
        ensures Near(ride, lat, lon, within, distance)
      {
        var i :| 0 <= i < |near| && near[i] == ride;
      }
      forall ride | ride in requested && Near(ride, lat, lon, within, distance)
        ensures ride in near
      {
        var i :| 0 <= i < |requested| && requested[i] == ride;
      }
      Success(near)
  }

  /** POST /accept-ride. Only a ride still in `requested` can be taken. */
  function AcceptRide(rides: map<Id, Ride>, caller: Id, rideId: Option<Id>): (r: (map<Id, Ride>, Reply<Ride>))
    ensures !Present(rideId) ==> r == (rides, Failure(400, "Ride ID is required"))
    ensures Present(rideId) && (rideId.value !in rides || rides[rideId.value].status != Requested) ==>
      r == (rides, Failure(404, "Ride not found or already taken"))
    ensures r.1.Success? <==> Present(rideId) && rideId.value in rides && rides[rideId.value].status == Requested
    ensures r.1.Success? ==>
      && r.1.data == rides[rideId.value].(driverId := Some(caller), status := Accepted)
      && r.0 == rides[rideId.value := r.1.data]
  {
    if !Present(rideId) then (rides, Failure(BadRequest, "Ride ID is required"))
    else if rideId.value !in rides || rides[rideId.value].status != Requested then
      (rides, Failure(NotFound, "Ride not found or already taken"))
    else
      var accepted := rides[rideId.value].(driverId := Some(caller), status := Accepted);
      (rides[rideId.value := accepted], Success(accepted))
  }

  /** Requests one after the other: once accepted, a ride cannot be
      accepted again, by the same driver or another. */
  lemma SecondAcceptFails(rides: map<Id, Ride>, first: Id, second: Id, rideId: Id)
    requires AcceptRide(rides, first, Some(rideId)).1.Success?
    ensures var (rides', _) := AcceptRide(rides, first, Some(rideId));
      AcceptRide(rides', second, Some(rideId)) == (rides', Failure(404, "Ride not found or already taken"))
  {
  }

  /** The twenty-row cap applies before the distance check: when every
      scanned ride is close enough, an online driver is offered exactly the
      first twenty requested rides, in the database's order. */
  lemma NearbyRidesWhenAllNear(locations: map<Id, DriverLocation>, caller: Id, lat: real, lon: real,
                               radius: Option<real>, scan: seq<Ride>, distance: Distance)
    requires caller in locations && locations[caller].isOnline
    requires forall i :: 0 <= i < |scan| ==> Near(scan[i], lat, lon, radius.GetOr(5.0), distance)
    ensures NearbyRides(locations, caller, Some(lat), Some(lon), radius, scan, distance)
         == Success(FirstRequested(scan))
  {
    var requested := FirstRequested(scan);
    forall i | 0 <= i < |requested|
      ensures Near(requested[i], lat, lon, radius.GetOr(5.0), distance)
    {
      assert requested[i] in scan;
    }
    FilterKeepsAll(requested, (ride: Ride) => Near(ride, lat, lon, radius.GetOr(5.0), distance));
  }
}

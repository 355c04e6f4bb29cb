/** The ride routes: request a ride, view one, update its status, and the
    caller's ride history. `calculateDistance` is the parameter `distance`
    and the clock the parameter `now`. */
module RideRoutes {
  import opened Common
  import opened Tables
  import opened Query
  import Calculations
  import Constants

  /** Every new ride is priced for an assumed 15 minutes. */
  const AssumedMinutes: int := 15

  /** POST /request. `newId` is the id the database would assign. */
  function RequestRide(rides: map<Id, Ride>, caller: Id, pickup: Option<Place>, destination: Option<Place>,
                       rideType: Option<string>, distance: Distance, newId: Id, now: Time): (r: (map<Id, Ride>, Reply<Ride>))
    requires newId !in rides
    ensures pickup.None? || destination.None? ==>
      r == (rides, Failure(400, "Pickup and destination are required"))
    ensures r.1.Success? ==>
      var ride := r.1.data;
      var km := distance(pickup.value.latitude, pickup.value.longitude,
                         destination.value.latitude, destination.value.longitude);
      && r.0 == rides[newId := ride]
      && ride.id == newId && ride.passengerId == caller && ride.driverId.None?
      && ride.pickup == pickup.value && ride.destination == destination.value
      && ride.status == Requested && ride.estimatedDuration == 15
      && ride.distanceKm == km
      && ride.fareAmount == Calculations.CalculateFare(km, 15.0, rideType)
      && ride.startedAt.None? && ride.completedAt.None? && ride.createdAt == now
    ensures r.1.Success? <==> pickup.Some? && destination.Some?
  {
    if pickup.None? || destination.None? then
      (rides, Failure(BadRequest, "Pickup and destination are required"))
    else
      var p := pickup.value;
      var d := destination.value;
      var km := distance(p.latitude, p.longitude, d.latitude, d.longitude);
      var fare := Calculations.CalculateFare(km, AssumedMinutes as real, rideType);
      var ride := Ride(newId, caller, None, p, d, fare, km, AssumedMinutes, Requested, None, None, now);
      (rides[newId := ride], Success(ride))
  }

  /** A freshly requested standard ride costs at least the 5.00 base fare. */
  lemma RequestedFareAtLeastBase(rides: map<Id, Ride>, caller: Id, p: Place, d: Place,
                                 distance: Distance, newId: Id, now: Time)
    requires newId !in rides && distance(p.latitude, p.longitude, d.latitude, d.longitude) >= 0.0
    ensures RequestRide(rides, caller, Some(p), Some(d), None, distance, newId, now).1.data.fareAmount >= 5.0
  {
    var km := distance(p.latitude, p.longitude, d.latitude, d.longitude);
    Calculations.FareMonotoneInDistance(0.0, km, 15.0, None);
    Calculations.FareMonotoneInDuration(0.0, 0.0, 15.0, None);
    Calculations.FareAtZeroIsBase();
  }

  /** GET /:rideId. */
  function GetRide(rides: map<Id, Ride>, caller: Id, rideId: Id): (r: Reply<Ride>)
    ensures rideId !in rides ==> r == Failure(404, "Ride not found")
    ensures r.Success? <==> rideId in rides && IsParty(rides[rideId], caller)
    ensures r.Success? ==> r.data == rides[rideId]
    ensures rideId in rides && !IsParty(rides[rideId], caller) ==>
      r == Failure(403, "Not authorized to view this ride")
  {
    if rideId !in rides then Failure(NotFound, "Ride not found")
    else if !IsParty(rides[rideId], caller) then Failure(Forbidden, "Not authorized to view this ride")
    else Success(rides[rideId])
  }

  /** The list the status route accepts. */
  const ValidStatuses: seq<string> :=
    ["requested", "accepted", "driver_en_route", "arrived", "in_progress", "completed", "cancelled"]

  /** The route's list is RIDE_STATUS, and it is what ParseStatus reads. */
  lemma ValidStatusesAreRideStatuses(s: string)
    ensures ValidStatuses == Constants.RideStatusNames
    ensures s in ValidStatuses <==> ParseStatus(s).Some?
  {
  }

  /** The fields the update writes: the status, and a start or completion
      time for in_progress and completed. */
  function ApplyStatus(ride: Ride, status: RideStatus, now: Time): (r: Ride)
    ensures r.status == status
    ensures r.startedAt == (if status == InProgress then Some(now) else ride.startedAt)
    ensures r.completedAt == (if status == Completed then Some(now) else ride.completedAt)
    ensures r.(status := ride.status, startedAt := ride.startedAt, completedAt := ride.completedAt) == ride
  {
    if status == InProgress then ride.(status := status, startedAt := Some(now))
    else if status == Completed then ride.(status := status, completedAt := Some(now))
    else ride.(status := status)
  }

  /** PATCH /:rideId/status. */
  function UpdateStatus(rides: map<Id, Ride>, caller: Id, rideId: Id, status: Option<string>, now: Time): (r: (map<Id, Ride>, Reply<Ride>))
    ensures (status.None? || status.value !in ValidStatuses) ==> r == (rides, Failure(400, "Invalid status"))
    ensures status.Some? && status.value in ValidStatuses && rideId !in rides ==>
      r == (rides, Failure(404, "Ride not found"))
    ensures status.Some? && status.value in ValidStatuses && rideId in rides && !IsParty(rides[rideId], caller) ==>
      r == (rides, Failure(403, "Not authorized to update this ride"))
    ensures r.1.Success? <==>
      status.Some? && status.value in ValidStatuses && rideId in rides && IsParty(rides[rideId], caller)
    ensures r.1.Success? ==>
      && ParseStatus(status.value).Some?
      && r.1.data == ApplyStatus(rides[rideId], ParseStatus(status.value).value, now)
      && r.0 == rides[rideId := r.1.data]
    ensures r.1.Failure? ==> r.0 == rides
  {
    if status.None? || status.value !in ValidStatuses then (rides, Failure(BadRequest, "Invalid status"))
    else if rideId !in rides then (rides, Failure(NotFound, "Ride not found"))
    else if !IsParty(rides[rideId], caller) then (rides, Failure(Forbidden, "Not authorized to update this ride"))
    else
      var updated := ApplyStatus(rides[rideId], ParseStatus(status.value).value, now);
      (rides[rideId := updated], Success(updated))
  }

  /** No transition order is enforced: a party can move a ride from any
      status to any status, even back to requested after completion. */
  lemma AnyTransitionAllowed(rides: map<Id, Ride>, caller: Id, rideId: Id, from: RideStatus, to: RideStatus, now: Time)
    requires rideId in rides && IsParty(rides[rideId], caller) && rides[rideId].status == from
    ensures var (rides', reply) := UpdateStatus(rides, caller, rideId, Some(StatusName(to)), now);
      reply.Success? && rides'[rideId].status == to
  {
    StatusNamesRoundTrip(to, StatusName(to));
  }

  const HistoryLimit: nat := 50

  predicate NewestFirst(rows: seq<Ride>) {
    forall i, j :: 0 <= i < j < |rows| ==> rows[i].createdAt >= rows[j].createdAt
  }

  predicate CreatedNoLater(a: Ride, b: Ride) {
    a.createdAt >= b.createdAt
  }

  /** GET /user/:userId. `ordered` is the rides table as the database sorts
      it by `created_at`, newest first. */
  function History(caller: Id, userId: Id, ordered: seq<Ride>): (r: Reply<seq<Ride>>)
    ensures userId != caller ==> r == Failure(403, "Not authorized")
    ensures userId == caller ==> r.Success?
    ensures r.Success? ==>
      && |r.data| <= 50
      && (forall i :: 0 <= i < |r.data| ==> IsParty(r.data[i], caller))
      && Subsequence(r.data, ordered)
      && (|r.data| < 50 ==> forall i :: 0 <= i < |ordered| && IsParty(ordered[i], caller) ==> ordered[i] in r.data)
    ensures r.Success? ==> r.data == Limit(Filter(ordered, (ride: Ride) => IsParty(ride, caller)), 50)
  {
    if userId != caller then Failure(Forbidden, "Not authorized")
    else
      var mine := Filter(ordered, (ride: Ride) => IsParty(ride, caller));
      var page := Limit(mine, HistoryLimit);
      FilterIsSubsequence(ordered, (ride: Ride) => IsParty(ride, caller));
      LimitIsSubsequence(mine, HistoryLimit);
      SubsequenceTransitive(page, mine, ordered);
      Success(page)
  }

  /** The history is newest first whenever the table listing is. */
  lemma HistoryNewestFirst(caller: Id, ordered: seq<Ride>)
    requires NewestFirst(ordered)
    ensures NewestFirst(History(caller, caller, ordered).data)
  {
    var page := History(caller, caller, ordered).data;
    SubsequenceKeepsOrder(page, ordered, CreatedNoLater);
  }
}

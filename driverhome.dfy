/**
 * The driver's start screen (src/screens/driver/DriverHomeScreen.js): the list of requested
 * rides the driver could accept, and the accept handler.
 */
module DriverHome {
  import opened Outcomes
  import opened Models
  import opened Lists
  import Views

  predicate Open(r: Ride)
  {
    r.status == Requested
  }

  /** response.filter(ride => ride.status === 'requested'). */
  function OpenRides(rides: seq<Ride>): (s: seq<Ride>)
    ensures forall r :: r in s ==> r in rides && r.status == Requested
    ensures forall j :: 0 <= j < |rides| && rides[j].status == Requested ==> rides[j] in s
  {
    Filter(rides, Open)
  }

  /** The list keeps the server's order: the open rides of a concatenation are those of each part. */
  lemma OpenRidesKeepOrder(xs: seq<Ride>, zs: seq<Ride>)
    ensures OpenRides(xs + zs) == OpenRides(xs) + OpenRides(zs)
  {
    FilterAppend(xs, zs, Open);
  }

  /** The list the screen shows a driver is always empty: the backend sends a driver only rides
      already bound to them, and a bound ride is never requested. */
  lemma NothingToAcceptForDrivers(rides: map<int, Ride>, drivers: map<int, Driver>, user: User, listing: seq<Ride>)
    requires Views.AllConsistent(rides) && user.isDriver
    requires forall r :: r in listing ==> r in Views.Queryset(rides, drivers, user).Values
    ensures OpenRides(listing) == []
  {
    var q := Views.Queryset(rides, drivers, user);
    assert forall id :: id in q ==> q[id].driver.Some? && DriverBoundOnlyAfterRequest(q[id]);
    assert forall v :: v in q.Values ==> v.status != Requested;
    assert forall r :: r in listing ==> r.status != Requested;
  }

  /** Where handleAcceptRide leaves the driver: on the ride's detail screen when the accept was
      granted, on this screen otherwise. */
  function AfterAccept(rideId: int, result: Fetch<Ride>): (n: Next)
    ensures result.Loaded? <==> n == NavigateTo("DriverRideDetails", Some(rideId))
    ensures result.Failed? <==> n == Stay
  {
    if result.Loaded? then NavigateTo("DriverRideDetails", Some(rideId)) else Stay
  }

  class DriverHomeScreen {
    var rides: seq<Ride>
    var loading: bool
    var refreshing: bool

    constructor ()
      ensures rides == [] && loading && !refreshing
    {
      rides := [];
      loading := true;
      refreshing := false;
    }

    /** loadRides: shows the requested rides of a fetched list and keeps the old list when the
        fetch fails; both spinners stop in every case. */
    method LoadRides(fetched: Fetch<seq<Ride>>)
      modifies this
      ensures fetched.Loaded? ==> rides == OpenRides(fetched.value)
      ensures fetched.Failed? ==> rides == old(rides)
      ensures !loading && !refreshing
    {
      if fetched.Loaded? {
        rides := OpenRides(fetched.value);
      }
      loading := false;
      refreshing := false;
    }

    /** handleRefresh: raises the pull-to-refresh spinner, then loads. */
    method HandleRefresh(fetched: Fetch<seq<Ride>>)
      modifies this
      ensures fetched.Loaded? ==> rides == OpenRides(fetched.value)
      ensures fetched.Failed? ==> rides == old(rides)
      ensures !loading && !refreshing
    {
      refreshing := true;
      LoadRides(fetched);
    }
  }
}

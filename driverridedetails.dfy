/**
 * The driver's ride screen (src/screens/driver/DriverRideDetailsScreen.js): it loads the
 * driver's rides, shows the one it was opened for, and offers start, complete and cancel
 * according to the ride's status.
 */
module DriverRideDetails {
  import opened Outcomes
  import opened Models
  import opened Lists
  import Views

  /** rides.find(r => r.id === rideId). */
  function FindRide(rides: seq<Ride>, rideId: int): (r: Option<Ride>)
    ensures r.None? <==> forall j :: 0 <= j < |rides| ==> rides[j].id != rideId
    ensures r.Some? ==> r.value in rides && r.value.id == rideId
    ensures r.Some? ==> forall j :: 0 <= j < |rides| && rides[j].id == rideId && rides[j] != r.value ==>
                          exists k :: 0 <= k < j && rides[k] == r.value
  {
    Find(rides, (x: Ride) => x.id == rideId)
  }

  /** The "Începe cursa" button. */
  predicate ShowStart(s: Status)
  {
    s == Accepted
  }

  /** The "Finalizează cursa" button. */
  predicate ShowComplete(s: Status)
  {
    s == InProgress
  }

  /** The "Anulează" button. */
  predicate ShowCancel(s: Status)
  {
    s == Accepted || s == InProgress
  }

  /** The screen offers nothing on a ride that is requested, completed or cancelled, and never
      more than one forward step. */
  lemma ButtonsByStatus(s: Status)
    ensures ShowStart(s) || ShowComplete(s) <==> ShowCancel(s)
    ensures !(ShowStart(s) && ShowComplete(s))
    ensures Terminal(s) || s == Requested <==> !ShowCancel(s)
  {
  }

  /** Every button the screen shows on a ride the driver can see is an action the backend
      grants on that ride; start and complete are offered exactly when the backend grants them. */
  lemma OfferedActionsAreGranted(rides: map<int, Ride>, drivers: map<int, Driver>, user: User, pk: int, now: int)
    requires pk in Views.Queryset(rides, drivers, user)
    ensures ShowStart(rides[pk].status) <==> Views.Outcome(rides, drivers, user, Views.Start, pk, now).Ok?
    ensures ShowComplete(rides[pk].status) <==> Views.Outcome(rides, drivers, user, Views.Complete, pk, now).Ok?
    ensures ShowCancel(rides[pk].status) ==> Views.Outcome(rides, drivers, user, Views.Cancel, pk, now).Ok?
  {
  }

  /** The label of a status key; a key outside the five is shown as it is. */
  function StatusText(w: string): (t: string)
    ensures ParseStatus(w).None? ==> t == w
    ensures ParseStatus(w) == Some(Requested) ==> t == "Solicitată"
    ensures ParseStatus(w) == Some(Accepted) ==> t == "Acceptată"
    ensures ParseStatus(w) == Some(InProgress) ==> t == "În desfășurare"
    ensures ParseStatus(w) == Some(Completed) ==> t == "Finalizată"
    ensures ParseStatus(w) == Some(Cancelled) ==> t == "Anulată"
  {
    if w == "requested" then "Solicitată"
    else if w == "accepted" then "Acceptată"
    else if w == "in_progress" then "În desfășurare"
    else if w == "completed" then "Finalizată"
    else if w == "cancelled" then "Anulată"
    else w
  }

  /** The five statuses get five different labels, none of them a status key. */
  lemma LabelsDistinct(s1: Status, s2: Status)
    ensures s1 != s2 ==> StatusText(Wire(s1)) != StatusText(Wire(s2))
    ensures ParseStatus(StatusText(Wire(s1))).None?
  {
  }

  /** Where a start, complete or cancel handler leaves the screen: a granted start or complete
      reloads the ride, a granted cancel goes back, a refused call stays. */
  function AfterAction(a: Views.RideAction, result: Fetch<Ride>): (n: Next)
    requires a != Views.Accept
    ensures result.Failed? <==> n == Stay
    ensures result.Loaded? && a == Views.Cancel ==> n == GoBack
    ensures result.Loaded? && a != Views.Cancel ==> n == Reload
  {
    match result
    case Failed => Stay
    case Loaded(_) => if a == Views.Cancel then GoBack else Reload
  }

  class DriverRideDetailsScreen {
    const rideId: int
    var ride: Option<Ride>
    var loading: bool

    constructor (rideId: int)
      ensures this.rideId == rideId && ride.None? && loading
    {
      this.rideId := rideId;
      ride := None;
      loading := true;
    }

    /** loadRideDetails: shows the ride with the screen's id, or goes back when the list has
        none; a failed fetch keeps what is shown. Loading ends in every case. */
    method LoadRideDetails(fetched: Fetch<seq<Ride>>) returns (next: Next)
      modifies this
      ensures !loading
      ensures fetched.Loaded? && FindRide(fetched.value, rideId).Some? ==>
                ride == FindRide(fetched.value, rideId) && next == Stay
      ensures fetched.Loaded? && FindRide(fetched.value, rideId).None? ==> ride == old(ride) && next == GoBack
      ensures fetched.Failed? ==> ride == old(ride) && next == Stay
      ensures ride.Some? && ride != old(ride) ==> ride.value.id == rideId
    {
      next := Stay;
      if fetched.Loaded? {
        var current := FindRide(fetched.value, rideId);
        if current.Some? {
          ride := current;
        } else {
          next := GoBack;
        }
      }
      loading := false;
    }
  }
}

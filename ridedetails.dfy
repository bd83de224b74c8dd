/**
 * The client's ride screen (src/screens/client/RideDetailsScreen.js): it loads the client's
 * rides, shows the one it was opened for with its driver, and lets the client cancel it.
 */
module RideDetails {
  import opened Outcomes
  import opened Models
  import DriverRideDetails
  import Views

  /** The cancel button ("Anulează cursa"). */
  predicate ShowCancel(s: Status)
  {
    s == Requested || s == Accepted
  }

  /** The driver section: a driver is bound and the ride is accepted, under way or done. */
  predicate ShowDriver(r: Ride)
  {
    r.driver.Some? && (r.status == Accepted || r.status == InProgress || r.status == Completed)
  }

  /** The guard at the top of handleCancelRide: true when the handler returns at once. */
  predicate CancelIgnored(ride: Option<Ride>)
  {
    ride.None? || ride.value.status == Completed || ride.value.status == Cancelled
  }

  /** The button is shown only on rides the guard lets through, and the guard lets through
      exactly the rides the backend would cancel; the guard is wider than the button, since it
      also lets in-progress rides through. */
  lemma CancelGuardMatchesBackend(ride: Ride, now: int)
    ensures ShowCancel(ride.status) ==> !CancelIgnored(Some(ride))
    ensures !CancelIgnored(Some(ride)) <==> Views.CancelDecision(ride, now).Ok?
    ensures ride.status == InProgress ==> !ShowCancel(ride.status) && !CancelIgnored(Some(ride))
  {
  }

  /** On a ride that keeps the lifecycle invariant the status test only hides the driver of a
      cancelled ride: the section shows exactly when a driver is bound and the ride was not
      cancelled. */
  lemma DriverSectionOnBoundRides(r: Ride)
    requires DriverBoundOnlyAfterRequest(r)
    ensures ShowDriver(r) <==> r.driver.Some? && r.status != Cancelled
  {
  }

  /** The label of a status key; a key outside the five is shown as it is. */
  function StatusText(w: string): (t: string)
    ensures ParseStatus(w).None? ==> t == w
    ensures ParseStatus(w) == Some(Requested) ==> t == "În așteptare"
    ensures ParseStatus(w) == Some(Accepted) ==> t == "Acceptată"
    ensures ParseStatus(w) == Some(InProgress) ==> t == "În desfășurare"
    ensures ParseStatus(w) == Some(Completed) ==> t == "Finalizată"
    ensures ParseStatus(w) == Some(Cancelled) ==> t == "Anulată"
  {
    if w == "requested" then "În așteptare"
    else if w == "accepted" then "Acceptată"
    else if w == "in_progress" then "În desfășurare"
    else if w == "completed" then "Finalizată"
    else if w == "cancelled" then "Anulată"
    else w
  }

  /** The badge colour of a status key; a key outside the five is grey. */
  function StatusColor(w: string): (c: string)
    ensures ParseStatus(w).None? ==> c == "#666"
    ensures ParseStatus(w) == Some(Requested) ==> c == "#ffa000"
    ensures ParseStatus(w) == Some(Accepted) ==> c == "#1976d2"
    ensures ParseStatus(w) == Some(InProgress) || ParseStatus(w) == Some(Completed) ==> c == "#388e3c"
    ensures ParseStatus(w) == Some(Cancelled) ==> c == "#d32f2f"
  {
    if w == "requested" then "#ffa000"
    else if w == "accepted" then "#1976d2"
    else if w == "in_progress" then "#388e3c"
    else if w == "completed" then "#388e3c"
    else if w == "cancelled" then "#d32f2f"
    else "#666"
  }

  /** The client screen calls a requested ride "waiting" where the driver screen says
      "requested"; the other four labels agree. */
  lemma LabelsAgreeWithDriverScreen(s: Status)
    ensures s != Requested <==> StatusText(Wire(s)) == DriverRideDetails.StatusText(Wire(s))
  {
  }

  /** In-progress and completed rides share a badge colour; every other pair of statuses has
      two different colours. */
  lemma ColorsShared(s1: Status, s2: Status)
    ensures StatusColor(Wire(s1)) == StatusColor(Wire(s2)) <==>
            s1 == s2 || (s1 == InProgress && s2 == Completed) || (s1 == Completed && s2 == InProgress)
  {
  }

  class RideDetailsScreen {
    const rideId: int
    var ride: Option<Ride>
    var loading: bool

    constructor (rideId: int)
      ensures this.rideId == rideId && ride.None? && loading
    {
      this.rideId := rideId;
      ride := None;
      loading := true;
    }

    /** loadRideDetails: the same lookup as the driver screen. */
    method LoadRideDetails(fetched: Fetch<seq<Ride>>) returns (next: Next)
      modifies this
      ensures !loading
      ensures fetched.Loaded? && DriverRideDetails.FindRide(fetched.value, rideId).Some? ==>
                ride == DriverRideDetails.FindRide(fetched.value, rideId) && next == Stay
      ensures fetched.Loaded? && DriverRideDetails.FindRide(fetched.value, rideId).None? ==>
                ride == old(ride) && next == GoBack
      ensures fetched.Failed? ==> ride == old(ride) && next == Stay
    {
      next := Stay;
      if fetched.Loaded? {
        var current := DriverRideDetails.FindRide(fetched.value, rideId);
        if current.Some? {
          ride := current;
        } else {
          next := GoBack;
        }
      }
      loading := false;
    }

    /** handleCancelRide, with the confirmation taken as given: None when the guard returns
        at once, otherwise the id of the ride sent to cancel and where the screen goes. */
    method HandleCancelRide(result: Fetch<Ride>) returns (sent: Option<int>, next: Next)
      ensures CancelIgnored(ride) <==> sent.None?
      ensures sent.Some? ==> sent.value == ride.value.id
      ensures sent.None? || result.Failed? ==> next == Stay
      ensures sent.Some? && result.Loaded? ==> next == Reload
    {
      if ride.None? || ride.value.status == Completed || ride.value.status == Cancelled {
        return None, Stay;
      }
      sent := Some(ride.value.id);
      next := if result.Loaded? then Reload else Stay;
    }
  }
}

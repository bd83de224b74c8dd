/**
 * The client's live ride screen (src/screens/client/RideStatusScreen.js): it picks the
 * client's active ride out of the ride list and lets the client cancel it.
 */
module RideStatus {
  import opened Outcomes
  import opened Models
  import opened Lists
  import Views

  /** A status of a ride still under way: requested, accepted or in progress. */
  predicate ActiveStatus(s: Status)
  {
    s == Requested || s == Accepted || s == InProgress
  }

  predicate Active(r: Ride)
  {
    ActiveStatus(r.status)
  }

  /** rides.find(...) over the three active statuses, in server order. */
  function ActiveRide(rides: seq<Ride>): (r: Option<Ride>)
    ensures r.None? <==> forall j :: 0 <= j < |rides| ==> !Active(rides[j])
    ensures r.Some? ==> r.value in rides && Active(r.value)
    ensures r.Some? ==> exists i :: 0 <= i < |rides| && rides[i] == r.value && forall j :: 0 <= j < i ==> !Active(rides[j])
  {
    Find(rides, Active)
  }

  /** The active ride is never finished, and the backend would cancel it. */
  lemma ActiveRideIsCancellable(rides: seq<Ride>, now: int)
    requires ActiveRide(rides).Some?
    ensures !Terminal(ActiveRide(rides).value.status)
    ensures Views.CancelDecision(ActiveRide(rides).value, now).Ok?
  {
    assert Active(ActiveRide(rides).value);
  }

  /** The cancel button ("Anulează cursa"). */
  predicate ShowCancel(s: Status)
  {
    s != InProgress
  }

  /** On an active ride the button shows exactly for requested and accepted rides; it is hidden
      on an in-progress ride the backend would still cancel. */
  lemma CancelButtonOnActiveRide(r: Ride, now: int)
    requires Active(r)
    ensures ShowCancel(r.status) <==> r.status == Requested || r.status == Accepted
    ensures ShowCancel(r.status) ==> Views.CancelDecision(r, now).Ok?
    ensures r.status == InProgress ==> !ShowCancel(r.status) && Views.CancelDecision(r, now).Ok?
  {
  }

  /** The driver panel: shown once the ride has left requested and a driver is bound. */
  predicate ShowDriverPanel(r: Ride)
  {
    r.status != Requested && r.driver.Some?
  }

  /** On a ride that keeps the lifecycle invariant the status test adds nothing: the panel
      shows exactly when a driver is bound. */
  lemma DriverPanelOnBoundRides(r: Ride)
    requires DriverBoundOnlyAfterRequest(r)
    ensures ShowDriverPanel(r) <==> r.driver.Some?
  {
  }

  /** The label of a status key; only the three active statuses have one. */
  function StatusText(w: string): (t: string)
    ensures w != "requested" && w != "accepted" && w != "in_progress" ==> t == w
    ensures w == "requested" ==> t == "În așteptare"
    ensures w == "accepted" ==> t == "Acceptată"
    ensures w == "in_progress" ==> t == "În desfășurare"
  {
    if w == "requested" then "În așteptare"
    else if w == "accepted" then "Acceptată"
    else if w == "in_progress" then "În desfășurare"
    else w
  }

  /** The line under the label; empty for any status that is not active. */
  function StatusDescription(w: string): (t: string)
    ensures t == "" <==> ParseStatus(w).None? || !ActiveStatus(ParseStatus(w).value)
    ensures w == "requested" ==> t == "Așteptăm un șofer să accepte cursa ta..."
    ensures w == "accepted" ==> t == "Șoferul este în drum spre tine!"
    ensures w == "in_progress" ==> t == "Ești în drum spre destinație!"
  {
    if w == "requested" then "Așteptăm un șofer să accepte cursa ta..."
    else if w == "accepted" then "Șoferul este în drum spre tine!"
    else if w == "in_progress" then "Ești în drum spre destinație!"
    else ""
  }

  /** The icon beside the label; a help icon for any status that is not active. */
  function StatusIcon(w: string): (i: string)
    ensures w != "requested" && w != "accepted" && w != "in_progress" ==> i == "help-outline"
    ensures w == "requested" ==> i == "time-outline"
    ensures w == "accepted" ==> i == "car-outline"
    ensures w == "in_progress" ==> i == "navigate-outline"
  {
    if w == "requested" then "time-outline"
    else if w == "accepted" then "car-outline"
    else if w == "in_progress" then "navigate-outline"
    else "help-outline"
  }

  /** The screen only ever shows an active ride, and for it the label, the description and the
      icon are all specific: the pass-through and fallback values never appear. */
  lemma ActiveRideFullyDescribed(r: Ride)
    requires Active(r)
    ensures StatusText(Wire(r.status)) != Wire(r.status)
    ensures StatusDescription(Wire(r.status)) != ""
    ensures StatusIcon(Wire(r.status)) != "help-outline"
  {
  }

  class RideStatusScreen {
    var activeRide: Option<Ride>
    var loading: bool

    constructor ()
      ensures activeRide.None? && loading
    {
      activeRide := None;
      loading := true;
    }

    /** loadActiveRide: the first active ride, or none when no ride is active; a failed fetch
        keeps the ride shown. Loading ends in every case. */
    method LoadActiveRide(fetched: Fetch<seq<Ride>>)
      modifies this
      ensures !loading
      ensures fetched.Loaded? ==> activeRide == ActiveRide(fetched.value)
      ensures fetched.Failed? ==> activeRide == old(activeRide)
      ensures fetched.Loaded? && activeRide.Some? ==> !Terminal(activeRide.value.status)
    {
      if fetched.Loaded? {
        var active := ActiveRide(fetched.value);
        if active.Some? {
          assert Active(active.value);
        }
        activeRide := active;
      }
      loading := false;
    }

    /** handleCancelRide, with the confirmation taken as given: nothing without an active
        ride; otherwise the ride sent to cancel, and a granted cancel opens the request screen. */
    method HandleCancelRide(result: Fetch<Ride>) returns (sent: Option<int>, next: Next)
      ensures activeRide.None? <==> sent.None?
      ensures sent.Some? ==> sent.value == activeRide.value.id
      ensures sent.None? || result.Failed? ==> next == Stay
      ensures sent.Some? && result.Loaded? ==> next == NavigateTo("RequestRide", None)
    {
      if activeRide.None? {
        return None, Stay;
      }
      sent := Some(activeRide.value.id);
      next := if result.Loaded? then NavigateTo("RequestRide", None) else Stay;
    }
  }
}

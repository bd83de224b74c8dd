/**
 * The driver's history screen (src/screens/driver/DriverHistoryScreen.js): the finished rides
 * of the driver, newest first.
 */
module DriverHistory {
  import opened Outcomes
  import opened Models
  import opened Lists
  import DriverRideDetails

  predicate Past(r: Ride)
  {
    r.status == Completed || r.status == Cancelled
  }

  /** Ordered by updated_at, most recent first. */
  predicate NewestFirst(s: seq<Ride>)
  {
    forall i, j :: 0 <= i < j < |s| ==> s[i].updatedAt >= s[j].updatedAt
  }

  /** historyRides.sort((a, b) => b.updated_at - a.updated_at): sorts the array in place,
      most recently updated first, without adding or dropping a ride. */
  method SortByRecency(a: array<Ride>)
    modifies a
    ensures NewestFirst(a[..])
    ensures multiset(a[..]) == multiset(old(a[..]))
  {
    var i := 0;
    while i < a.Length
      invariant 0 <= i <= a.Length
      invariant forall k, l :: 0 <= k < l < i ==> a[k].updatedAt >= a[l].updatedAt
      invariant multiset(a[..]) == multiset(old(a[..]))
    {
      var j := i;
      while j > 0 && a[j - 1].updatedAt < a[j].updatedAt
        invariant 0 <= j <= i
        invariant forall k, l :: 0 <= k < l <= i && k != j && l != j ==> a[k].updatedAt >= a[l].updatedAt
        invariant forall l :: j < l <= i ==> a[j].updatedAt > a[l].updatedAt
        invariant multiset(a[..]) == multiset(old(a[..]))
      {
        SwapAdjacent(a, j);
        j := j - 1;
      }
      i := i + 1;
    }
  }

  /** Exchanges a[j - 1] and a[j], leaving every other element in place. */
  method SwapAdjacent(a: array<Ride>, j: int)
    requires 0 < j < a.Length
    modifies a
    ensures a[j - 1] == old(a[j]) && a[j] == old(a[j - 1])
    ensures forall k :: 0 <= k < a.Length && k != j - 1 && k != j ==> a[k] == old(a[k])
    ensures multiset(a[..]) == multiset(old(a[..]))
  {
    a[j - 1], a[j] := a[j], a[j - 1];
  }

  /** The label of a status key: only the two finished statuses have one. */
  function StatusText(w: string): (t: string)
    ensures w != "completed" && w != "cancelled" ==> t == w
    ensures w == "completed" ==> t == "Finalizată"
    ensures w == "cancelled" ==> t == "Anulată"
  {
    if w == "completed" then "Finalizată"
    else if w == "cancelled" then "Anulată"
    else w
  }

  /** The badge colour of a status key; grey for any status that is not finished. */
  function StatusColor(w: string): (c: string)
    ensures w != "completed" && w != "cancelled" ==> c == "#666"
    ensures w == "completed" ==> c == "#388e3c"
    ensures w == "cancelled" ==> c == "#d32f2f"
  {
    if w == "completed" then "#388e3c"
    else if w == "cancelled" then "#d32f2f"
    else "#666"
  }

  /** A finished ride carries the same label here as on the ride screen, and never the grey
      fallback colour. */
  lemma PastRidesLabelled(r: Ride)
    requires Past(r)
    ensures StatusText(Wire(r.status)) == DriverRideDetails.StatusText(Wire(r.status))
    ensures StatusColor(Wire(r.status)) != "#666"
  {
  }

  class DriverHistoryScreen {
    var rides: seq<Ride>
    var loading: bool
    var refreshing: bool

    constructor ()
      ensures rides == [] && loading && !refreshing
    {
      rides := [];
      loading := true;
      refreshing := false;
    }

    /** loadRides: the completed and cancelled rides of a fetched list, newest first, each as
        many times as it was fetched; a failed fetch keeps the old list. Both spinners stop in
        every case. */
    method LoadRides(fetched: Fetch<seq<Ride>>)
      modifies this
      ensures fetched.Loaded? ==> NewestFirst(rides) && multiset(rides) == multiset(Filter(fetched.value, Past))
      ensures fetched.Loaded? ==> forall r :: r in rides ==> r in fetched.value && Terminal(r.status)
      ensures fetched.Failed? ==> rides == old(rides)
      ensures !loading && !refreshing
    {
      if fetched.Loaded? {
        var historyRides := Filter(fetched.value, Past);
        var a := new Ride[|historyRides|](k requires 0 <= k < |historyRides| => historyRides[k]);
        assert a[..] == historyRides;
        SortByRecency(a);
        rides := a[..];
        forall r | r in rides
          ensures r in fetched.value && Terminal(r.status)
        {
          assert r in multiset(rides);
          assert r in historyRides;
        }
      }
      loading := false;
      refreshing := false;
    }

    /** handleRefresh: raises the pull-to-refresh spinner, then loads. */
    method HandleRefresh(fetched: Fetch<seq<Ride>>)
      modifies this
      ensures fetched.Loaded? ==> NewestFirst(rides) && multiset(rides) == multiset(Filter(fetched.value, Past))
      ensures fetched.Failed? ==> rides == old(rides)
      ensures !loading && !refreshing
    {
      refreshing := true;
      LoadRides(fetched);
    }
  }
}

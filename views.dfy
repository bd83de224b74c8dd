/**
 * The ride and driver endpoints of the backend (api/views.py). The database tables the
 * view sets read and write are the fields of `RideViewSet`; the authenticated caller and
 * the clock are parameters of every request.
 */
module Views {
  import opened Outcomes
  import opened Models
  import opened Serializers

  /** The error responses of the ride actions. */
  datatype ApiError = Forbidden | BadRequest | NotFound

  function HttpStatus(e: ApiError): (code: int)
    ensures 400 <= code < 500
  {
    match e
    case Forbidden => 403
    case BadRequest => 400
    case NotFound => 404
  }

  datatype Response<+T> = Ok(value: T) | Err(error: ApiError)

  datatype RideAction = Accept | Start | Complete | Cancel

  /** Driver.objects.get(user=user), over the driver table keyed by user (the link is one-to-one). */
  function ProfileOf(drivers: map<int, Driver>, user: User): (p: Option<Driver>)
    ensures p.Some? <==> user.id in drivers
    ensures p.Some? ==> p.value == drivers[user.id]
  {
    if user.id in drivers then Some(drivers[user.id]) else None
  }

  /** RideViewSet.get_queryset: the rides the caller may see, and so the only rides any
      action on /rides/{id}/ can find. */
  function Queryset(rides: map<int, Ride>, drivers: map<int, Driver>, user: User): (q: map<int, Ride>)
    ensures forall id :: id in q ==> id in rides && q[id] == rides[id]
    ensures user.isDriver && ProfileOf(drivers, user).None? ==> q == map[]
    ensures user.isDriver && ProfileOf(drivers, user).Some? ==>
      forall id :: id in q <==> id in rides && rides[id].driver == Some(ProfileOf(drivers, user).value.id)
    ensures !user.isDriver ==> forall id :: id in q <==> id in rides && rides[id].client == user.id
  {
    if user.isDriver then
      match ProfileOf(drivers, user)
      case Some(d) => map id | id in rides && rides[id].driver == Some(d.id) :: rides[id]
      case None => map[]
    else
      map id | id in rides && rides[id].client == user.id :: rides[id]
  }

  /** `after` is `before` saved with a new status and nothing else changed but updated_at. */
  predicate StatusOnlySaved(before: Ride, after: Ride, now: int)
  {
    after == before.(status := after.status, updatedAt := now)
  }

  /** accept_ride once get_object has found the ride. */
  function AcceptDecision(user: User, profile: Option<Driver>, ride: Ride, now: int): (r: Response<Ride>)
    ensures r.Ok? <==> user.isDriver && profile.Some? && ride.status == Requested
    ensures !user.isDriver ==> r == Err(Forbidden)
    ensures user.isDriver && r.Err? ==> r.error == BadRequest
    ensures r.Ok? ==> r.value.status == Accepted && r.value.driver == Some(profile.value.id)
    ensures r.Ok? ==> r.value == ride.(status := Accepted, driver := r.value.driver, updatedAt := now)
  {
    if !user.isDriver then Err(Forbidden)
    else if profile.None? then Err(BadRequest)
    else if ride.status != Requested then Err(BadRequest)
    else Ok(ride.(driver := Some(profile.value.id), status := Accepted, updatedAt := now))
  }

  /** start_ride once get_object has found the ride; no role is checked. */
  function StartDecision(ride: Ride, now: int): (r: Response<Ride>)
    ensures r.Ok? <==> ride.status == Accepted
    ensures r.Err? ==> r.error == BadRequest
    ensures r.Ok? ==> r.value.status == InProgress && StatusOnlySaved(ride, r.value, now)
  {
    if ride.status != Accepted then Err(BadRequest)
    else Ok(ride.(status := InProgress, updatedAt := now))
  }

  /** complete_ride once get_object has found the ride; no role is checked. */
  function CompleteDecision(ride: Ride, now: int): (r: Response<Ride>)
    ensures r.Ok? <==> ride.status == InProgress
    ensures r.Err? ==> r.error == BadRequest
    ensures r.Ok? ==> r.value.status == Completed && StatusOnlySaved(ride, r.value, now)
  {
    if ride.status != InProgress then Err(BadRequest)
    else Ok(ride.(status := Completed, updatedAt := now))
  }

  /** cancel_ride once get_object has found the ride: refused only from the two terminal statuses. */
  function CancelDecision(ride: Ride, now: int): (r: Response<Ride>)
    ensures r.Ok? <==> !Terminal(ride.status)
    ensures r.Err? ==> r.error == BadRequest && Terminal(ride.status)
    ensures r.Ok? ==> r.value.status == Cancelled && StatusOnlySaved(ride, r.value, now)
  {
    if ride.status == Completed || ride.status == Cancelled then Err(BadRequest)
    else Ok(ride.(status := Cancelled, updatedAt := now))
  }

  /** The decision of one action on a ride the caller can see. */
  function Decide(a: RideAction, user: User, profile: Option<Driver>, ride: Ride, now: int): Response<Ride>
  {
    match a
    case Accept => AcceptDecision(user, profile, ride, now)
    case Start => StartDecision(ride, now)
    case Complete => CompleteDecision(ride, now)
    case Cancel => CancelDecision(ride, now)
  }

  /** The response to POST /rides/{pk}/<action>/: not found outside the caller's queryset,
      otherwise the action's decision. */
  function Outcome(rides: map<int, Ride>, drivers: map<int, Driver>, user: User,
                                 a: RideAction, pk: int, now: int): (r: Response<Ride>)
    ensures pk !in Queryset(rides, drivers, user) ==> r == Err(NotFound)
    ensures r.Ok? ==> pk in rides && r.value.id == rides[pk].id
  {
    var q := Queryset(rides, drivers, user);
    if pk !in q then Err(NotFound)
    else Decide(a, user, ProfileOf(drivers, user), q[pk], now)
  }

  /** The ride table after a response: a successful action saved its ride, an error saved nothing. */
  function Commit(rides: map<int, Ride>, pk: int, r: Response<Ride>): map<int, Ride>
  {
    if r.Ok? then rides[pk := r.value] else rides
  }

  /** The lifecycle invariant over a whole ride table. */
  ghost predicate AllConsistent(rides: map<int, Ride>)
  {
    forall id :: id in rides ==> DriverBoundOnlyAfterRequest(rides[id])
  }

  /** completed and cancelled are absorbing: every action from them is refused with 400. */
  lemma TerminalIsAbsorbing(a: RideAction, user: User, profile: Option<Driver>, ride: Ride, now: int)
    requires Terminal(ride.status)
    ensures Decide(a, user, profile, ride, now).Err?
    ensures user.isDriver ==> Decide(a, user, profile, ride, now) == Err(BadRequest)
  {
  }

  /** Only accept writes the driver; start, complete and cancel change the status (and the
      save time) alone; and no successful action leaves a ride requested. */
  lemma OnlyAcceptBindsDriver(a: RideAction, user: User, profile: Option<Driver>, ride: Ride, now: int)
    requires Decide(a, user, profile, ride, now).Ok?
    ensures a != Accept ==> StatusOnlySaved(ride, Decide(a, user, profile, ride, now).value, now)
    ensures Decide(a, user, profile, ride, now).value.status != Requested
  {
  }

  /** Every action, successful or not, keeps the lifecycle invariant of the whole table. */
  lemma ActionPreservesInvariant(rides: map<int, Ride>, drivers: map<int, Driver>, user: User,
                                 a: RideAction, pk: int, now: int)
    requires AllConsistent(rides)
    ensures AllConsistent(Commit(rides, pk, Outcome(rides, drivers, user, a, pk, now)))
  {
    var r := Outcome(rides, drivers, user, a, pk, now);
    if r.Ok? {
      var q := Queryset(rides, drivers, user);
      OnlyAcceptBindsDriver(a, user, ProfileOf(drivers, user), q[pk], now);
    }
  }

  /**
   * As written, accept_ride can never succeed on a table that keeps the lifecycle invariant:
   * a driver only finds rides already bound to their own profile, which are past requested;
   * a driver without a profile finds nothing; anyone else is refused with 403.
   */
  lemma AcceptNeverSucceeds(rides: map<int, Ride>, drivers: map<int, Driver>, user: User, pk: int, now: int)
    requires AllConsistent(rides)
    ensures Outcome(rides, drivers, user, Accept, pk, now).Err?
  {
    var q := Queryset(rides, drivers, user);
    if pk in q && user.isDriver && ProfileOf(drivers, user).Some? {
      assert DriverBoundOnlyAfterRequest(rides[pk]);
    }
  }

  /** In particular a requested ride with no driver yet is not found by any driver. */
  lemma UnassignedRideInvisibleToDrivers(rides: map<int, Ride>, drivers: map<int, Driver>, user: User, pk: int)
    requires user.isDriver && pk in rides && rides[pk].driver.None?
    ensures pk !in Queryset(rides, drivers, user)
  {
  }

  /** start_ride and complete_ride check no role: the client of an accepted ride can start it. */
  lemma ClientCanStartOwnRide(rides: map<int, Ride>, drivers: map<int, Driver>, user: User, pk: int, now: int)
    requires !user.isDriver && pk in rides && rides[pk].client == user.id && rides[pk].status == Accepted
    ensures Outcome(rides, drivers, user, Start, pk, now).Ok?
  {
  }

  /** cancel_ride accepts a ride that is already in progress. */
  lemma CancelInProgressSucceeds(ride: Ride, now: int)
    requires ride.status == InProgress
    ensures CancelDecision(ride, now).Ok?
  {
  }

  /** The writable fields of DriverSerializer a PATCH may carry. */
  datatype DriverPatch = DriverPatch(
    licenseNumber: Option<string>,
    carModel: Option<string>,
    carPlate: Option<string>,
    rating: Option<real>,
    isAvailable: Option<bool>)

  /** Whether a text the patch may carry passes its CharField: absent, or valid once trimmed. */
  predicate TextAccepted(t: Option<string>, maxLength: nat)
  {
    t.None? || ValidCharField(t.value, maxLength)
  }

  /** DriverSerializer's validation of a partial update: every text it carries is not blank
      and within its length limit, once trimmed. */
  predicate PatchValid(p: DriverPatch)
  {
    && TextAccepted(p.licenseNumber, LicenseNumberMaxLength)
    && TextAccepted(p.carModel, CarModelMaxLength)
    && TextAccepted(p.carPlate, CarPlateMaxLength)
  }

  /** A blank or whitespace-only licence number, car model or car plate is refused. */
  lemma BlankTextRefused(p: DriverPatch, t: string)
    requires forall i :: 0 <= i < |t| ==> IsSpace(t[i])
    requires p.licenseNumber == Some(t) || p.carModel == Some(t) || p.carPlate == Some(t)
    ensures !PatchValid(p)
  {
  }

  /** The carried text, trimmed as the serializer stores it, or the stored text. */
  function PatchedText(stored: string, t: Option<string>): string
  {
    if t.Some? then Trim(t.value) else stored
  }

  /** A partial update: every field the patch carries replaces the stored one (texts trimmed),
      every other field is kept. */
  function Patched(d: Driver, p: DriverPatch): (e: Driver)
    ensures e.id == d.id && e.user == d.user
    ensures p.licenseNumber.Some? ==> e.licenseNumber == Trim(p.licenseNumber.value)
    ensures p.licenseNumber.None? ==> e.licenseNumber == d.licenseNumber
    ensures p.carModel.Some? ==> e.carModel == Trim(p.carModel.value)
    ensures p.carModel.None? ==> e.carModel == d.carModel
    ensures p.carPlate.Some? ==> e.carPlate == Trim(p.carPlate.value)
    ensures p.carPlate.None? ==> e.carPlate == d.carPlate
    ensures p.rating.Some? ==> e.rating == p.rating.value
    ensures p.rating.None? ==> e.rating == d.rating
    ensures p.isAvailable.Some? ==> e.isAvailable == p.isAvailable.value
    ensures p.isAvailable.None? ==> e.isAvailable == d.isAvailable
  {
    d.(licenseNumber := PatchedText(d.licenseNumber, p.licenseNumber),
       carModel := PatchedText(d.carModel, p.carModel),
       carPlate := PatchedText(d.carPlate, p.carPlate),
       rating := if p.rating.Some? then p.rating.value else d.rating,
       isAvailable := if p.isAvailable.Some? then p.isAvailable.value else d.isAvailable)
  }

  /** An accepted patch stores no blank text and none over its limit. */
  lemma PatchedTextsValid(d: Driver, p: DriverPatch)
    requires PatchValid(p)
    ensures p.licenseNumber.Some? ==> Patched(d, p).licenseNumber != "" && |Patched(d, p).licenseNumber| <= LicenseNumberMaxLength
    ensures p.carModel.Some? ==> Patched(d, p).carModel != "" && |Patched(d, p).carModel| <= CarModelMaxLength
    ensures p.carPlate.Some? ==> Patched(d, p).carPlate != "" && |Patched(d, p).carPlate| <= CarPlateMaxLength
  {
  }

  /** A non-empty set of keys has a member to pick. */
  lemma HasElement(keys: set<int>)
    requires keys != {}
    ensures exists k :: k in keys
  {
    if forall k :: k !in keys {
      assert false;
    }
  }

  /** The serialized list of a queryset: every ride in it, each once, in no fixed order. */
  method Listing(q: map<int, Ride>) returns (s: seq<Ride>)
    ensures |s| == |q|
    ensures forall r :: r in s ==> r in q.Values
    ensures forall id :: id in q ==> q[id] in s
  {
    var left := q.Keys;
    s := [];
    while left != {}
      invariant left <= q.Keys
      invariant |s| + |left| == |q|
      invariant forall r :: r in s ==> r in q.Values
      invariant forall id :: id in q && id !in left ==> q[id] in s
      decreases left
    {
      HasElement(left);
      var k :| k in left;
      s := s + [q[k]];
      left := left - {k};
    }
  }

  class RideViewSet {
    var rides: map<int, Ride>
    /** The driver table, keyed by the user each profile belongs to. */
    var drivers: map<int, Driver>
    var nextId: int

    ghost predicate Valid()
      reads this
    {
      && (forall id :: id in rides ==> rides[id].id == id && id < nextId)
      && (forall u :: u in drivers ==> drivers[u].user == u)
    }

    constructor (drivers: map<int, Driver>)
      requires forall u :: u in drivers ==> drivers[u].user == u
      ensures Valid() && this.rides == map[] && this.drivers == drivers
    {
      this.rides := map[];
      this.drivers := drivers;
      this.nextId := 1;
    }

    /** POST /rides/: validate the body, then save a new ride for the caller. */
    method PerformCreate(user: User, p: RidePayload, now: int) returns (r: Response<Ride>)
      requires Valid()
      modifies this
      ensures Valid() && drivers == old(drivers)
      ensures AllConsistent(old(rides)) ==> AllConsistent(rides)
      ensures RideFieldErrors(p) != {} ==> r == Err(BadRequest) && rides == old(rides) && nextId == old(nextId)
      ensures RideFieldErrors(p) == {} ==>
        && r == Ok(CreatedRide(old(nextId), user.id, p, now))
        && old(nextId) !in old(rides)
        && rides == old(rides)[old(nextId) := r.value]
    {
      if RideFieldErrors(p) != {} {
        return Err(BadRequest);
      }
      var ride := CreatedRide(nextId, user.id, p, now);
      Insert(ride);
      r := Ok(ride);
    }

    /** Saves a new ride under the next free id. */
    method Insert(ride: Ride)
      requires Valid() && ride.id == nextId
      modifies this
      ensures Valid() && drivers == old(drivers)
      ensures old(nextId) !in old(rides) && rides == old(rides)[old(nextId) := ride]
      ensures DriverBoundOnlyAfterRequest(ride) && AllConsistent(old(rides)) ==> AllConsistent(rides)
    {
      rides := rides[nextId := ride];
      nextId := nextId + 1;
    }

    /** GET /rides/: the caller's queryset, in an order the model leaves open. */
    method List(user: User) returns (s: seq<Ride>)
      ensures |s| == |Queryset(rides, drivers, user)|
      ensures forall r :: r in s ==> r in Queryset(rides, drivers, user).Values
      ensures forall id :: id in Queryset(rides, drivers, user) ==> Queryset(rides, drivers, user)[id] in s
    {
      s := Listing(Queryset(rides, drivers, user));
    }

    /** POST /rides/{pk}/accept_ride/. */
    method AcceptRide(user: User, pk: int, now: int) returns (r: Response<Ride>)
      requires Valid()
      modifies this`rides
      ensures Valid()
      ensures r == Outcome(old(rides), drivers, user, Accept, pk, now)
      ensures rides == Commit(old(rides), pk, r)
      ensures AllConsistent(old(rides)) ==> AllConsistent(rides) && r.Err?
    {
      if AllConsistent(rides) {
        ActionPreservesInvariant(rides, drivers, user, Accept, pk, now);
        AcceptNeverSucceeds(rides, drivers, user, pk, now);
      }
      var q := Queryset(rides, drivers, user);
      if pk !in q {
        return Err(NotFound);
      }
      var ride := q[pk];
      if !user.isDriver {
        return Err(Forbidden);
      }
      var profile := ProfileOf(drivers, user);
      if profile.None? {
        return Err(BadRequest);
      }
      if ride.status != Requested {
        return Err(BadRequest);
      }
      ride := ride.(driver := Some(profile.value.id), status := Accepted, updatedAt := now);
      rides := rides[pk := ride];
      r := Ok(ride);
    }

    /** POST /rides/{pk}/start_ride/. */
    method StartRide(user: User, pk: int, now: int) returns (r: Response<Ride>)
      requires Valid()
      modifies this`rides
      ensures Valid()
      ensures r == Outcome(old(rides), drivers, user, Start, pk, now)
      ensures rides == Commit(old(rides), pk, r)
      ensures AllConsistent(old(rides)) ==> AllConsistent(rides)
    {
      if AllConsistent(rides) {
        ActionPreservesInvariant(rides, drivers, user, Start, pk, now);
      }
      var q := Queryset(rides, drivers, user);
      if pk !in q {
        return Err(NotFound);
      }
      var ride := q[pk];
      if ride.status != Accepted {
        return Err(BadRequest);
      }
      ride := ride.(status := InProgress, updatedAt := now);
      rides := rides[pk := ride];
      r := Ok(ride);
    }

    /** POST /rides/{pk}/complete_ride/. */
    method CompleteRide(user: User, pk: int, now: int) returns (r: Response<Ride>)
      requires Valid()
      modifies this`rides
      ensures Valid()
      ensures r == Outcome(old(rides), drivers, user, Complete, pk, now)
      ensures rides == Commit(old(rides), pk, r)
      ensures AllConsistent(old(rides)) ==> AllConsistent(rides)
    {
      if AllConsistent(rides) {
        ActionPreservesInvariant(rides, drivers, user, Complete, pk, now);
      }
      var q := Queryset(rides, drivers, user);
      if pk !in q {
        return Err(NotFound);
      }
      var ride := q[pk];
      if ride.status != InProgress {
        return Err(BadRequest);
      }
      ride := ride.(status := Completed, updatedAt := now);
      rides := rides[pk := ride];
      r := Ok(ride);
    }

    /** POST /rides/{pk}/cancel_ride/. */
    method CancelRide(user: User, pk: int, now: int) returns (r: Response<Ride>)
      requires Valid()
      modifies this`rides
      ensures Valid()
      ensures r == Outcome(old(rides), drivers, user, Cancel, pk, now)
      ensures rides == Commit(old(rides), pk, r)
      ensures AllConsistent(old(rides)) ==> AllConsistent(rides)
    {
      if AllConsistent(rides) {
        ActionPreservesInvariant(rides, drivers, user, Cancel, pk, now);
      }
      var q := Queryset(rides, drivers, user);
      if pk !in q {
        return Err(NotFound);
      }
      var ride := q[pk];
      if ride.status == Completed || ride.status == Cancelled {
        return Err(BadRequest);
      }
      ride := ride.(status := Cancelled, updatedAt := now);
      rides := rides[pk := ride];
      r := Ok(ride);
    }

    /** GET /drivers/me/. */
    method DriverMe(user: User) returns (r: Response<Driver>)
      ensures r.Ok? <==> user.id in drivers
      ensures r.Ok? ==> r.value == drivers[user.id]
      ensures r.Ok? && Valid() ==> r.value.user == user.id
      ensures r.Err? ==> r.error == NotFound
    {
      if user.id !in drivers {
        return Err(NotFound);
      }
      r := Ok(drivers[user.id]);
    }

    /** PATCH /drivers/me/: a partial update of the caller's own profile. */
    method PatchDriverMe(user: User, p: DriverPatch) returns (r: Response<Driver>)
      requires Valid()
      modifies this`drivers
      ensures Valid()
      ensures user.id !in old(drivers) ==> r == Err(NotFound) && drivers == old(drivers)
      ensures user.id in old(drivers) && !PatchValid(p) ==> r == Err(BadRequest) && drivers == old(drivers)
      ensures user.id in old(drivers) && PatchValid(p) ==>
        r == Ok(Patched(old(drivers)[user.id], p)) && drivers == old(drivers)[user.id := r.value]
    {
      if user.id !in drivers {
        return Err(NotFound);
      }
      if !PatchValid(p) {
        return Err(BadRequest);
      }
      var d := Patched(drivers[user.id], p);
      drivers := drivers[user.id := d];
      r := Ok(d);
    }

    /** GET /drivers/available/. */
    function Available(): (s: set<Driver>)
      reads this
      ensures forall d :: d in s ==> d in drivers.Values && d.isAvailable
      ensures forall u :: u in drivers && drivers[u].isAvailable ==> drivers[u] in s
    {
      set u | u in drivers && drivers[u].isAvailable :: drivers[u]
    }
  }
}

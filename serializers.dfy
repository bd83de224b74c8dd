/**
 * The serializers of the backend (api/serializers.py): registration checks and the
 * creation of users and rides from validated request data.
 */
module Serializers {
  import opened Outcomes
  import opened Models

  /** A field of a decoded request body. */
  datatype FieldValue = Text(text: string) | Flag(flag: bool)

  /** A decoded request body, as the dictionary of fields it carries. */
  type Attrs = map<string, FieldValue>

  const PasswordMismatch: string := "Parolele nu se potrivesc."

  datatype Checked = Passed(attrs: Attrs) | Rejected(errors: map<string, string>)

  /** UserRegistrationSerializer.validate. Both password fields are required serializer
      fields, so they are present by the time validate runs. */
  function ValidateRegistration(attrs: Attrs): (r: Checked)
    requires "password" in attrs && "password2" in attrs
    ensures r.Rejected? <==> attrs["password"] != attrs["password2"]
    ensures r.Rejected? ==> r.errors.Keys == {"password"} && r.errors["password"] == PasswordMismatch
    ensures r.Passed? ==> r.attrs == attrs
  {
    if attrs["password"] != attrs["password2"] then Rejected(map["password" := PasswordMismatch])
    else Passed(attrs)
  }

  /** A password field of UserRegistrationSerializer (a required CharField): sent, as text,
      and not blank once trimmed. */
  predicate PasswordFieldOk(attrs: Attrs, key: string)
  {
    key in attrs && attrs[key].Text? && Trim(attrs[key].text) != ""
  }

  /** The field-level validation of the two password fields, which runs before validate:
      None is the 400 for a missing or blank field; otherwise both values are trimmed and
      every other field is handed on as it came. */
  function CleanPasswords(attrs: Attrs): (r: Option<Attrs>)
    ensures r.Some? <==> PasswordFieldOk(attrs, "password") && PasswordFieldOk(attrs, "password2")
    ensures r.Some? ==> r.value.Keys == attrs.Keys
    ensures r.Some? ==> r.value["password"] == Text(Trim(attrs["password"].text))
    ensures r.Some? ==> r.value["password2"] == Text(Trim(attrs["password2"].text))
    ensures r.Some? ==> forall k :: k in attrs && k != "password" && k != "password2" ==> r.value[k] == attrs[k]
  {
    if PasswordFieldOk(attrs, "password") && PasswordFieldOk(attrs, "password2") then
      var password := Text(Trim(attrs["password"].text));
      var password2 := Text(Trim(attrs["password2"].text));
      Some(attrs["password" := password]["password2" := password2])
    else None
  }

  /** The server's verdict on the passwords of a registration body: None for a missing or
      blank field, otherwise validate on the trimmed values, which passes exactly when they
      are equal. */
  function RegistrationPasswords(attrs: Attrs): (r: Option<Checked>)
    ensures r.None? <==> !(PasswordFieldOk(attrs, "password") && PasswordFieldOk(attrs, "password2"))
    ensures r.Some? ==> (r.value.Passed? <==> Trim(attrs["password"].text) == Trim(attrs["password2"].text))
  {
    match CleanPasswords(attrs)
    case None => None
    case Some(cleaned) => Some(ValidateRegistration(cleaned))
  }

  /** UserRegistrationSerializer.create: the keyword arguments handed to user creation,
      which are the validated data without the confirmation field. */
  function UserCreationArgs(validated: Attrs): (args: Attrs)
    requires "password2" in validated
    ensures "password2" !in args
    ensures args.Keys == validated.Keys - {"password2"}
    ensures forall k :: k in args ==> args[k] == validated[k]
  {
    validated - {"password2"}
  }

  /** The text of an optional field, if it was sent as text. */
  function TextArg(args: Attrs, key: string): Option<string>
  {
    if key in args && args[key].Text? then Some(args[key].text) else None
  }

  /** The flag of an optional field, if it was sent as a flag. */
  function FlagArg(args: Attrs, key: string): Option<bool>
  {
    if key in args && args[key].Flag? then Some(args[key].flag) else None
  }

  /** The user that create_user builds from the arguments (the password is hashed and kept
      apart; it is not part of the User record). */
  function CreatedUser(id: int, args: Attrs): (u: User)
    requires TextArg(args, "username").Some?
    ensures u.username == TextArg(args, "username").value
    ensures u.isDriver <==> FlagArg(args, "is_driver") == Some(true)
  {
    NewUser(id, TextArg(args, "username").value, TextArg(args, "email"), TextArg(args, "phone"),
            FlagArg(args, "is_driver"), TextArg(args, "first_name"), TextArg(args, "last_name"))
  }

  /** RideSerializer.create: 5 lei base fare plus 2.5 lei per kilometre. */
  function RidePrice(distanceKm: real): (p: real)
    ensures ValidDistance(distanceKm) ==> p >= 5.25
    ensures distanceKm > 0.0 ==> p > 5.0
  {
    5.0 + distanceKm * 2.5
  }

  /** The price grows strictly with the distance. */
  lemma PriceStrictlyIncreasing(d1: real, d2: real)
    requires d1 < d2
    ensures RidePrice(d1) < RidePrice(d2)
  {
  }

  /** A distance given to one decimal, as the mobile client formats it, gives a price that is a
      whole number of bani (hundredths) and so fits the two-decimal price column while it is
      below a million lei. */
  lemma PriceFitsForTenths(tenths: int)
    requires 1 <= tenths < 399998
    ensures ValidDistance(tenths as real / 10.0)
    ensures PriceFitsField(RidePrice(tenths as real / 10.0))
  {
    var p := RidePrice(tenths as real / 10.0);
    var cents := 500 + 25 * tenths;
    assert p * 100.0 == cents as real;
    assert (cents as real).Floor == cents;
  }

  /**
   * The body of POST /rides/. Every field is optional on the wire; the last six are
   * read-only on RideSerializer (price, status and the timestamps by read_only_fields,
   * client and driver as nested read-only serializers), so a value sent for them is dropped.
   */
  datatype RidePayload = RidePayload(
    pickupLocation: Option<string>,
    pickupLat: Option<real>,
    pickupLng: Option<real>,
    dropoffLocation: Option<string>,
    dropoffLat: Option<real>,
    dropoffLng: Option<real>,
    distanceKm: Option<real>,
    price: Option<real>,
    status: Option<string>,
    client: Option<int>,
    driver: Option<int>,
    createdAt: Option<int>,
    updatedAt: Option<int>)

  /** A required CharField(max_length=255): present, and valid once trimmed. */
  predicate GoodText(t: Option<string>)
  {
    t.Some? && ValidCharField(t.value, CharFieldMaxLength)
  }

  /** The writable fields of RideSerializer that validation can reject. */
  datatype RideField =
    | PickupLocation | PickupLat | PickupLng
    | DropoffLocation | DropoffLat | DropoffLng
    | DistanceKm

  /** Whether the serializer accepts the value the body carries for one field. */
  predicate Accepted(p: RidePayload, f: RideField)
  {
    match f
    case PickupLocation => GoodText(p.pickupLocation)
    case PickupLat => p.pickupLat.Some?
    case PickupLng => p.pickupLng.Some?
    case DropoffLocation => GoodText(p.dropoffLocation)
    case DropoffLat => p.dropoffLat.Some?
    case DropoffLng => p.dropoffLng.Some?
    case DistanceKm => p.distanceKm.Some? && ValidDistance(p.distanceKm.value)
  }

  /** The writable fields the serializer rejects, each for its own reason. */
  function RideFieldErrors(p: RidePayload): (errs: set<RideField>)
    ensures PickupLocation in errs <==> !GoodText(p.pickupLocation)
    ensures PickupLat in errs <==> p.pickupLat.None?
    ensures PickupLng in errs <==> p.pickupLng.None?
    ensures DropoffLocation in errs <==> !GoodText(p.dropoffLocation)
    ensures DropoffLat in errs <==> p.dropoffLat.None?
    ensures DropoffLng in errs <==> p.dropoffLng.None?
    ensures DistanceKm in errs <==> p.distanceKm.None? || !ValidDistance(p.distanceKm.value)
    ensures errs == {} <==>
      && GoodText(p.pickupLocation) && GoodText(p.dropoffLocation)
      && p.pickupLat.Some? && p.pickupLng.Some? && p.dropoffLat.Some? && p.dropoffLng.Some?
      && p.distanceKm.Some? && ValidDistance(p.distanceKm.value)
  {
    set f: RideField | !Accepted(p, f)
  }

  /** An address of nothing but whitespace is refused, whatever else the body holds. */
  lemma BlankAddressRefused(p: RidePayload)
    requires p.pickupLocation.Some? && forall i :: 0 <= i < |p.pickupLocation.value| ==> IsSpace(p.pickupLocation.value[i])
    ensures PickupLocation in RideFieldErrors(p)
  {
  }

  /** The ride that perform_create saves: the sent addresses (trimmed), coordinates and
      distance, the caller as client, the price for that distance, the model defaults for
      status and driver, and both timestamps set to the saving time. */
  function CreatedRide(id: int, client: int, p: RidePayload, now: int): (r: Ride)
    requires RideFieldErrors(p) == {}
    ensures r.pickupLocation == Trim(p.pickupLocation.value) && r.dropoffLocation == Trim(p.dropoffLocation.value)
    ensures r.pickupLocation != "" && |r.pickupLocation| <= CharFieldMaxLength
    ensures r.dropoffLocation != "" && |r.dropoffLocation| <= CharFieldMaxLength
    ensures r.pickupLat == p.pickupLat.value && r.pickupLng == p.pickupLng.value
    ensures r.dropoffLat == p.dropoffLat.value && r.dropoffLng == p.dropoffLng.value
    ensures r.distanceKm == p.distanceKm.value
    ensures r.price == RidePrice(p.distanceKm.value) && r.price >= 5.25
    ensures r.status == DefaultStatus && r.driver.None? && r.client == client
    ensures DriverBoundOnlyAfterRequest(r)
    ensures r.createdAt == now && r.updatedAt == now && r.id == id
  {
    Ride(id, client, None,
         Trim(p.pickupLocation.value), p.pickupLat.value, p.pickupLng.value,
         Trim(p.dropoffLocation.value), p.dropoffLat.value, p.dropoffLng.value,
         p.distanceKm.value, RidePrice(p.distanceKm.value), DefaultStatus, now, now)
  }

  /** Two payloads that differ only in read-only fields create the same ride. */
  lemma ReadOnlyFieldsIgnored(id: int, client: int, p: RidePayload, q: RidePayload, now: int)
    requires RideFieldErrors(p) == {}
    requires q == p.(price := q.price, status := q.status, client := q.client, driver := q.driver,
                     createdAt := q.createdAt, updatedAt := q.updatedAt)
    ensures RideFieldErrors(q) == {}
    ensures CreatedRide(id, client, q, now) == CreatedRide(id, client, p, now)
  {
  }
}

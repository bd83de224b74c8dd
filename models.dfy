/**
 * The records of the backend (api/models.py): users, driver profiles and rides,
 * the five ride statuses with their stored names, and the field constraints.
 */
module Models {
  import opened Outcomes

  /** The five values of Ride.status. */
  datatype Status = Requested | Accepted | InProgress | Completed | Cancelled

  /** The key stored in the status column and sent to the client. */
  function Wire(s: Status): string
  {
    match s
    case Requested => "requested"
    case Accepted => "accepted"
    case InProgress => "in_progress"
    case Completed => "completed"
    case Cancelled => "cancelled"
  }

  /** The status a stored key names, if it is one of the five choices. */
  function ParseStatus(w: string): (r: Option<Status>)
    ensures r.Some? ==> Wire(r.value) == w
  {
    if w == "requested" then Some(Requested)
    else if w == "accepted" then Some(Accepted)
    else if w == "in_progress" then Some(InProgress)
    else if w == "completed" then Some(Completed)
    else if w == "cancelled" then Some(Cancelled)
    else None
  }

  /** Every status is stored under a key that parses back to it, so the choice keys are distinct. */
  lemma ParseWire(s: Status)
    ensures ParseStatus(Wire(s)) == Some(s)
  {
  }

  /** A status no action leads out of. */
  predicate Terminal(s: Status)
  {
    s == Completed || s == Cancelled
  }

  datatype User = User(
    id: int,
    username: string,
    email: string,
    phone: string,
    isDriver: bool,
    firstName: string,
    lastName: string)

  datatype Driver = Driver(
    id: int,
    user: int,
    licenseNumber: string,
    carModel: string,
    carPlate: string,
    rating: real,
    isAvailable: bool)

  /** Timestamps are whole clock ticks; the clock itself is a parameter of every saving operation. */
  datatype Ride = Ride(
    id: int,
    client: int,
    driver: Option<int>,
    pickupLocation: string,
    pickupLat: real,
    pickupLng: real,
    dropoffLocation: string,
    dropoffLat: real,
    dropoffLng: real,
    distanceKm: real,
    price: real,
    status: Status,
    createdAt: int,
    updatedAt: int)

  const DefaultStatus: Status := Requested
  const DefaultRating: real := 5.0
  const MinDistanceKm: real := 0.1
  const PriceMaxDigits: nat := 8
  const PriceDecimalPlaces: nat := 2
  const CharFieldMaxLength: nat := 255

  const LicenseNumberMaxLength: nat := 20
  const CarModelMaxLength: nat := 50
  const CarPlateMaxLength: nat := 10

  /** The whitespace str.strip() removes that the model tells apart: the space, and tab,
      line feed, vertical tab, form feed and carriage return. */
  predicate IsSpace(c: char)
  {
    c == ' ' || '\t' <= c <= '\r'
  }

  /** s without its leading whitespace: a suffix of s. */
  function TrimStart(s: string): (r: string)
    ensures |r| <= |s| && r == s[|s| - |r|..]
    ensures forall i :: 0 <= i < |s| - |r| ==> IsSpace(s[i])
    ensures r != [] ==> !IsSpace(r[0])
  {
    if s != [] && IsSpace(s[0]) then TrimStart(s[1..]) else s
  }

  /** s without its trailing whitespace: a prefix of s. */
  function TrimEnd(s: string): (r: string)
    ensures |r| <= |s| && r == s[..|r|]
    ensures forall i :: |r| <= i < |s| ==> IsSpace(s[i])
    ensures r != [] ==> !IsSpace(r[|r| - 1])
  {
    if s != [] && IsSpace(s[|s| - 1]) then TrimEnd(s[..|s| - 1]) else s
  }

  /** The value a CharField keeps (trim_whitespace is on by default): the text between the
      leading and the trailing whitespace. Empty exactly when the text is all whitespace. */
  function Trim(s: string): (r: string)
    ensures |r| <= |s|
    ensures r == [] <==> forall i :: 0 <= i < |s| ==> IsSpace(s[i])
    ensures r != [] ==> !IsSpace(r[0]) && !IsSpace(r[|r| - 1])
  {
    var t := TrimStart(s);
    var r := TrimEnd(t);
    assert forall i :: |s| - |t| <= i < |s| ==> s[i] == t[i - (|s| - |t|)];
    r
  }

  /** Text with no whitespace at either end is kept as it is. */
  lemma TrimKeepsClean(s: string)
    requires s != [] ==> !IsSpace(s[0]) && !IsSpace(s[|s| - 1])
    ensures Trim(s) == s
  {
  }

  lemma {:induction false} TrimStartSkips(w: string, x: string)
    requires forall i :: 0 <= i < |w| ==> IsSpace(w[i])
    ensures TrimStart(w + x) == TrimStart(x)
  {
    if w == [] {
      assert w + x == x;
    } else {
      assert (w + x)[0] == w[0];
      assert (w + x)[1..] == w[1..] + x;
      TrimStartSkips(w[1..], x);
    }
  }

  lemma {:induction false} TrimEndSkips(x: string, w: string)
    requires forall i :: 0 <= i < |w| ==> IsSpace(w[i])
    ensures TrimEnd(x + w) == TrimEnd(x)
  {
    if w == [] {
      assert x + w == x;
    } else {
      assert (x + w)[|x + w| - 1] == w[|w| - 1];
      assert (x + w)[..|x + w| - 1] == x + w[..|w| - 1];
      TrimEndSkips(x, w[..|w| - 1]);
    }
  }

  lemma {:induction false} TrimStartAppend(s: string, w: string)
    requires exists i :: 0 <= i < |s| && !IsSpace(s[i])
    ensures TrimStart(s + w) == TrimStart(s) + w
  {
    if IsSpace(s[0]) {
      assert (s + w)[1..] == s[1..] + w;
      var i :| 0 <= i < |s| && !IsSpace(s[i]);
      assert !IsSpace(s[1..][i - 1]);
      TrimStartAppend(s[1..], w);
    }
  }

  /** Whitespace around a text does not change what the field keeps: with TrimKeepsClean this
      determines Trim on every input. */
  /** A trailing space is never kept. */
  lemma TrailingSpaceIgnored(s: string)
    ensures Trim(s + " ") == Trim(s)
  {
    assert "" + s + " " == s + " ";
    TrimIgnoresPadding("", s, " ");
  }

  lemma TrimIgnoresPadding(w1: string, s: string, w2: string)
    requires forall i :: 0 <= i < |w1| ==> IsSpace(w1[i])
    requires forall i :: 0 <= i < |w2| ==> IsSpace(w2[i])
    ensures Trim(w1 + s + w2) == Trim(s)
  {
    if forall i :: 0 <= i < |s| ==> IsSpace(s[i]) {
      assert forall i :: 0 <= i < |w1 + s + w2| ==> IsSpace((w1 + s + w2)[i]) by {
        forall i | 0 <= i < |w1 + s + w2|
          ensures IsSpace((w1 + s + w2)[i])
        {
          if i < |w1| {
            assert (w1 + s + w2)[i] == w1[i];
          } else if i < |w1| + |s| {
            assert (w1 + s + w2)[i] == s[i - |w1|];
          } else {
            assert (w1 + s + w2)[i] == w2[i - |w1| - |s|];
          }
        }
      }
    } else {
      assert w1 + s + w2 == w1 + (s + w2);
      TrimStartSkips(w1, s + w2);
      TrimStartAppend(s, w2);
      TrimEndSkips(TrimStart(s), w2);
    }
  }

  /** A CharField value that validation accepts: not blank once trimmed, and within the
      length limit once trimmed. */
  predicate ValidCharField(s: string, maxLength: nat)
  {
    Trim(s) != [] && |Trim(s)| <= maxLength
  }

  /** The MinValueValidator on distance_km. */
  predicate ValidDistance(d: real)
  {
    d >= MinDistanceKm
  }

  /** A value a DecimalField(max_digits=8, decimal_places=2) stores exactly: a whole number of
      hundredths with at most six digits before the point. */
  predicate PriceFitsField(p: real)
  {
    -1000000.0 < p < 1000000.0 && (p * 100.0).Floor as real == p * 100.0
  }

  /** The invariant the ride lifecycle keeps: a driver is bound only once the ride has left requested. */
  predicate DriverBoundOnlyAfterRequest(r: Ride)
  {
    r.driver.Some? ==> r.status != Requested
  }

  /** A new driver profile, with the model's defaults for the fields the caller does not give. */
  function NewDriver(id: int, user: int, licenseNumber: string, carModel: string, carPlate: string): (d: Driver)
    ensures !d.isAvailable && d.rating == DefaultRating
    ensures d.id == id && d.user == user
    ensures d.licenseNumber == licenseNumber && d.carModel == carModel && d.carPlate == carPlate
  {
    Driver(id, user, licenseNumber, carModel, carPlate, DefaultRating, false)
  }

  /** A new user: every field the caller leaves out takes the model default (blank text, not a driver). */
  function NewUser(id: int, username: string, email: Option<string>, phone: Option<string>,
                   isDriver: Option<bool>, firstName: Option<string>, lastName: Option<string>): (u: User)
    ensures u.id == id && u.username == username
    ensures u.isDriver <==> isDriver == Some(true)
    ensures u.phone == (if phone.Some? then phone.value else "")
    ensures u.email == (if email.Some? then email.value else "")
  {
    User(id, username,
         if email.Some? then email.value else "",
         if phone.Some? then phone.value else "",
         if isDriver.Some? then isDriver.value else false,
         if firstName.Some? then firstName.value else "",
         if lastName.Some? then lastName.value else "")
  }
}

/**
 * The client's ride request screen (src/screens/client/RequestRideScreen.js): two addresses,
 * a price estimate, and the request itself.
 *
 * The demo distance the screen draws at random is a parameter, and so is the answer of the
 * price call; `calculatePrice` is not exported by the ride API module, so as the app is built
 * that call always throws.
 */
module RequestRide {
  import opened Outcomes
  import opened Models
  import opened Serializers

  const MissingLocations: string := "Te rugăm să completezi ambele locații."
  const PriceFirst: string := "Te rugăm să calculezi prețul înainte de a solicita o cursă."
  const PriceFailed: string := "Nu am putut calcula prețul cursei."
  const RequestSent: string := "Cursa a fost solicitată cu succes! Un șofer va accepta cursa în curând."
  const RequestFailed: string := "Nu am putut solicita cursa. Te rugăm să încerci din nou."

  /** The body handleRequestRide posts: the two addresses, the distance and the price, and no
      coordinates. */
  function RequestPayload(pickup: string, dropoff: string, distance: real, price: real): (p: RidePayload)
    ensures p.pickupLocation == Some(pickup) && p.dropoffLocation == Some(dropoff)
    ensures p.distanceKm == Some(distance) && p.price == Some(price)
    ensures p.pickupLat.None? && p.pickupLng.None? && p.dropoffLat.None? && p.dropoffLng.None?
    ensures p.status.None? && p.client.None? && p.driver.None? && p.createdAt.None? && p.updatedAt.None?
  {
    RidePayload(Some(pickup), None, None, Some(dropoff), None, None, Some(distance), Some(price),
                None, None, None, None, None)
  }

  /** The backend rejects every request the screen can send: the serializer requires the four
      coordinates, which the payload never carries. */
  lemma RequestAlwaysRejected(pickup: string, dropoff: string, distance: real, price: real)
    ensures {PickupLat, PickupLng, DropoffLat, DropoffLng} <= RideFieldErrors(RequestPayload(pickup, dropoff, distance, price))
  {
  }

  /** The request button's disabled flag: while a request is in flight, or before a distance
      and a price are known. */
  predicate RequestDisabled(loading: bool, distance: real, price: real)
  {
    loading || distance == 0.0 || price == 0.0
  }

  class RequestRideScreen {
    var pickupLocation: string
    var dropoffLocation: string
    var distance: real
    var price: real
    var loading: bool
    var calculating: bool

    constructor ()
      ensures pickupLocation == "" && dropoffLocation == ""
      ensures distance == 0.0 && price == 0.0 && !loading && !calculating
    {
      pickupLocation := "";
      dropoffLocation := "";
      distance := 0.0;
      price := 0.0;
      loading := false;
      calculating := false;
    }

    /** The pickup address input (setPickupLocation). */
    method SetPickupLocation(text: string)
      modifies this
      ensures pickupLocation == text && dropoffLocation == old(dropoffLocation)
      ensures distance == old(distance) && price == old(price)
      ensures loading == old(loading) && calculating == old(calculating)
    {
      pickupLocation := text;
    }

    /** The drop-off address input (setDropoffLocation). */
    method SetDropoffLocation(text: string)
      modifies this
      ensures dropoffLocation == text && pickupLocation == old(pickupLocation)
      ensures distance == old(distance) && price == old(price)
      ensures loading == old(loading) && calculating == old(calculating)
    {
      dropoffLocation := text;
    }

    /** handleCalculatePrice: with an address missing, only an alert; otherwise the demo
        distance is shown before the price is asked for, and a price that comes back is shown;
        a price call that throws raises the error alert. */
    method HandleCalculatePrice(demoDistance: real, quoted: Fetch<real>) returns (alert: Option<string>, wasCalculating: bool)
      modifies this
      ensures pickupLocation == old(pickupLocation) && dropoffLocation == old(dropoffLocation) && loading == old(loading)
      ensures old(pickupLocation) == "" || old(dropoffLocation) == "" ==>
                alert == Some(MissingLocations) && !wasCalculating
                && distance == old(distance) && price == old(price) && calculating == old(calculating)
      ensures old(pickupLocation) != "" && old(dropoffLocation) != "" ==>
                wasCalculating && !calculating && distance == demoDistance
                && price == (if quoted.Loaded? then quoted.value else old(price))
                && alert == (if quoted.Loaded? then None else Some(PriceFailed))
    {
      if pickupLocation == "" || dropoffLocation == "" {
        return Some(MissingLocations), false;
      }
      calculating := true;
      distance := demoDistance;
      wasCalculating := calculating;
      if quoted.Loaded? {
        price := quoted.value;
        alert := None;
      } else {
        alert := Some(PriceFailed);
      }
      calculating := false;
    }

    /** handleRequestRide: with an address, the distance or the price missing, only an alert;
        otherwise the payload is posted; a created ride gets the success alert, whose button
        opens the status screen, and a failed request the error alert. Loading ends in every
        case. */
    method HandleRequestRide(created: Fetch<Ride>) returns (sent: Option<RidePayload>, next: Next, alert: Option<string>)
      modifies this
      ensures pickupLocation == old(pickupLocation) && dropoffLocation == old(dropoffLocation)
      ensures distance == old(distance) && price == old(price) && calculating == old(calculating)
      ensures sent.Some? <==> pickupLocation != "" && dropoffLocation != "" && distance != 0.0 && price != 0.0
      ensures sent.Some? ==> !RequestDisabled(false, distance, price)
      ensures !RequestDisabled(old(loading), distance, price) && pickupLocation != "" && dropoffLocation != "" ==> sent.Some?
      ensures sent.Some? ==> sent.value == RequestPayload(pickupLocation, dropoffLocation, distance, price)
      ensures sent.None? ==> alert == Some(PriceFirst) && next == Stay && loading == old(loading)
      ensures sent.Some? ==> !loading
      ensures sent.Some? ==> alert == Some(if created.Loaded? then RequestSent else RequestFailed)
      ensures sent.Some? ==> (next == NavigateTo("RideStatus", None) <==> created.Loaded?)
      ensures sent.Some? && created.Failed? ==> next == Stay
    {
      if pickupLocation == "" || dropoffLocation == "" || distance == 0.0 || price == 0.0 {
        return None, Stay, Some(PriceFirst);
      }
      loading := true;
      sent := Some(RequestPayload(pickupLocation, dropoffLocation, distance, price));
      next := if created.Loaded? then NavigateTo("RideStatus", None) else Stay;
      alert := Some(if created.Loaded? then RequestSent else RequestFailed);
      loading := false;
    }
  }

  /** As built the price call always throws: from a fresh screen, entering the addresses and
      asking for the price leaves the price at 0 with an error alert, so the request button
      stays disabled. */
  method QuoteFailureKeepsRequestDisabled(pickup: string, dropoff: string, demoDistance: real)
    returns (screen: RequestRideScreen, alert: Option<string>)
    ensures alert == Some(if pickup != "" && dropoff != "" then PriceFailed else MissingLocations)
    ensures screen.price == 0.0 && RequestDisabled(screen.loading, screen.distance, screen.price)
  {
    screen := new RequestRideScreen();
    screen.SetPickupLocation(pickup);
    screen.SetDropoffLocation(dropoff);
    var wasCalculating;
    alert, wasCalculating := screen.HandleCalculatePrice(demoDistance, Failed);
  }
}

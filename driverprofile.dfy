/**
 * The driver's profile screen (src/screens/driver/DriverProfileScreen.js): it loads the
 * caller's driver profile and lets the driver switch availability, optimistically.
 */
module DriverProfile {
  import opened Outcomes
  import opened Models
  import Views

  const ProfilePath: string := "/drivers/me/"

  /** A PATCH request the screen sends. */
  datatype PatchRequest = PatchRequest(path: string, body: Views.DriverPatch)

  /** The PATCH of the availability switch: the one field is_available. */
  function AvailabilityRequest(value: bool): (req: PatchRequest)
    ensures req.path == ProfilePath
    ensures req.body.isAvailable == Some(value)
    ensures req.body.licenseNumber.None? && req.body.carModel.None? && req.body.carPlate.None? && req.body.rating.None?
  {
    PatchRequest(ProfilePath, Views.DriverPatch(None, None, None, None, Some(value)))
  }

  /** The backend accepts the switch's body and changes exactly the availability of the
      profile, to the value the screen already shows. */
  lemma ToggleAppliedByBackend(d: Driver, value: bool)
    ensures Views.PatchValid(AvailabilityRequest(value).body)
    ensures Views.Patched(d, AvailabilityRequest(value).body) == d.(isAvailable := value)
  {
    var e := Views.Patched(d, AvailabilityRequest(value).body);
    assert e.licenseNumber == d.licenseNumber && e.carModel == d.carModel;
    assert e.carPlate == d.carPlate && e.rating == d.rating;
  }

  class DriverProfileScreen {
    var driverProfile: Option<Driver>
    var isAvailable: bool
    var loading: bool

    constructor ()
      ensures driverProfile.None? && !isAvailable && loading
    {
      driverProfile := None;
      isAvailable := false;
      loading := true;
    }

    /** loadDriverProfile: a loaded profile is shown with its availability; a failed load
        leaves the screen as it was. Loading ends in every case. */
    method LoadDriverProfile(fetched: Fetch<Driver>)
      modifies this
      ensures fetched.Loaded? ==> driverProfile == Some(fetched.value) && isAvailable == fetched.value.isAvailable
      ensures fetched.Failed? ==> driverProfile == old(driverProfile) && isAvailable == old(isAvailable)
      ensures !loading
    {
      if fetched.Loaded? {
        driverProfile := Some(fetched.value);
        isAvailable := fetched.value.isAvailable;
      }
      loading := false;
    }

    /** handleAvailabilityToggle: shows the new value, sends it, and on failure shows its
        negation. `shown` is what the switch displays while the request is in flight. */
    method HandleAvailabilityToggle(value: bool, result: Fetch<Driver>) returns (sent: PatchRequest, shown: bool)
      modifies this
      ensures sent == AvailabilityRequest(value) && shown == value
      ensures result.Loaded? ==> isAvailable == value
      ensures result.Failed? ==> isAvailable == !value
      ensures result.Failed? && value == !old(isAvailable) ==> isAvailable == old(isAvailable)
      ensures driverProfile == old(driverProfile) && loading == old(loading)
    {
      isAvailable := value;
      shown := isAvailable;
      sent := AvailabilityRequest(value);
      if result.Failed? {
        isAvailable := !value;
      }
    }
  }
}

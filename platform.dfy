/** The Android services the activity consults, reduced to the values it reads
    from them. Each handler of the activity receives a snapshot of these values
    as parameters; nothing here calls into the platform. */
module Platform {

  datatype Option<+T> = None | Some(value: T)

  /** The location providers LocationManager knows. Only the first two are
      consulted by the activity. */
  datatype Provider = Gps | Network | Passive | Fused

  /** The two runtime permissions the activity asks for. */
  datatype Permission = AccessFineLocation | AccessCoarseLocation

  /** PackageManager.PERMISSION_GRANTED and PERMISSION_DENIED. */
  const PermissionGranted: int := 0
  const PermissionDenied: int := -1

  /** Activity.RESULT_OK. */
  const ResultOk: int := -1

  /** A latitude or longitude reading. Its floating-point value takes part in
      no decision of the activity, so it is left uninterpreted. */
  type Coord(==)

  /** A geocoded address (locality, sub-locality, admin area, country). Only
      its identity matters here. */
  type Address(==)

  /** What the device reports when a handler asks: the enabled providers and
      the permissions the app holds. */
  datatype Device = Device(enabledProviders: set<Provider>, grantedPermissions: set<Permission>)

  /** LocationManager.isProviderEnabled. */
  predicate IsProviderEnabled(d: Device, p: Provider) {
    p in d.enabledProviders
  }

  /** ContextCompat.checkSelfPermission: PERMISSION_GRANTED or PERMISSION_DENIED. */
  function CheckSelfPermission(d: Device, p: Permission): (r: int)
    ensures r == PermissionGranted || r == PermissionDenied
    ensures r == PermissionGranted <==> p in d.grantedPermissions
  {
    if p in d.grantedPermissions then PermissionGranted else PermissionDenied
  }

  /** The last known position as LocationProvider reports it; either
      coordinate may be missing. */
  datatype LocationReading = LocationReading(latitude: Option<Coord>, longitude: Option<Coord>)

  predicate HasFix(reading: LocationReading) {
    reading.latitude.Some? && reading.longitude.Some?
  }

  /** What Geocoder.getFromLocation does: throw IOException, throw
      IllegalArgumentException, return null, or return a list of candidates. */
  datatype GeocoderOutcome =
    | IOException
    | IllegalArgumentException
    | NullList
    | Addresses(candidates: seq<Address>)
}

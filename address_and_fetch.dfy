/** getCurrentAddress and updateUI of MainActivity: what the activity does
    with a location reading, as functions from the platform's answers to the
    effects the activity produces. */
module AddressAndFetch {
  import opened Platform
  import opened Effects

  /** The number of candidates getCurrentAddress asks the geocoder for. */
  const GeocoderMaxResults: int := 7

  /** The address getCurrentAddress returns (null is None) and the effects it
      produces on the way. */
  datatype Lookup = Lookup(address: Option<Address>, effects: seq<Effect>)

  /** The toast getCurrentAddress shows when it finds no address. */
  function NoAddressReason(outcome: GeocoderOutcome): Message {
    match outcome
    case IOException => GeocoderUnavailable
    case IllegalArgumentException => InvalidCoordinates
    case _ => NoAddressFound
  }

  /** getCurrentAddress: asks the geocoder for up to seven candidates and keeps
      the first; both exceptions and a null or empty list yield no address and
      one non-fatal toast. */
  function CurrentAddress(latitude: Coord, longitude: Coord, outcome: GeocoderOutcome): (r: Lookup)
    ensures r.address.Some? <==> outcome.Addresses? && |outcome.candidates| > 0
    ensures r.address.Some? ==> r.address.value == outcome.candidates[0]
    ensures |r.effects| > 0 && r.effects[0] == QueryGeocoder(latitude, longitude, GeocoderMaxResults)
    ensures r.address.Some? ==> |r.effects| == 1
    ensures r.address.None? ==> |r.effects| == 2 && r.effects[1].Toast? && !IsTerminal(r.effects[1].message)
    ensures outcome.IOException? ==> r.effects[1] == Toast(GeocoderUnavailable)
    ensures outcome.IllegalArgumentException? ==> r.effects[1] == Toast(InvalidCoordinates)
    ensures outcome.NullList? || (outcome.Addresses? && |outcome.candidates| == 0) ==>
      r.effects[1] == Toast(NoAddressFound)
    ensures forall k :: 0 <= k < |r.effects| ==> IsUpdateUIEffect(r.effects[k]) && !r.effects[k].FetchAirQuality?
  {
    var query := QueryGeocoder(latitude, longitude, GeocoderMaxResults);
    if outcome.Addresses? && |outcome.candidates| > 0 then
      Lookup(Some(outcome.candidates[0]), [query])
    else
      Lookup(None, [query, Toast(NoAddressReason(outcome))])
  }

  /** updateUI: with both coordinates, look the address up (its query and any
      toast come first), show the address exactly when there is one, and call
      getAirQualityData; otherwise report the missing fix. The call does not
      depend on the address lookup. */
  function UpdateUIEffects(reading: LocationReading, outcome: GeocoderOutcome): (r: seq<Effect>)
    ensures FetchCount(r) == (if HasFix(reading) then 1 else 0)
    ensures HasFix(reading) ==>
      && r[0] == QueryGeocoder(reading.latitude.value, reading.longitude.value, GeocoderMaxResults)
      && r[|r| - 1] == FetchAirQuality(reading.latitude.value, reading.longitude.value)
    ensures !HasFix(reading) ==> r == [Toast(NoCoordinates)]
    ensures forall k :: 0 <= k < |r| ==> IsUpdateUIEffect(r[k])
    ensures HasFix(reading) ==>
      var lookup := CurrentAddress(reading.latitude.value, reading.longitude.value, outcome);
      |lookup.effects| < |r| && r[..|lookup.effects|] == lookup.effects
    ensures HasFix(reading) ==>
      |r| == |CurrentAddress(reading.latitude.value, reading.longitude.value, outcome).effects|
             + (if outcome.Addresses? && |outcome.candidates| > 0 then 2 else 1)
    ensures (exists k :: 0 <= k < |r| && r[k].ShowAddress?) <==>
      HasFix(reading) && outcome.Addresses? && |outcome.candidates| > 0
    ensures forall k :: 0 <= k < |r| && r[k].ShowAddress? ==>
      HasFix(reading) && outcome.Addresses? && |outcome.candidates| > 0 && r[k].address == outcome.candidates[0]
  {
    if HasFix(reading) then
      var latitude, longitude := reading.latitude.value, reading.longitude.value;
      var lookup := CurrentAddress(latitude, longitude, outcome);
      var shown := if lookup.address.Some? then [ShowAddress(lookup.address.value)] else [];
      FetchCountWithoutFetch(lookup.effects + shown);
      FetchCountAppend(lookup.effects + shown, [FetchAirQuality(latitude, longitude)]);
      assert lookup.address.Some? ==> (lookup.effects + shown + [FetchAirQuality(latitude, longitude)])[|lookup.effects|].ShowAddress?;
      lookup.effects + shown + [FetchAirQuality(latitude, longitude)]
    else
      [Toast(NoCoordinates)]
  }
}

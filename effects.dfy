/** The observable effects of the activity's handlers, in the order they
    happen, and the properties of an effect log that the activity keeps. */
module Effects {
  import opened Platform

  /** The toasts the activity shows. The last two end the screen. */
  datatype Message =
    | GeocoderUnavailable
    | InvalidCoordinates
    | NoAddressFound
    | NoCoordinates
    | PermissionRefused
    | LocationServiceUnavailable

  predicate IsTerminal(m: Message) {
    m == PermissionRefused || m == LocationServiceUnavailable
  }

  datatype Effect =
    | ShowSettingsDialog                                        // the "location service off" dialog
    | CancelDialog                                              // dialogInterface.cancel()
    | LaunchLocationSettings                                    // the settings screen is started
    | RequestPermissions(permissions: seq<Permission>, requestCode: int)
    | QueryGeocoder(latitude: Coord, longitude: Coord, maxResults: int)
    | ShowAddress(address: Address)                             // title and subtitle text
    | FetchAirQuality(latitude: Coord, longitude: Coord)        // getAirQualityData is called
    | Toast(message: Message)
    | Finish                                                    // finish() closes the screen

  /** Effects that updateUI and getCurrentAddress produce: they geocode, show,
      fetch and report recoverable problems, and never touch the gate. */
  predicate IsUpdateUIEffect(e: Effect) {
    || e.QueryGeocoder?
    || e.ShowAddress?
    || e.FetchAirQuality?
    || (e.Toast? && !IsTerminal(e.message))
  }

  /** Number of getAirQualityData calls in a log. */
  function FetchCount(log: seq<Effect>): nat {
    if log == [] then 0
    else (if log[0].FetchAirQuality? then 1 else 0) + FetchCount(log[1..])
  }

  lemma {:induction false} FetchCountAppend(a: seq<Effect>, b: seq<Effect>)
    ensures FetchCount(a + b) == FetchCount(a) + FetchCount(b)
  {
    if a == [] {
      assert a + b == b;
    } else {
      assert (a + b)[1..] == a[1..] + b;
      FetchCountAppend(a[1..], b);
    }
  }

  lemma {:induction false} FetchCountWithoutFetch(log: seq<Effect>)
    requires forall k :: 0 <= k < |log| ==> !log[k].FetchAirQuality?
    ensures FetchCount(log) == 0
  {
    if log != [] {
      FetchCountWithoutFetch(log[1..]);
    }
  }

  /** Every finish() comes right after a toast that says why the screen
      closes. */
  ghost predicate FinishAnnounced(log: seq<Effect>) {
    forall i :: 0 <= i < |log| && log[i] == Finish ==>
      0 < i && log[i - 1].Toast? && IsTerminal(log[i - 1].message)
  }

  lemma FinishAnnouncedAppend(a: seq<Effect>, b: seq<Effect>)
    requires FinishAnnounced(a) && FinishAnnounced(b)
    ensures FinishAnnounced(a + b)
  {
    forall i | 0 <= i < |a + b| && (a + b)[i] == Finish
      ensures 0 < i && (a + b)[i - 1].Toast? && IsTerminal((a + b)[i - 1].message)
    {
      if i >= |a| {
        assert b[i - |a|] == Finish;
        assert (a + b)[i - 1] == b[i - |a| - 1];
      }
    }
  }
}

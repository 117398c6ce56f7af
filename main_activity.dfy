/** MainActivity as an object: one method per handler, each doing what the
    activity's code does step by step and proved to agree with the gate's step
    function for that callback. The activity's visible behaviour is the log of
    effects it has produced. */
module Activity {
  import opened Platform
  import opened Effects
  import opened AddressAndFetch
  import opened Gate

  /** The settings screen is only ever launched after the dialog that offers
      it has been shown. */
  ghost predicate LaunchesAfterDialog(log: seq<Effect>) {
    forall i :: 0 <= i < |log| && log[i] == LaunchLocationSettings ==> ShowSettingsDialog in log[..i]
  }

  lemma LaunchesAfterDialogAppend(a: seq<Effect>, b: seq<Effect>)
    requires LaunchesAfterDialog(a)
    requires LaunchLocationSettings in b ==> ShowSettingsDialog in a
    ensures LaunchesAfterDialog(a + b)
  {
    forall i | 0 <= i < |a + b| && (a + b)[i] == LaunchLocationSettings
      ensures ShowSettingsDialog in (a + b)[..i]
    {
      if i < |a| {
        assert (a + b)[..i] == a[..i];
      } else {
        assert b[i - |a|] == LaunchLocationSettings;
        var j :| 0 <= j < |a| && a[j] == ShowSettingsDialog;
        assert (a + b)[..i][j] == ShowSettingsDialog;
      }
    }
  }

  /** The loop of onRequestPermissionsResult: walk the grant array and stop at
      the first entry that is not PERMISSION_GRANTED. */
  method ScanGrantResults(grantResults: array<int>) returns (checkResult: bool)
    ensures checkResult <==> AllGranted(grantResults[..])
  {
    checkResult := true;
    var i := 0;
    while i < grantResults.Length
      invariant 0 <= i <= grantResults.Length
      invariant checkResult
      invariant forall k :: 0 <= k < i ==> grantResults[k] == PermissionGranted
    {
      if grantResults[i] != PermissionGranted {
        checkResult := false;
        break;
      }
      i := i + 1;
    }
  }

  class MainActivity {
    /** Everything the activity has done, in order. */
    var log: seq<Effect>
    /** Which callback the activity is waiting for. */
    ghost var gate: GateState
    /** Whether the lateinit getGPSPermissionLauncher has been assigned. */
    var settingsLauncherRegistered: bool

    ghost predicate Valid()
      reads this
    {
      && FinishAnnounced(log)
      && RequestsWellFormed(log)
      && LaunchesAfterDialog(log)
      && (gate == Denied ==> |log| > 0 && log[|log| - 1] == Finish)
      && (settingsLauncherRegistered <==> ShowSettingsDialog in log)
      && (gate == AwaitingDialogChoice || gate == AwaitingSettingsReturn ==> settingsLauncherRegistered)
    }

    constructor ()
      ensures Valid()
      ensures log == [] && gate == Unchecked && !settingsLauncherRegistered
    {
      log := [];
      gate := Unchecked;
      settingsLauncherRegistered := false;
    }

    /** Appending the effects of a callback keeps the log's invariants. */
    method Emit(effects: seq<Effect>)
      requires FinishAnnounced(log) && RequestsWellFormed(log) && LaunchesAfterDialog(log)
      requires FinishAnnounced(effects) && RequestsWellFormed(effects)
      requires LaunchLocationSettings in effects ==> ShowSettingsDialog in log
      modifies this`log
      ensures log == old(log) + effects
      ensures FinishAnnounced(log) && RequestsWellFormed(log) && LaunchesAfterDialog(log)
    {
      FinishAnnouncedAppend(log, effects);
      RequestsWellFormedAppend(log, effects);
      LaunchesAfterDialogAppend(log, effects);
      log := log + effects;
    }

    method OnCreate(d: Device, reading: LocationReading, geocoder: GeocoderOutcome)
      requires Valid()
      modifies this
      ensures Valid()
      ensures gate == CreateStep(d, reading, geocoder).next
      ensures log == old(log) + CreateStep(d, reading, geocoder).effects
      ensures settingsLauncherRegistered == (old(settingsLauncherRegistered) || !IsLocationServiceAvailable(d))
    {
      CheckAllPermissions(d);
      UpdateUI(reading, geocoder);
    }

    /** Only reached once the gate has decided; it never closes the screen. */
    method UpdateUI(reading: LocationReading, geocoder: GeocoderOutcome)
      requires Valid() && gate != Denied
      modifies this`log
      ensures Valid()
      ensures log == old(log) + UpdateUIEffects(reading, geocoder)
    {
      ghost var before := log;
      if reading.latitude.Some? && reading.longitude.Some? {
        var latitude, longitude := reading.latitude.value, reading.longitude.value;
        var address := GetCurrentAddress(latitude, longitude, geocoder);
        if address.Some? {
          Emit([ShowAddress(address.value)]);
        }
        Emit([FetchAirQuality(latitude, longitude)]);
      } else {
        Emit([Toast(NoCoordinates)]);
      }
      UpdateUIEffectsKeepGate(UpdateUIEffects(reading, geocoder));
      assert log == before + UpdateUIEffects(reading, geocoder);
      assert ShowSettingsDialog in log <==> ShowSettingsDialog in before;
    }

    method GetCurrentAddress(latitude: Coord, longitude: Coord, geocoder: GeocoderOutcome)
      returns (address: Option<Address>)
      requires FinishAnnounced(log) && RequestsWellFormed(log) && LaunchesAfterDialog(log)
      modifies this`log
      ensures FinishAnnounced(log) && RequestsWellFormed(log) && LaunchesAfterDialog(log)
      ensures address == CurrentAddress(latitude, longitude, geocoder).address
      ensures log == old(log) + CurrentAddress(latitude, longitude, geocoder).effects
    {
      var lookup := CurrentAddress(latitude, longitude, geocoder);
      UpdateUIEffectsKeepGate(lookup.effects);
      Emit(lookup.effects);
      address := lookup.address;
    }

    method CheckAllPermissions(d: Device)
      requires Valid()
      modifies this
      ensures Valid()
      ensures gate == CheckAllPermissionsStep(d).next
      ensures log == old(log) + CheckAllPermissionsStep(d).effects
      ensures settingsLauncherRegistered == (old(settingsLauncherRegistered) || !IsLocationServiceAvailable(d))
    {
      if !IsLocationServiceAvailable(d) {
        ShowDialogForLocationServiceSetting();
      } else {
        IsRunTimePermissionsGranted(d);
      }
    }

    method IsRunTimePermissionsGranted(d: Device)
      requires Valid()
      modifies this`log, this`gate
      ensures Valid()
      ensures gate == RunTimePermissionsStep(d).next
      ensures log == old(log) + RunTimePermissionsStep(d).effects
    {
      var hasFineLocationPermission := CheckSelfPermission(d, AccessFineLocation);
      var hasCoarseLocationPermission := CheckSelfPermission(d, AccessCoarseLocation);
      if hasFineLocationPermission != PermissionGranted || hasCoarseLocationPermission != PermissionGranted {
        Emit([RequestPermissions(RequiredPermissions, PermissionsRequestCode)]);
        gate := AwaitingPermissionPrompt;
      } else {
        gate := Granted;
      }
    }

    method OnRequestPermissionsResult(requestCode: int, grantResults: array<int>,
                                      reading: LocationReading, geocoder: GeocoderOutcome)
      requires Valid()
      modifies this`log, this`gate
      ensures Valid()
      ensures gate == PermissionsResultStep(old(gate), requestCode, grantResults[..], reading, geocoder).next
      ensures log == old(log) + PermissionsResultStep(old(gate), requestCode, grantResults[..], reading, geocoder).effects
    {
      if requestCode == PermissionsRequestCode && grantResults.Length == |RequiredPermissions| {
        var checkResult := ScanGrantResults(grantResults);
        if checkResult {
          gate := Granted;
          UpdateUI(reading, geocoder);
        } else {
          Emit([Toast(PermissionRefused), Finish]);
          gate := Denied;
        }
      }
    }

    method ShowDialogForLocationServiceSetting()
      requires Valid()
      modifies this
      ensures Valid()
      ensures gate == ShowDialogStep().next
      ensures log == old(log) + ShowDialogStep().effects
      ensures settingsLauncherRegistered
    {
      settingsLauncherRegistered := true;
      Emit([ShowSettingsDialog]);
      gate := AwaitingDialogChoice;
    }

    /** The result callback registered for the settings screen. */
    method OnSettingsResult(resultCode: int, d: Device)
      requires Valid()
      modifies this`log, this`gate
      ensures Valid()
      ensures gate == SettingsResultStep(old(gate), resultCode, d).next
      ensures log == old(log) + SettingsResultStep(old(gate), resultCode, d).effects
    {
      if resultCode == ResultOk {
        if IsLocationServiceAvailable(d) {
          IsRunTimePermissionsGranted(d);
        } else {
          Emit([Toast(LocationServiceUnavailable), Finish]);
          gate := Denied;
        }
      }
    }

    /** The dialog's "settings" button launches the settings screen through
        the launcher the dialog registered. */
    method OnDialogPositive()
      requires Valid()
      requires settingsLauncherRegistered
      modifies this`log, this`gate
      ensures Valid()
      ensures gate == DialogPositiveStep().next
      ensures log == old(log) + DialogPositiveStep().effects
    {
      Emit([LaunchLocationSettings]);
      gate := AwaitingSettingsReturn;
    }

    /** The dialog's "cancel" button. */
    method OnDialogNegative()
      requires Valid()
      modifies this`log, this`gate
      ensures Valid()
      ensures gate == DialogNegativeStep().next
      ensures log == old(log) + DialogNegativeStep().effects
    {
      Emit([CancelDialog, Toast(LocationServiceUnavailable), Finish]);
      gate := Denied;
    }
  }
}

/** The location-access gate of MainActivity as a state machine: one function
    per callback the activity receives, giving the gate state it moves to and
    the effects it produces, and Run, which delivers callbacks one after the
    other as the main thread does. */
module Gate {
  import opened Platform
  import opened Effects
  import opened AddressAndFetch

  const PermissionsRequestCode: int := 100
  const RequiredPermissions: seq<Permission> := [AccessFineLocation, AccessCoarseLocation]

  /** Which callback the activity is waiting for. The activity keeps no such
      variable; it is implied by the dialog, prompt or screen it has opened. */
  datatype GateState =
    | Unchecked                  // nothing checked yet
    | AwaitingDialogChoice       // the settings dialog is showing
    | AwaitingSettingsReturn     // the system location settings screen is open
    | AwaitingPermissionPrompt   // the runtime permission prompt is showing
    | Granted                    // provider on and both permissions held
    | Denied                     // the screen has been closed

  /** The state a callback leaves the gate in, and what it did. */
  datatype Outcome = Outcome(next: GateState, effects: seq<Effect>)

  /** The only permission request the activity ever issues. */
  const LocationRequest: Effect := RequestPermissions(RequiredPermissions, PermissionsRequestCode)

  ghost predicate RequestsWellFormed(log: seq<Effect>) {
    forall i :: 0 <= i < |log| && log[i].RequestPermissions? ==> log[i] == LocationRequest
  }

  lemma RequestsWellFormedAppend(a: seq<Effect>, b: seq<Effect>)
    requires RequestsWellFormed(a) && RequestsWellFormed(b)
    ensures RequestsWellFormed(a + b)
  {
    forall i | 0 <= i < |a + b| && (a + b)[i].RequestPermissions?
      ensures (a + b)[i] == LocationRequest
    {
      if i >= |a| { assert (a + b)[i] == b[i - |a|]; }
    }
  }

  /** A log of updateUI effects contains no finish() and no permission request. */
  lemma UpdateUIEffectsKeepGate(log: seq<Effect>)
    requires forall k :: 0 <= k < |log| ==> IsUpdateUIEffect(log[k])
    ensures Finish !in log && ShowSettingsDialog !in log && LaunchLocationSettings !in log
    ensures FinishAnnounced(log) && RequestsWellFormed(log)
  {
    forall k | 0 <= k < |log|
      ensures log[k] != Finish && log[k] != ShowSettingsDialog && log[k] != LaunchLocationSettings
      ensures !log[k].RequestPermissions?
    {
      assert IsUpdateUIEffect(log[k]);
    }
  }

  /** What every callback guarantees: a well-formed slice of log, a finish()
      exactly when it closes the screen, and nothing after finish(). */
  ghost predicate Consistent(g: GateState, r: Outcome) {
    && FinishAnnounced(r.effects)
    && RequestsWellFormed(r.effects)
    && (Finish in r.effects <==> r.next == Denied && r.effects != [])
    && (Finish in r.effects ==> r.effects[|r.effects| - 1] == Finish)
    && (r.next == Denied && r.effects == [] ==> g == Denied)
  }

  /** isLocationServiceAvailable: only the GPS and network providers count. */
  function IsLocationServiceAvailable(d: Device): (r: bool)
    ensures r <==> d.enabledProviders * {Gps, Network} != {}
  {
    assert Gps in d.enabledProviders ==> Gps in d.enabledProviders * {Gps, Network};
    assert Network in d.enabledProviders ==> Network in d.enabledProviders * {Gps, Network};
    IsProviderEnabled(d, Gps) || IsProviderEnabled(d, Network)
  }

  /** isRunTimePermissionsGranted: request both permissions unless both are
      already held; when they are, do nothing. */
  function RunTimePermissionsStep(d: Device): (r: Outcome)
    ensures r.effects == [] <==> {AccessFineLocation, AccessCoarseLocation} <= d.grantedPermissions
    ensures r.effects != [] ==> r.effects == [LocationRequest]
    ensures r.next == (if r.effects == [] then Granted else AwaitingPermissionPrompt)
  {
    if CheckSelfPermission(d, AccessFineLocation) != PermissionGranted
       || CheckSelfPermission(d, AccessCoarseLocation) != PermissionGranted
    then Outcome(AwaitingPermissionPrompt, [LocationRequest])
    else Outcome(Granted, [])
  }

  /** showDialogForLocaionServiceSetting: the dialog is shown; its buttons
      and the settings screen answer later. */
  function ShowDialogStep(): Outcome {
    Outcome(AwaitingDialogChoice, [ShowSettingsDialog])
  }

  /** checkAllPermissions: exactly one branch, and at most one effect. */
  function CheckAllPermissionsStep(d: Device): (r: Outcome)
    ensures |r.effects| <= 1
    ensures r.effects == [ShowSettingsDialog] <==> !IsLocationServiceAvailable(d)
    ensures r.next == AwaitingDialogChoice <==> !IsLocationServiceAvailable(d)
    ensures r.effects == [LocationRequest] <==>
      IsLocationServiceAvailable(d) && !({AccessFineLocation, AccessCoarseLocation} <= d.grantedPermissions)
    ensures r.effects == [] <==>
      IsLocationServiceAvailable(d) && {AccessFineLocation, AccessCoarseLocation} <= d.grantedPermissions
    ensures r.next == Granted <==> r.effects == []
    ensures r.next == AwaitingPermissionPrompt <==> r.effects == [LocationRequest]
  {
    if !IsLocationServiceAvailable(d) then ShowDialogStep() else RunTimePermissionsStep(d)
  }

  /** onCreate: the gate check, then updateUI whatever the gate decided. */
  function CreateStep(d: Device, reading: LocationReading, outcome: GeocoderOutcome): (r: Outcome)
    ensures Consistent(Unchecked, r)
    ensures r.next == CheckAllPermissionsStep(d).next && r.next != Denied
    ensures r.effects == CheckAllPermissionsStep(d).effects + UpdateUIEffects(reading, outcome)
    ensures FetchCount(r.effects) == (if HasFix(reading) then 1 else 0)
    ensures !IsLocationServiceAvailable(d) ==> |r.effects| > 0 && r.effects[0] == ShowSettingsDialog
    ensures IsLocationServiceAvailable(d) && !({AccessFineLocation, AccessCoarseLocation} <= d.grantedPermissions) ==>
      |r.effects| > 0 && r.effects[0] == LocationRequest
  {
    var check := CheckAllPermissionsStep(d);
    var ui := UpdateUIEffects(reading, outcome);
    UpdateUIEffectsKeepGate(ui);
    assert check.effects == [] || check.effects == [ShowSettingsDialog] || check.effects == [LocationRequest];
    assert Finish !in check.effects;
    assert FinishAnnounced(check.effects) && RequestsWellFormed(check.effects);
    FetchCountAppend(check.effects, ui);
    FinishAnnouncedAppend(check.effects, ui);
    RequestsWellFormedAppend(check.effects, ui);
    assert Finish !in check.effects + ui;
    Outcome(check.next, check.effects + ui)
  }

  /** The loop of onRequestPermissionsResult decides: every entry granted. */
  predicate AllGranted(grantResults: seq<int>) {
    forall i :: 0 <= i < |grantResults| ==> grantResults[i] == PermissionGranted
  }

  /** The guard of onRequestPermissionsResult: this activity's request code and
      one answer per requested permission. */
  predicate MatchesRequest(requestCode: int, grantResults: seq<int>) {
    requestCode == PermissionsRequestCode && |grantResults| == |RequiredPermissions|
  }

  /** onRequestPermissionsResult: a result for another request, or with the
      wrong number of answers, is ignored; otherwise updateUI when every answer
      is a grant, and a toast then finish() when any is not. */
  function PermissionsResultStep(g: GateState, requestCode: int, grantResults: seq<int>,
                                 reading: LocationReading, outcome: GeocoderOutcome): (r: Outcome)
    ensures Consistent(g, r)
    ensures !MatchesRequest(requestCode, grantResults) ==> r == Outcome(g, [])
    ensures MatchesRequest(requestCode, grantResults) ==>
      && (r.next == Granted <==> AllGranted(grantResults))
      && (r.next == Denied <==> !AllGranted(grantResults))
    ensures MatchesRequest(requestCode, grantResults) && AllGranted(grantResults) ==>
      r.effects == UpdateUIEffects(reading, outcome)
    ensures MatchesRequest(requestCode, grantResults) && !AllGranted(grantResults) ==>
      r.effects == [Toast(PermissionRefused), Finish]
    ensures FetchCount(r.effects) ==
      (if MatchesRequest(requestCode, grantResults) && AllGranted(grantResults) && HasFix(reading) then 1 else 0)
  {
    if MatchesRequest(requestCode, grantResults) then
      if AllGranted(grantResults) then
        var ui := UpdateUIEffects(reading, outcome);
        UpdateUIEffectsKeepGate(ui);
        Outcome(Granted, ui)
      else
        Outcome(Denied, [Toast(PermissionRefused), Finish])
    else
      Outcome(g, [])
  }

  /** The settings-screen callback: a non-OK result does nothing; an OK result
      re-runs the permission check when a provider is now on, and otherwise
      closes the screen. It never runs updateUI. */
  function SettingsResultStep(g: GateState, resultCode: int, d: Device): (r: Outcome)
    ensures Consistent(g, r)
    ensures resultCode != ResultOk ==> r == Outcome(g, [])
    ensures resultCode == ResultOk && IsLocationServiceAvailable(d) ==> r == RunTimePermissionsStep(d)
    ensures resultCode == ResultOk && IsLocationServiceAvailable(d) ==>
      && |r.effects| <= 1
      && (r.effects == [LocationRequest] <==> !({AccessFineLocation, AccessCoarseLocation} <= d.grantedPermissions))
      && (r.next == Granted <==> r.effects == [])
    ensures resultCode == ResultOk && !IsLocationServiceAvailable(d) ==>
      r == Outcome(Denied, [Toast(LocationServiceUnavailable), Finish])
    ensures FetchCount(r.effects) == 0
  {
    if resultCode == ResultOk then
      if IsLocationServiceAvailable(d) then RunTimePermissionsStep(d)
      else Outcome(Denied, [Toast(LocationServiceUnavailable), Finish])
    else
      Outcome(g, [])
  }

  /** The dialog's "settings" button starts the settings screen. */
  function DialogPositiveStep(): Outcome {
    Outcome(AwaitingSettingsReturn, [LaunchLocationSettings])
  }

  /** The dialog's "cancel" button always closes the screen. */
  function DialogNegativeStep(): Outcome {
    Outcome(Denied, [CancelDialog, Toast(LocationServiceUnavailable), Finish])
  }

  /** The callbacks the main thread delivers to the activity. */
  datatype Event =
    | Create(device: Device, reading: LocationReading, geocoder: GeocoderOutcome)
    | PermissionsResult(requestCode: int, grantResults: seq<int>, reading: LocationReading, geocoder: GeocoderOutcome)
    | SettingsResult(resultCode: int, device: Device)
    | DialogPositive
    | DialogNegative

  /** The events after which getAirQualityData has been called. */
  predicate IssuesFetch(e: Event) {
    match e
    case Create(_, reading, _) => HasFix(reading)
    case PermissionsResult(code, grants, reading, _) =>
      MatchesRequest(code, grants) && AllGranted(grants) && HasFix(reading)
    case _ => false
  }

  function Step(g: GateState, e: Event): (r: Outcome)
    ensures Consistent(g, r)
    ensures FetchCount(r.effects) == if IssuesFetch(e) then 1 else 0
  {
    match e
    case Create(d, reading, geocoder) => CreateStep(d, reading, geocoder)
    case PermissionsResult(code, grants, reading, geocoder) => PermissionsResultStep(g, code, grants, reading, geocoder)
    case SettingsResult(code, d) => SettingsResultStep(g, code, d)
    case DialogPositive => DialogPositiveStep()
    case DialogNegative => DialogNegativeStep()
  }

  /** Deliver the events in order, starting from gate state g. */
  function Run(g: GateState, events: seq<Event>): Outcome
    decreases |events|
  {
    if events == [] then Outcome(g, [])
    else
      var first := Step(g, events[0]);
      var rest := Run(first.next, events[1..]);
      Outcome(rest.next, first.effects + rest.effects)
  }

  /** The number of events in a trace that call getAirQualityData. */
  function FetchingEvents(events: seq<Event>): nat {
    if events == [] then 0
    else (if IssuesFetch(events[0]) then 1 else 0) + FetchingEvents(events[1..])
  }

  /** Over any trace, exactly one getAirQualityData call per fetching event,
      so at most one per callback. */
  lemma {:induction false} RunFetchCount(g: GateState, events: seq<Event>)
    ensures FetchCount(Run(g, events).effects) == FetchingEvents(events)
    ensures FetchingEvents(events) <= |events|
    decreases |events|
  {
    if events != [] {
      var first := Step(g, events[0]);
      RunFetchCount(first.next, events[1..]);
      FetchCountAppend(first.effects, Run(first.next, events[1..]).effects);
    }
  }

  /** Over any trace, every finish() is announced by a toast and every
      permission request is for both location permissions with code 100. */
  lemma {:induction false} RunWellFormed(g: GateState, events: seq<Event>)
    ensures FinishAnnounced(Run(g, events).effects)
    ensures RequestsWellFormed(Run(g, events).effects)
    decreases |events|
  {
    if events != [] {
      var first := Step(g, events[0]);
      var rest := Run(first.next, events[1..]);
      RunWellFormed(first.next, events[1..]);
      FinishAnnouncedAppend(first.effects, rest.effects);
      RequestsWellFormedAppend(first.effects, rest.effects);
    }
  }

  /** Over any trace, the gate ends Denied only if the log ends with finish()
      (or the trace started Denied and produced nothing). */
  lemma {:induction false} RunDeniedFinishes(g: GateState, events: seq<Event>)
    ensures var r := Run(g, events);
      r.next == Denied ==> (r.effects != [] && r.effects[|r.effects| - 1] == Finish) || (r.effects == [] && g == Denied)
    decreases |events|
  {
    if events != [] {
      var first := Step(g, events[0]);
      RunDeniedFinishes(first.next, events[1..]);
    }
  }

  /** onCreate runs updateUI before the user has answered anything: with the
      location service off and the user pressing "cancel", the screen closes
      with the location-unavailable toast and finish(), and getAirQualityData
      has already been called once if the reading onCreate got had both
      coordinates. With the location service off such a reading is not
      plausible, so for a plausible reading the cancel path makes no call. */
  lemma FetchDespiteCancel(d: Device, reading: LocationReading, geocoder: GeocoderOutcome)
    requires !IsLocationServiceAvailable(d)
    ensures var r := Run(Unchecked, [Create(d, reading, geocoder), DialogNegative]);
      && r.next == Denied
      && |r.effects| >= 2
      && r.effects[|r.effects| - 2] == Toast(LocationServiceUnavailable)
      && r.effects[|r.effects| - 1] == Finish
      && FetchCount(r.effects) == (if HasFix(reading) then 1 else 0)
      && (ReadingPlausible(d, reading) ==> FetchCount(r.effects) == 0)
    ensures HasFix(reading) ==> !ReadingPlausible(d, reading)
  {
    var created := Step(Unchecked, Create(d, reading, geocoder));
    RunTwo(Unchecked, Create(d, reading, geocoder), DialogNegative);
    FetchCountAppend(created.effects, DialogNegativeStep().effects);
    assert FetchCount(DialogNegativeStep().effects) == 0 by {
      FetchCountWithoutFetch(DialogNegativeStep().effects);
    }
  }

  /** When the user turns a provider on in the settings screen and both
      permissions are already held, the gate is passed but updateUI is not run
      again, so getAirQualityData is not called after the return. */
  lemma SettingsReturnGrantedWithoutFetch(g: GateState, d: Device)
    requires IsLocationServiceAvailable(d)
    requires {AccessFineLocation, AccessCoarseLocation} <= d.grantedPermissions
    ensures Step(g, SettingsResult(ResultOk, d)) == Outcome(Granted, [])
  {
  }

  /** Two callbacks in a row: the effects of the first, then of the second. */
  lemma RunTwo(g: GateState, a: Event, b: Event)
    ensures Run(g, [a, b]) == Outcome(Step(Step(g, a).next, b).next, Step(g, a).effects + Step(Step(g, a).next, b).effects)
  {
    var events := [a, b];
    assert events[0] == a && events[1..] == [b];
    var first := Step(g, a);
    var second := Step(first.next, b);
    assert [b][1..] == [];
    assert Run(first.next, [b]) == Outcome(second.next, second.effects + []);
    assert second.effects + [] == second.effects;
  }

  /** A reading that a location source could deliver on this device: a
      position only when a provider is on and both permissions are held.
      LocationProvider is not part of this model, and nothing in the activity
      checks this; the lemmas below say where it matters. */
  predicate ReadingPlausible(d: Device, reading: LocationReading) {
    HasFix(reading) ==>
      IsLocationServiceAvailable(d) && {AccessFineLocation, AccessCoarseLocation} <= d.grantedPermissions
  }

  /** The end-to-end path through the prompt: provider on, permissions missing;
      onCreate asks for exactly the two location permissions; both granted;
      updateUI calls getAirQualityData for the reading's coordinates as the
      last effect. onCreate's own updateUI fetches too if its reading had a fix, so
      the path fetches exactly once only when that reading was plausible. */
  lemma PromptThenGrant(d: Device, first: LocationReading, latitude: Coord, longitude: Coord,
                        g1: GeocoderOutcome, g2: GeocoderOutcome)
    requires IsLocationServiceAvailable(d)
    requires !({AccessFineLocation, AccessCoarseLocation} <= d.grantedPermissions)
    ensures Step(Unchecked, Create(d, first, g1)).next == AwaitingPermissionPrompt
    ensures Step(Unchecked, Create(d, first, g1)).effects[0] == RequestPermissions([AccessFineLocation, AccessCoarseLocation], 100)
    ensures var run := Run(Unchecked, [Create(d, first, g1),
                                       PermissionsResult(100, [PermissionGranted, PermissionGranted],
                                                         LocationReading(Some(latitude), Some(longitude)), g2)]);
      && run.next == Granted
      && run.effects[|run.effects| - 1] == FetchAirQuality(latitude, longitude)
      && FetchCount(run.effects) == (if HasFix(first) then 2 else 1)
      && (ReadingPlausible(d, first) ==> FetchCount(run.effects) == 1)
  {
    var answer := PermissionsResult(100, [PermissionGranted, PermissionGranted],
                                    LocationReading(Some(latitude), Some(longitude)), g2);
    var created := Step(Unchecked, Create(d, first, g1));
    var answered := Step(created.next, answer);
    assert AllGranted([PermissionGranted, PermissionGranted]);
    assert answered.effects == UpdateUIEffects(answer.reading, g2);
    RunTwo(Unchecked, Create(d, first, g1), answer);
    FetchCountAppend(created.effects, answered.effects);
  }
}

# Air-quality app: the location-access gate and the fetch decision

This project models the one piece of decision logic in the air-quality Android
app's `MainActivity`. Before the app reads the device's last known position, it
checks two things. First, a location provider (GPS or network) must be on. If
none is, the app shows a dialog offering the system location settings. Second,
the app must hold both the fine and the coarse location permissions. If it does
not, it asks for them. Once location is available, `updateUI` reverse-geocodes
the position to show an address and calls `getAirQualityData` once for the
coordinates.

Android's services become inputs. Each handler receives a snapshot of the
device as parameters: the enabled providers, the permissions held, the last
known reading and what the geocoder answers. Whatever the app does in reply is
appended, in order, to an effect log. The effects are: show the settings dialog,
cancel it, launch the settings screen, request permissions, query the geocoder,
show an address, fetch air quality, show a toast, and `finish()`.

- `platform.dfy` (`Platform`): providers, permissions, Android's constants
  (`PERMISSION_GRANTED` is 0, `RESULT_OK` is -1), the device snapshot,
  `checkSelfPermission`, the location reading and the four geocoder outcomes.
  Coordinates and addresses are uninterpreted types.
- `effects.dfy` (`Effects`): the effects, the toasts, and facts about logs.
  The facts are the number of fetches in a log and the rule that every
  `finish()` follows a toast saying why the screen closes.
- `address_and_fetch.dfy` (`AddressAndFetch`): `getCurrentAddress` and
  `updateUI` as functions from the platform's answers to effects.
- `gate.dfy` (`Gate`): the gate as a state machine, with one step function per
  callback. Each step gives the gate state that follows and the effects
  produced. `Run` delivers callbacks in order, as the main thread does, and
  lemmas over `Run` cover whole traces.
- `main_activity.dfy` (`Activity`): `MainActivity` as a class. It has one method
  per handler, written as the Kotlin code is written, including the loop over
  the grant array with its early `break`. Each method is proved to append
  exactly its step function's effects and to move the gate to that step's
  state. The class invariant `Valid` says six things: every `finish()` in the
  log is announced, every permission request has the same shape, the settings
  screen is only launched after the dialog was shown, a Denied gate means the
  log ends with `finish()`, the settings launcher is registered iff the dialog
  is in the log, and while the dialog or the settings screen is awaited the
  launcher is registered.

The gate state (`Unchecked`, `AwaitingDialogChoice`, `AwaitingSettingsReturn`,
`AwaitingPermissionPrompt`, `Granted`, `Denied`) is a ghost field. The Kotlin
code has no such variable. The state only records which callback the activity
is waiting for.

## Where the code does what one might not expect

The model follows the Kotlin code in each of these places.

- `getCurrentAddress` asks the geocoder for up to 7 candidates
  (`MainActivity.kt:104`, `GeocoderMaxResults`) and keeps only the first.
- `onRequestPermissionsResult` acts only when the request code is 100 and the
  grant array has exactly 2 entries (`MainActivity.kt:151`). A grant array of
  any other length is ignored; it is not a denial
  (`Gate.PermissionsResultStep`).
- `onCreate` calls `updateUI` right after `checkAllPermissions`
  (`MainActivity.kt:53-54`), whatever the gate decided. If the reading
  `onCreate` gets has both coordinates, `getAirQualityData` is called once even
  when the location service is off and the user then presses "cancel"
  (`Gate.FetchDespiteCancel`). On the prompt path the same call fetches before
  the user has answered, so the path fetches twice when that first reading has
  a fix (`Gate.PromptThenGrant`).
- When both permissions are already held, `isRunTimePermissionsGranted` does
  nothing (`MainActivity.kt:140-142`). After the settings screen returns OK
  with a provider on and both permissions held, the gate is passed, but
  `updateUI` is not called again, so `getAirQualityData` is not called
  (`Gate.SettingsReturnGrantedWithoutFetch`).
- The settings callback acts only on `RESULT_OK` (`MainActivity.kt:175`). Any
  other result code does nothing; in particular it does not re-check the
  providers.

## Model

| member | source | states |
|---|---|---|
| `Gate.IsLocationServiceAvailable` | app/src/main/java/com/cc/air_quality/MainActivity.kt:129-134 | the location service counts as available iff the GPS or the network provider is on; passive or fused providers alone do not count |
| `Gate.RunTimePermissionsStep` | app/src/main/java/com/cc/air_quality/MainActivity.kt:136-143 | a request is issued iff fine or coarse permission is missing; it is always for [fine, coarse] with code 100; with both held there is no effect and the gate is granted |
| `Gate.CheckAllPermissionsStep` | app/src/main/java/com/cc/air_quality/MainActivity.kt:121-127 | exactly one branch and at most one effect: the settings dialog iff no provider is on, the permission request iff a provider is on and a permission is missing, nothing iff both hold |
| `Gate.CreateStep` | app/src/main/java/com/cc/air_quality/MainActivity.kt:46-54 | onCreate's effects are exactly the check's effects followed by all of updateUI's, whatever the gate decided; the gate moves as the check says and never to Denied; one fetch iff the reading has both coordinates; the dialog comes first when no provider is on, the permission request when a permission is missing |
| `Gate.PermissionsResultStep` | app/src/main/java/com/cc/air_quality/MainActivity.kt:145-169 | a result with another request code or a grant array not of length 2 leaves state and log unchanged; a matching one grants iff every entry is GRANTED, running updateUI, and otherwise toasts then finishes; one fetch iff granted with a fix |
| `Gate.SettingsResultStep` | app/src/main/java/com/cc/air_quality/MainActivity.kt:171-183 | a non-OK result code changes nothing; an OK code with a provider on is exactly the permission check (a request iff a permission is missing, otherwise Granted with no effect); an OK code with no provider toasts then finishes; never a fetch |
| `Gate.Step` | app/src/main/java/com/cc/air_quality/MainActivity.kt:46-198 | every callback finishes exactly when it moves the gate to Denied, puts nothing after finish(), announces finish() by a toast, and issues one fetch exactly for a fetching event |
| `Gate.RunFetchCount` | app/src/main/java/com/cc/air_quality/MainActivity.kt:46-169 | over any sequence of callbacks, the number of getAirQualityData calls equals the number of fetching events, so at most one per callback |
| `Gate.RunWellFormed` | app/src/main/java/com/cc/air_quality/MainActivity.kt:136-196 | over any sequence of callbacks, every finish() follows a toast saying why, and every permission request is [fine, coarse] with code 100 |
| `Gate.RunDeniedFinishes` | app/src/main/java/com/cc/air_quality/MainActivity.kt:161-196 | over any sequence of callbacks, a gate that ends Denied has a log ending in finish(), unless it started Denied and nothing happened |
| `Gate.FetchDespiteCancel` | app/src/main/java/com/cc/air_quality/MainActivity.kt:46-54 | on any device with the location service off (no GPS or network provider) and any reading, onCreate then "cancel" ends Denied with the location-unavailable toast and finish() last; getAirQualityData was called once iff onCreate's reading had both coordinates, such a reading is not plausible there, and with a plausible reading there is no call |
| `Gate.SettingsReturnGrantedWithoutFetch` | app/src/main/java/com/cc/air_quality/MainActivity.kt:174-177 | an OK settings return with a provider on and both permissions held grants the gate with no effect at all, so updateUI does not run |
| `Gate.PromptThenGrant` | app/src/main/java/com/cc/air_quality/MainActivity.kt:121-167 | provider on and a permission missing: onCreate requests exactly [fine, coarse] with code 100; both granted then grants the gate and ends with a fetch for the new reading's coordinates; over the whole path, two fetches if onCreate's reading had a fix, else one, so exactly one when that reading was plausible |
| `AddressAndFetch.CurrentAddress` | app/src/main/java/com/cc/air_quality/MainActivity.kt:98-119 | asks the geocoder for up to 7 candidates; returns the first candidate iff the list is non-null and non-empty; otherwise returns none with one non-fatal toast: geocoder unavailable on IOException, invalid coordinates on IllegalArgumentException, no address found on a null or empty list; never fetches |
| `AddressAndFetch.UpdateUIEffects` | app/src/main/java/com/cc/air_quality/MainActivity.kt:63-96 | exactly one fetch iff both coordinates are present, whatever the address lookup gave; with a fix the log starts with getCurrentAddress's effects (query, and its toast when no address is found) and ends with the fetch for those coordinates, with nothing between them but the address when one was found; an address is shown iff there is a fix and the geocoder found one, and it is the first candidate; without a fix only the missing-fix toast; never a fatal effect |
| `Activity.ScanGrantResults` | app/src/main/java/com/cc/air_quality/MainActivity.kt:152-159 | the loop with its early break yields true iff every entry of the grant array is PERMISSION_GRANTED |
| `Activity.MainActivity.constructor` | app/src/main/java/com/cc/air_quality/MainActivity.kt:31-43 | a new activity has an empty log, an unchecked gate and no settings launcher |
| `Activity.MainActivity.OnCreate` | app/src/main/java/com/cc/air_quality/MainActivity.kt:46-61 | runs checkAllPermissions then updateUI; the new gate and log are those of CreateStep; the launcher is registered iff the dialog was shown |
| `Activity.MainActivity.UpdateUI` | app/src/main/java/com/cc/air_quality/MainActivity.kt:63-84 | appends exactly UpdateUIEffects and keeps the class invariant |
| `Activity.MainActivity.GetCurrentAddress` | app/src/main/java/com/cc/air_quality/MainActivity.kt:98-119 | returns CurrentAddress's address and appends its effects |
| `Activity.MainActivity.CheckAllPermissions` | app/src/main/java/com/cc/air_quality/MainActivity.kt:121-127 | calls the dialog or the permission check as CheckAllPermissionsStep decides, and registers the launcher iff no provider is on |
| `Activity.MainActivity.IsRunTimePermissionsGranted` | app/src/main/java/com/cc/air_quality/MainActivity.kt:136-143 | appends the request (or nothing) and moves the gate as RunTimePermissionsStep says |
| `Activity.MainActivity.OnRequestPermissionsResult` | app/src/main/java/com/cc/air_quality/MainActivity.kt:145-169 | the guard, the loop and the two outcomes over the grant array agree with PermissionsResultStep on its contents |
| `Activity.MainActivity.ShowDialogForLocationServiceSetting` | app/src/main/java/com/cc/air_quality/MainActivity.kt:171-198 | registers the settings launcher, shows the dialog and waits for a button |
| `Activity.MainActivity.OnSettingsResult` | app/src/main/java/com/cc/air_quality/MainActivity.kt:174-183 | the settings callback agrees with SettingsResultStep |
| `Activity.MainActivity.OnDialogPositive` | app/src/main/java/com/cc/air_quality/MainActivity.kt:188-191 | "settings" launches the settings screen through the registered launcher and waits for its result |
| `Activity.MainActivity.OnDialogNegative` | app/src/main/java/com/cc/air_quality/MainActivity.kt:192-196 | "cancel" always cancels the dialog, toasts that location is unavailable, finishes, and leaves the gate Denied |

## Left out

- `RetrofitConnection.kt` is not part of this model. It is the lazily built HTTP client singleton.
- The `FetchAirQuality` effect means that `getAirQualityData` on the Retrofit service is called (`MainActivity.kt:91-95`), not that an HTTP request leaves the device. The code discards the returned value. Whether anything is sent depends on the service method's return type: a `Call` that is never enqueued or executed sends nothing. `AirQualityService` is not part of this model, so the model cannot tell.
- The API key and the string form of the coordinates (`latitude.toString()`) are not modelled. The key comes from the build configuration. The coordinates are uninterpreted values, so only their presence matters.
- Toast texts, dialog title and message, and the text written into the title and subtitle views are not modelled. A toast is a `Message` tag, and a shown address is a `ShowAddress` effect.
- `enableEdgeToEdge`, `setContentView`, the view binding and the window-insets listener are not modelled: they are layout only.
- The location reading a handler receives is independent of the device's providers and permissions. `LocationProvider` is not part of this model, so nothing ties them. `Gate.ReadingPlausible` states the expected tie (a fix only with a provider on and both permissions held), and the lemmas say where it matters. In `Gate.FetchDespiteCancel` the call needs a fix while GPS and network are off, so with a plausible reading the cancel path makes no call. In `Gate.PromptThenGrant` the prompt path fetches twice if onCreate's reading has a fix.
- `LocationProvider` is the app's own class (`MainActivity.kt:34`, `64-67`), and it is not part of this model. `Geocoder`, `LocationManager` and `checkSelfPermission` are platform code. The answers of all four are handler parameters. The `locationProvider` field, which `updateUI` re-creates on every call, is therefore not a field of the model.
- The `permissions` argument of `onRequestPermissionsResult` and the `super` call are left out, because the code never reads them.
- Android's lifecycle and callback dispatch are left out. So are the restriction on when `registerForActivityResult` may be called, and dismissing the cancelable dialog with the back button (no listener runs then). Each callback is an explicit method, called one at a time.
- Activity.MainActivity.OnDialogPositive: requires that the settings launcher was registered. The Kotlin `lateinit` field would throw if it were not, and the button only exists on the dialog that registers it.
- Activity.MainActivity.UpdateUI: requires that the gate is not Denied. In the code it is reached only from `onCreate` and from a granted permission result, never after `finish()`.

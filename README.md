# DroneScan main activity: a Dafny model

This project models the behaviour of the main activity of the DroneScan
application (`app/src/main/java/dji/sampleV5/aircraft/MainActivity.kt`), an
Android/Compose shell around the DJI Mobile SDK v5. The vendor SDK, Compose and
the Android APIs are replaced by inputs. What remains has three parts.

* **Connection state machine** (`connection.dfy`, `activity.dfy`). The
  composable remembers three variables: the current screen (LOADING or SCAN),
  the loading message, and the connected product. The product-connection
  listener updates them on each of the eight `DeviceConnectionState` values.
  CONNECTED and DISCONNECTED also show a toast. `Connection.Step` is the pure
  transition. `Activity.MainActivity.OnUpdate` is the same handler written as
  an in-place update of an object, whose ghost `toasts` field logs every toast.
  The aircraft instance that `AircraftManager.getInstance()` returns on CONNECTED
  is an input.
* **Permission gate** (`permissions.dfy`, `activity.dfy`). A loop filters the
  thirteen required permissions down to those not granted
  (`Permissions.PermissionsToRequest`). With none missing, the SDK is initialised
  at once. Otherwise the missing ones are requested, and the SDK is initialised
  only if every answer is a grant. `checkSelfPermission` is replaced by the set
  of granted permissions. The dialog's answer is the map it returns. The action
  taken is a `GateAction` value: `Request(list)`, `InitSdk` or `Warn`.
  `onRegister` shows one toast and leaves the screen state alone.
* **Capture simulator** (`capture.dfy`). `LaunchedEffect(product)` in
  `ScanScreen`, and the callbacks it registers, form a scripted machine over
  `scanningText` and `capturedImage`. Its events are: recomposition with a
  product, the two setter answers, and the two delayed posts. Registered but
  undelivered callbacks are kept as a multiset, because nothing cancels them.
  `Capture.Fire` is the pure step. `Capture.ScanScreen` is the object whose
  methods assign the fields.

Each operation is paired with lemmas about sequences of events. SCAN is reached
exactly when a CONNECTED update has not been followed by a DISCONNECTED one.
There is one toast per CONNECTED or DISCONNECTED update: nothing is
deduplicated. The loading screen never holds a product. The list to request is
exactly the required permissions that are not granted, read in declaration
order. When the dialog answers for exactly the permissions it was asked for, the
gate initialises the SDK exactly when every required permission ends up
granted. (An answer that leaves entries out is a different case: an empty
answer initialises the SDK whatever was granted.) The image and the code text appear only after a successful
camera-mode answer, then a successful shoot-mode answer, then the first timer
(and, for the code, the second timer).

### Behaviour worth noting

* Only CONNECTED and DISCONNECTED assign the screen. The other six states
  change only the message, so, for example, CONNECTING received on SCAN stays
  on SCAN (`Connection.QuietStep`, `Connection.StepScreen`).
* Nothing is deduplicated: every CONNECTED or DISCONNECTED update shows a
  toast, also when it repeats the state before it
  (`Connection.RepeatedNotificationNotDeduplicated`,
  `Connection.ToastsCountNotifyingUpdates`).

### Observations stated as lemmas

* The result callback tests `permissions.entries.all { it.value }`. An answer
  with no entries counts as "all granted", so it initialises the SDK
  (`Permissions.EmptyAnswerInitialises`). Android documents an empty result for
  a permission request that is interrupted or cancelled. That happens outside
  this model, so it is not listed as a finding.
* The setter callbacks and the delayed posts are not tied to the effect that
  registered them. A capture set up for one product still shows its image after
  the effect has re-run without a product (`Capture.ScanTimerOutlivesProduct`).

## Model

| member | source | states |
|---|---|---|
| `Activity.MainActivity.constructor` | app/src/main/java/dji/sampleV5/aircraft/MainActivity.kt:107-111 | Initial state: screen LOADING, message "Iniciando aplicación...", no product, no toast shown, invariant established |
| `Activity.MainActivity.OnUpdate` | app/src/main/java/dji/sampleV5/aircraft/MainActivity.kt:116-149 | The new fields equal `Step` of the old ones, and toasts are appended. CONNECTED gives SCAN, the instance, "Drone conectado: " + model name and one toast equal to the message. DISCONNECTED gives LOADING, no product, "Drone desconectado." and one toast. The other six states change only the message, to `FixedMessage`. The invariant is kept |
| `Activity.MainActivity.CheckAndRequestPermissions` | app/src/main/java/dji/sampleV5/aircraft/MainActivity.kt:181-195 | The action is a request for exactly the not-granted required permissions and shows no toast, or, when none are missing, `InitSdk` with the "ya concedidos" toast |
| `Activity.MainActivity.OnPermissionsResult` | app/src/main/java/dji/sampleV5/aircraft/MainActivity.kt:85-95 | `InitSdk` with the "concedidos" toast when every entry is true, otherwise `Warn` with the warning toast |
| `Activity.MainActivity.OnRegister` | app/src/main/java/dji/sampleV5/aircraft/MainActivity.kt:200-209 | Exactly one toast, `RegistrationToast(error)`, is appended. Screen, message and product are unchanged |
| `Activity.RegistrationToast` | app/src/main/java/dji/sampleV5/aircraft/MainActivity.kt:201-208 | Success gives "SDK de DJI registrado exitosamente.". A failure gives "Fallo al registrar el SDK de DJI: " followed by exactly the error's description |
| `Activity.RegistrationToastNamesError` | app/src/main/java/dji/sampleV5/aircraft/MainActivity.kt:200-209 | A failure toast ends with the error's description and differs from the success toast. Success gives "SDK de DJI registrado exitosamente." |
| `Connection.ModelName` | app/src/main/java/dji/sampleV5/aircraft/MainActivity.kt:121 | The model's name when both the product and its model are present, "Desconocido" otherwise |
| `Connection.Step` | app/src/main/java/dji/sampleV5/aircraft/MainActivity.kt:118-149 | At most one toast, shown exactly for CONNECTED and DISCONNECTED, and equal to the new message. Those two states set screen and product regardless of the state before (SCAN and the instance, or LOADING and none). Every other state changes only the message |
| `Connection.Render` | app/src/main/java/dji/sampleV5/aircraft/MainActivity.kt:161-172 | LOADING shows the current message. SCAN shows the scan screen for the remembered product |
| `Connection.ConnectedStep` | app/src/main/java/dji/sampleV5/aircraft/MainActivity.kt:119-123 | CONNECTED sets SCAN and the instance. The message is "Drone conectado: " + the model name, or "Drone conectado: Desconocido" when the product or its model is absent. Exactly one toast, equal to the message |
| `Connection.DisconnectedStep` | app/src/main/java/dji/sampleV5/aircraft/MainActivity.kt:125-129 | DISCONNECTED gives LOADING, no product, "Drone desconectado." and exactly that one toast, whatever the state before |
| `Connection.QuietStep` | app/src/main/java/dji/sampleV5/aircraft/MainActivity.kt:131-148 | The six other states keep screen and product, set their fixed message and show no toast |
| `Connection.FixedMessagesDistinct` | app/src/main/java/dji/sampleV5/aircraft/MainActivity.kt:125-148 | Different states have different fixed messages, and none starts with the connected prefix |
| `Connection.StepScreen` | app/src/main/java/dji/sampleV5/aircraft/MainActivity.kt:118-149 | Total over all eight values. The new screen is SCAN iff the state is CONNECTED, or the screen was SCAN and the state is not DISCONNECTED. The message is `MessageFor(update)`. There is one toast iff the state notifies |
| `Connection.StepKeepsInvariant` | app/src/main/java/dji/sampleV5/aircraft/MainActivity.kt:119-148 | Every update keeps "LOADING implies no product" |
| `Connection.RepeatedNotificationNotDeduplicated` | app/src/main/java/dji/sampleV5/aircraft/MainActivity.kt:119-129 | Two identical CONNECTED or DISCONNECTED updates show two equal toasts |
| `Connection.RunKeepsInvariant` | app/src/main/java/dji/sampleV5/aircraft/MainActivity.kt:107-149 | Every state reached from the initial one has no product while on LOADING |
| `Connection.ScanIffConnectedSinceLastDisconnect` | app/src/main/java/dji/sampleV5/aircraft/MainActivity.kt:107-149 | From the initial state, the screen is SCAN iff some CONNECTED update has no DISCONNECTED after it |
| `Connection.ToastsCountNotifyingUpdates` | app/src/main/java/dji/sampleV5/aircraft/MainActivity.kt:118-149 | The number of toasts equals the number of CONNECTED and DISCONNECTED updates |
| `Connection.MessageOfLastUpdate` | app/src/main/java/dji/sampleV5/aircraft/MainActivity.kt:118-149 | The message keeps no history. It is the message of the last update, or the one before any update |
| `Connection.RenderAfterRun` | app/src/main/java/dji/sampleV5/aircraft/MainActivity.kt:107-172 | The scan screen is shown iff a CONNECTED update has not been followed by a DISCONNECTED one. The loading screen holds no product |
| `Permissions.NotGranted` | app/src/main/java/dji/sampleV5/aircraft/MainActivity.kt:183-187 | The list to request is no longer than the required list, and none of its entries is granted |
| `Permissions.PermissionsToRequest` | app/src/main/java/dji/sampleV5/aircraft/MainActivity.kt:182-187 | The loop returns `NotGranted(required, granted)`. A permission is in the result iff it is required and not granted |
| `Permissions.NotGrantedSelectsInOrder` | app/src/main/java/dji/sampleV5/aircraft/MainActivity.kt:181-187 | The list to request is `required` read at strictly increasing positions. A position is read iff its permission is not granted |
| `Permissions.NotGrantedMembers` | app/src/main/java/dji/sampleV5/aircraft/MainActivity.kt:181-187 | Membership in the list to request is exactly "required and not granted" |
| `Permissions.NotGrantedEmptyIffAllGranted` | app/src/main/java/dji/sampleV5/aircraft/MainActivity.kt:181-189 | The list to request is empty iff every required permission is granted |
| `Permissions.AfterCheck` | app/src/main/java/dji/sampleV5/aircraft/MainActivity.kt:189-194 | An empty list gives `InitSdk`. A non-empty list gives a request for that same list. Never `Warn` |
| `Permissions.CheckInitialisesIffAllGranted` | app/src/main/java/dji/sampleV5/aircraft/MainActivity.kt:181-194 | With the thirteen declared permissions, the check initialises without a dialog iff all are granted. Otherwise it requests exactly the missing ones |
| `Permissions.AllGranted` | app/src/main/java/dji/sampleV5/aircraft/MainActivity.kt:86 | True iff no entry of the answer is `false`. An empty answer passes |
| `Permissions.AfterResult` | app/src/main/java/dji/sampleV5/aircraft/MainActivity.kt:86-94 | `InitSdk` iff every returned entry is true. `Warn` iff some entry is false. Never a new request |
| `Permissions.GateInitialisesIffAllRequiredGranted` | app/src/main/java/dji/sampleV5/aircraft/MainActivity.kt:181-194 | The dialog answers for exactly the requested permissions. Then the SDK is initialised, at once or after the answer, iff every required permission is granted before the dialog or in it |
| `Permissions.EmptyAnswerInitialises` | app/src/main/java/dji/sampleV5/aircraft/MainActivity.kt:86-90 | An answer with no entries passes the `all` test and initialises the SDK |
| `Capture.Effect` | app/src/main/java/dji/sampleV5/aircraft/MainActivity.kt:293-350 | The key product is kept. The image is cleared iff there is no product. The camera-mode callback is added iff there is a product and a camera manager. The only possible toast is "CameraManager no disponible.", shown for a product without a camera manager |
| `Capture.Launch` | app/src/main/java/dji/sampleV5/aircraft/MainActivity.kt:287-292 | The first composition keeps the given product, shows no image, has at most the camera-mode callback in flight, and with no product shows "Esperando conexión con el drone..." |
| `Capture.Fire` | app/src/main/java/dji/sampleV5/aircraft/MainActivity.kt:292-333 | An event whose callback is not in flight changes nothing. At most one toast. Only a recomposition can move the key, and only a recomposition or the first timer can change the image |
| `Capture.EffectWithoutProduct` | app/src/main/java/dji/sampleV5/aircraft/MainActivity.kt:347-350 | With no product the text is "Esperando conexión con el drone...", the image is cleared, callbacks in flight stay, and no toast is shown |
| `Capture.EffectWithProduct` | app/src/main/java/dji/sampleV5/aircraft/MainActivity.kt:293-346 | With a product the text is "Drone conectado: " + the model name ("Desconocido" when the model is absent), and the image is kept. The camera-mode setter is called iff a camera manager exists; otherwise "CameraManager no disponible." is shown |
| `Capture.SameProductNoRestart` | app/src/main/java/dji/sampleV5/aircraft/MainActivity.kt:292 | Recomposing with the same product changes nothing |
| `Capture.SetterFailureKeepsView` | app/src/main/java/dji/sampleV5/aircraft/MainActivity.kt:335-342 | A failed camera-mode or shoot-mode answer leaves text, image and product unchanged and schedules nothing. It shows one toast: the setter's error prefix followed by the description |
| `Capture.SetterSuccessSchedulesNext` | app/src/main/java/dji/sampleV5/aircraft/MainActivity.kt:298-306 | A successful setter answer shows its confirmation toast ("Cámara en modo foto." or "Modo de disparo: Sencillo.") and leaves text, image and the key product unchanged. It consumes its callback and schedules the next stage: the shoot-mode call after camera mode, the first timer after shoot mode |
| `Capture.ScanTimerCaptures` | app/src/main/java/dji/sampleV5/aircraft/MainActivity.kt:306-333 | The first timer sets the placeholder image and "Escaneo completado. Procesando imagen...". It posts the second timer and shows the photo-captured toast |
| `Capture.CodeTimerReportsCode` | app/src/main/java/dji/sampleV5/aircraft/MainActivity.kt:328-332 | The second timer sets "Código detectado: QR_CODE_EXAMPLE_12345", keeps the image and shows the same text as a toast |
| `Capture.LaunchIsFresh` | app/src/main/java/dji/sampleV5/aircraft/MainActivity.kt:287-292 | The first composition leaves no capture stage started: no image, no later callback in flight, no code text |
| `Capture.ExplainedAt` | app/src/main/java/dji/sampleV5/aircraft/MainActivity.kt:292-351 | From a fresh state, after any events, each callback in flight and each visible result is explained by earlier events, each delivered while its callback was in flight |
| `Capture.CaptureFollowsSetters` | app/src/main/java/dji/sampleV5/aircraft/MainActivity.kt:292-351 | From a fresh state, after any prefix of any events, the image (or a pending second timer) requires, in this order, a camera-mode success, a shoot-mode success and the first timer, each delivered while its callback was in flight. The code text also requires the second timer after those |
| `Capture.ScanTimerOutlivesProduct` | app/src/main/java/dji/sampleV5/aircraft/MainActivity.kt:306-350 | A first timer already set up still shows the image after the effect has re-run without a product |
| `Capture.ScanScreen.constructor` | app/src/main/java/dji/sampleV5/aircraft/MainActivity.kt:286-292 | The remembered initial values, then one run of the effect: `Launch(product, cameraAvailable)` |
| `Capture.ScanScreen.RunEffect` | app/src/main/java/dji/sampleV5/aircraft/MainActivity.kt:292-351 | The fields and callbacks become `Effect` of the old ones, and its toasts are appended |
| `Capture.ScanScreen.OnProductChanged` | app/src/main/java/dji/sampleV5/aircraft/MainActivity.kt:292 | The effect re-runs only when the key changed. Otherwise nothing changes |
| `Capture.ScanScreen.OnCameraModeResult` | app/src/main/java/dji/sampleV5/aircraft/MainActivity.kt:298-343 | Delivers the pending camera-mode callback as `Fire` does. Text and image are unchanged |
| `Capture.ScanScreen.OnShootModeResult` | app/src/main/java/dji/sampleV5/aircraft/MainActivity.kt:302-338 | Delivers the pending shoot-mode callback as `Fire` does. Text and image are unchanged |
| `Capture.ScanScreen.OnScanTimer` | app/src/main/java/dji/sampleV5/aircraft/MainActivity.kt:306-326 | Sets the placeholder image and the processing text, posts the second timer, and shows the photo-captured toast |
| `Capture.ScanScreen.OnCodeTimer` | app/src/main/java/dji/sampleV5/aircraft/MainActivity.kt:328-332 | Sets and shows "Código detectado: QR_CODE_EXAMPLE_12345", and keeps the image |

## Left out

- Compose rendering (`LoadingScreen`, the layout of `ScanScreen`, `AnimatedVisibility`, previews) is UI. Only the screen dispatch is modelled (`Connection.Render`).
- The listener `listen`/`cancelListen` pair (lines 153-158) is vendor lifecycle plumbing. The model takes the callbacks as they are delivered.
- Leaving SCAN disposes the `ScanScreen` composition, and coming back starts it afresh. The model covers one `ScanScreen` lifetime and makes no claim about callbacks that fire after disposal.
- `Handler.postDelayed` timing: the 5000 ms and 2000 ms delays are not modelled. The timers are events, delivered in any order the environment chooses.
- The other `SDKManagerCallback` members (`onProductConnect`, `onProductDisconnect`, `onProductChanged`, `onComponentChange`, `onInitProcess`, `onDatabaseDownloadProgress`) are empty or only log.
- Logging (`Log`, `LogUtils`) is left out. Toasts are kept as ghost logs of strings.
- `initDJISDK` itself is a vendor call. The model records the decision (`GateAction.InitSdk`) and its outcome (`OnRegister`).
- `BitmapFactory.decodeResource` is an opaque token (`Capture.PlaceholderDroneImage`). `onPhotoCaptured` contributes its toast only.
- `LaunchedEffect` compares the new key with the old one using `equals`. For `AircraftManager`, a vendor class that is not part of this model, that is identity unless the class overrides it. The model compares products by value.
- `Manifest.permission` constants are written as their string values. `checkSelfPermission` is a set of granted permissions.
- `app/src/main/java/com/dronescan/msdksample/MApplication.kt` is not part of this model. It only logs vendor registration events, and its `getInstance` throws whenever `instance` is null, which nothing assigns.
- `app/src/main/java/com/dronescan/msdksample/MainActivity.kt` is not part of this model. It only renders a greeting.

/**
 * The permission gate of the main activity: the required permissions are
 * filtered down to those the system has not granted; with none missing the
 * SDK is initialised at once, otherwise the missing ones are requested and
 * the SDK is initialised only if every answer is a grant.
 *
 * `checkSelfPermission` is replaced by the set of permissions the system has
 * granted, and the result of the permission dialog by the map it returns.
 */
module Permissions {

  /** REQUIRED_PERMISSIONS, the values of the Manifest.permission constants, in declaration order. */
  const RequiredPermissions: seq<string> := [
    "android.permission.BLUETOOTH",
    "android.permission.BLUETOOTH_ADMIN",
    "android.permission.BLUETOOTH_CONNECT",
    "android.permission.BLUETOOTH_SCAN",
    "android.permission.ACCESS_COARSE_LOCATION",
    "android.permission.ACCESS_FINE_LOCATION",
    "android.permission.ACCESS_BACKGROUND_LOCATION",
    "android.permission.INTERNET",
    "android.permission.ACCESS_NETWORK_STATE",
    "android.permission.WRITE_EXTERNAL_STORAGE",
    "android.permission.READ_EXTERNAL_STORAGE",
    "android.permission.RECORD_AUDIO",
    "android.permission.CAMERA"
  ]

  /** What the gate does next. */
  datatype GateAction =
    | Request(permissions: seq<string>)  // launch the permission dialog for these
    | InitSdk                            // call initDJISDK
    | Warn                               // tell the user some permission was refused

  /** The permissions of `required` not in `granted`, in the order of `required`. */
  function NotGranted(required: seq<string>, granted: set<string>): (r: seq<string>)
    ensures |r| <= |required|
    ensures forall i :: 0 <= i < |r| ==> r[i] !in granted
    decreases |required|
  {
    if required == [] then []
    else
      var rest := NotGranted(required[..|required| - 1], granted);
      var p := required[|required| - 1];
      if p in granted then rest else rest + [p]
  }

  /** The positions in `required` of the permissions that NotGranted keeps. */
  function NotGrantedPositions(required: seq<string>, granted: set<string>): seq<nat>
    decreases |required|
  {
    if required == [] then []
    else
      var rest := NotGrantedPositions(required[..|required| - 1], granted);
      if required[|required| - 1] in granted then rest else rest + [|required| - 1]
  }

  /** `sub` is `s` read at the strictly increasing positions `idx`. */
  ghost predicate SelectedInOrder(sub: seq<string>, s: seq<string>, idx: seq<nat>) {
    |idx| == |sub| &&
    (forall k :: 0 <= k < |idx| ==> idx[k] < |s| && sub[k] == s[idx[k]]) &&
    (forall k, l :: 0 <= k < l < |idx| ==> idx[k] < idx[l])
  }

  /**
   * The list to request is `required` read at increasing positions, and the
   * positions read are exactly those whose permission is not granted.
   */
  lemma {:induction false} NotGrantedSelectsInOrder(required: seq<string>, granted: set<string>)
    ensures SelectedInOrder(NotGranted(required, granted), required, NotGrantedPositions(required, granted))
    ensures forall i :: 0 <= i < |required| ==>
      (i in NotGrantedPositions(required, granted) <==> required[i] !in granted)
    decreases |required|
  {
    if required != [] {
      var n := |required| - 1;
      var prefix := required[..n];
      NotGrantedSelectsInOrder(prefix, granted);
      var idx := NotGrantedPositions(prefix, granted);
      forall k | 0 <= k < |idx| ensures idx[k] < n && required[idx[k]] == prefix[idx[k]] {
      }
      forall i | 0 <= i < n ensures required[i] == prefix[i] {
      }
    }
  }

  /** A permission is in the list to request exactly when it is required and not granted. */
  lemma {:induction false} NotGrantedMembers(required: seq<string>, granted: set<string>)
    ensures forall p :: p in NotGranted(required, granted) <==> p in required && p !in granted
    decreases |required|
  {
    if required != [] {
      var n := |required| - 1;
      NotGrantedMembers(required[..n], granted);
      assert required == required[..n] + [required[n]];
    }
  }

  /** The loop of `checkAndRequestPermissions` that collects the permissions to request. */
  method PermissionsToRequest(required: seq<string>, granted: set<string>) returns (toRequest: seq<string>)
    ensures toRequest == NotGranted(required, granted)
    ensures forall p :: p in toRequest <==> p in required && p !in granted
  {
    toRequest := [];
    for i := 0 to |required|
      invariant toRequest == NotGranted(required[..i], granted)
    {
      assert required[..i + 1][..i] == required[..i];
      if required[i] !in granted {
        toRequest := toRequest + [required[i]];
      }
    }
    assert required[..|required|] == required;
    NotGrantedMembers(required, granted);
  }

  /** The branch after the loop: request what is missing, or initialise the SDK when nothing is. */
  function AfterCheck(toRequest: seq<string>): (a: GateAction)
    ensures a.InitSdk? <==> toRequest == []
    ensures a.Request? ==> a.permissions == toRequest
    ensures !a.Warn?
  {
    if |toRequest| > 0 then Request(toRequest) else InitSdk
  }

  /** Every answer in the map is a grant; an empty answer counts as all granted. */
  predicate AllGranted(results: map<string, bool>): (r: bool)
    ensures r <==> false !in results.Values
    ensures results == map[] ==> r
  {
    forall p :: p in results ==> results[p]
  }

  /** The permission-result callback: initialise when everything was granted, warn otherwise. */
  function AfterResult(results: map<string, bool>): (a: GateAction)
    ensures a.InitSdk? <==> AllGranted(results)
    ensures a.Warn? <==> exists p :: p in results && !results[p]
    ensures !a.Request?
  {
    if AllGranted(results) then InitSdk else Warn
  }

  /** The SDK is initialised at the end of the gate: at once, or after the dialog answers. */
  predicate SdkInitialised(granted: set<string>, results: map<string, bool>) {
    match AfterCheck(NotGranted(RequiredPermissions, granted))
    case InitSdk => true
    case _ => AfterResult(results).InitSdk?
  }

  /**
   * When the dialog answers for exactly the permissions requested, the gate
   * initialises the SDK if and only if every required permission ends up
   * granted, before the dialog or in it.
   */
  lemma GateInitialisesIffAllRequiredGranted(granted: set<string>, results: map<string, bool>)
    requires results.Keys == set p | p in NotGranted(RequiredPermissions, granted)
    ensures SdkInitialised(granted, results) <==>
      forall p :: p in RequiredPermissions ==> p in granted || (p in results && results[p])
  {
    NotGrantedMembers(RequiredPermissions, granted);
  }

  /** Nothing is left to request exactly when every required permission is granted. */
  lemma {:induction false} NotGrantedEmptyIffAllGranted(required: seq<string>, granted: set<string>)
    ensures NotGranted(required, granted) == [] <==> forall p :: p in required ==> p in granted
    decreases |required|
  {
    if required != [] {
      var n := |required| - 1;
      NotGrantedEmptyIffAllGranted(required[..n], granted);
      assert required == required[..n] + [required[n]];
    }
  }

  /** The check initialises the SDK without a dialog exactly when all thirteen permissions are granted. */
  lemma CheckInitialisesIffAllGranted(granted: set<string>)
    ensures AfterCheck(NotGranted(RequiredPermissions, granted)) == InitSdk <==>
      forall p :: p in RequiredPermissions ==> p in granted
    ensures AfterCheck(NotGranted(RequiredPermissions, granted)) != InitSdk ==>
      AfterCheck(NotGranted(RequiredPermissions, granted)) == Request(NotGranted(RequiredPermissions, granted))
  {
    NotGrantedEmptyIffAllGranted(RequiredPermissions, granted);
  }

  /**
   * An empty answer (the dialog returns no entries, as when it is dismissed)
   * counts as "all granted": `all` over no entries is true.
   */
  lemma EmptyAnswerInitialises()
    ensures AfterResult(map[]) == InitSdk
  {
  }
}

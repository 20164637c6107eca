/**
 * The main activity as an object: the three state variables the composable
 * remembers, updated in place by the connection listener, and the user
 * notifications (toasts) shown so far, kept as a ghost log. The permission
 * gate and the SDK registration callback are methods of the same object,
 * since they are members of the activity and notify through the same toast
 * utility.
 */
module Activity {
  import opened Common
  import opened Connection
  import opened Permissions

  const AlreadyGrantedToast := "Todos los permisos ya concedidos. Inicializando SDK de DJI..."
  const GrantedToast := "Todos los permisos concedidos. Inicializando SDK de DJI..."
  const RefusedToast := "Algunos permisos no fueron concedidos. " + "La aplicación podría no funcionar correctamente."
  const RegisteredToast := "SDK de DJI registrado exitosamente."
  const RegisterFailedPrefix := "Fallo al registrar el SDK de DJI: "

  /** The error object the SDK passes to `onRegister`; only its description is used. */
  datatype SdkError = SdkError(description: string)

  /** The toast `onRegister` shows for a registration outcome (None is success). */
  function RegistrationToast(error: Option<SdkError>): (t: string)
    ensures error.None? ==> t == RegisteredToast
    ensures error.Some? ==>
      |t| == |RegisterFailedPrefix| + |error.value.description| && t[..|RegisterFailedPrefix|] == RegisterFailedPrefix
  {
    match error
    case None => RegisteredToast
    case Some(e) => RegisterFailedPrefix + e.description
  }

  /** A failed registration names its error: the toast ends with the error's description. */
  lemma RegistrationToastNamesError(error: Option<SdkError>)
    ensures error.Some? ==>
      var t := RegistrationToast(error);
      var d := error.value.description;
      |d| < |t| && t[|t| - |d|..] == d && t != RegisteredToast
    ensures error.None? ==> RegistrationToast(error) == "SDK de DJI registrado exitosamente."
  {
    if error.Some? {
      var t := RegistrationToast(error);
      assert |t| == |RegisterFailedPrefix| + |error.value.description|;
      assert t[0] == RegisterFailedPrefix[0] != RegisteredToast[0];
    }
  }

  class MainActivity {
    var screen: AppScreen
    var message: string
    var product: Option<Product>
    ghost var toasts: seq<string>

    /** The state variables as one value. */
    function State(): SessionState
      reads this
    {
      SessionState(screen, message, product)
    }

    ghost predicate Valid()
      reads this
    {
      Invariant(State())
    }

    /** The remembered initial values: LOADING, the start-up message, no product, nothing shown yet. */
    constructor ()
      ensures Valid()
      ensures screen == Loading && message == "Iniciando aplicación..." && product == None
      ensures toasts == []
    {
      screen := Loading;
      message := InitialMessage;
      product := None;
      toasts := [];
    }

    /** `productConnectionListener.onUpdate`; `instance` is what `AircraftManager.getInstance()` returns. */
    method OnUpdate(value: ConnectionState, instance: Option<Product>)
      requires Valid()
      modifies this
      ensures Valid()
      ensures State() == Step(old(State()), Update(value, instance)).next
      ensures toasts == old(toasts) + Step(old(State()), Update(value, instance)).toasts
      ensures value == Connected ==>
        screen == Scan && product == instance && message == ConnectedPrefix + ModelName(instance) &&
        toasts == old(toasts) + [message]
      ensures value == Disconnected ==>
        screen == Loading && product == None && message == DisconnectedMessage &&
        toasts == old(toasts) + [message]
      ensures !Notifies(value) ==>
        screen == old(screen) && product == old(product) && message == FixedMessage(value) &&
        toasts == old(toasts)
    {
      match value {
        case Connected =>
          product := instance;
          message := ConnectedPrefix + ModelName(product);
          toasts := toasts + [message];
          screen := Scan;
        case Disconnected =>
          product := None;
          message := DisconnectedMessage;
          toasts := toasts + [message];
          screen := Loading;
        case Connecting =>
          message := "Conectando al drone...";
        case Disconnecting =>
          message := "Desconectando del drone...";
        case NotActivated =>
          message := "SDK no activado. " + "Por favor, asegúrese de tener una conexión a internet.";
        case NotSupported =>
          message := "Dispositivo no soportado.";
        case Initializing =>
          message := "Inicializando conexión...";
        case Unknown =>
          message := "Estado de conexión desconocido.";
      }
    }

    /**
     * `checkAndRequestPermissions`: `granted` is the set of permissions
     * `checkSelfPermission` reports as granted.
     */
    method CheckAndRequestPermissions(granted: set<string>) returns (action: GateAction)
      modifies this`toasts
      ensures action == AfterCheck(NotGranted(RequiredPermissions, granted))
      ensures action.Request? ==> action.permissions == NotGranted(RequiredPermissions, granted) && toasts == old(toasts)
      ensures action.InitSdk? ==> toasts == old(toasts) + [AlreadyGrantedToast]
    {
      var toRequest := PermissionsToRequest(RequiredPermissions, granted);
      if |toRequest| > 0 {
        action := Request(toRequest);
      } else {
        toasts := toasts + [AlreadyGrantedToast];
        action := InitSdk;
      }
    }

    /** The permission-dialog callback: `results` maps each permission asked for to its answer. */
    method OnPermissionsResult(results: map<string, bool>) returns (action: GateAction)
      modifies this`toasts
      ensures action == AfterResult(results)
      ensures action.InitSdk? ==> toasts == old(toasts) + [GrantedToast]
      ensures action.Warn? ==> toasts == old(toasts) + [RefusedToast]
    {
      if AllGranted(results) {
        toasts := toasts + [GrantedToast];
        action := InitSdk;
      } else {
        toasts := toasts + [RefusedToast];
        action := Warn;
      }
    }

    /** `onRegister`: one toast, and the screen state is left alone. */
    method OnRegister(error: Option<SdkError>)
      modifies this`toasts
      ensures toasts == old(toasts) + [RegistrationToast(error)]
      ensures screen == old(screen) && message == old(message) && product == old(product)
    {
      match error {
        case None =>
          toasts := toasts + [RegisteredToast];
        case Some(e) =>
          toasts := toasts + [RegisterFailedPrefix + e.description];
      }
    }
  }
}

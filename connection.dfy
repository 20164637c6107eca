/**
 * The product-connection state machine of the main activity: the state the
 * composable keeps (current screen, loading message, connected product) and
 * the effect of one `onUpdate(DeviceConnectionState)` callback on it.
 *
 * The vendor SDK is replaced by inputs: the connection state delivered to the
 * listener, and the aircraft instance that `AircraftManager.getInstance()`
 * returns when the state is CONNECTED. A toast shown by the handler is an
 * output of the step.
 */
module Connection {
  import opened Common

  /** The vendor's DeviceConnectionState enumeration, all eight values. */
  datatype ConnectionState =
    | Connected
    | Disconnected
    | Connecting
    | Disconnecting
    | NotActivated
    | NotSupported
    | Initializing
    | Unknown

  /** The two screens of the application (enum AppScreen). */
  datatype AppScreen = Loading | Scan

  /** A product model; its `name` is the name of a Kotlin enum constant and is never null. */
  datatype ProductModel = ProductModel(name: string)

  /** The connected aircraft as the SDK reports it; its model may be unknown. */
  datatype Product = Product(model: Option<ProductModel>)

  /** The three state variables remembered by the composable. */
  datatype SessionState = SessionState(screen: AppScreen, message: string, product: Option<Product>)

  /** One listener callback: the state delivered and the aircraft instance available at that moment. */
  datatype Update = Update(value: ConnectionState, instance: Option<Product>)

  const InitialMessage := "Iniciando aplicación..."
  const UnknownModel := "Desconocido"
  const ConnectedPrefix := "Drone conectado: "
  const DisconnectedMessage := "Drone desconectado."

  /** Screen LOADING, the start-up message, no product. */
  const Initial := SessionState(Loading, InitialMessage, None)

  /** The model's name when a product with a model is present, "Desconocido" otherwise. */
  function ModelName(product: Option<Product>): (n: string)
    ensures product.Some? && product.value.model.Some? ==> n == product.value.model.value.name
    ensures product.None? || product.value.model.None? ==> n == UnknownModel
  {
    match product
    case Some(Product(Some(model))) => model.name
    case _ => UnknownModel
  }

  function ConnectedMessage(product: Option<Product>): string {
    ConnectedPrefix + ModelName(product)
  }

  /** The fixed message of each state other than CONNECTED. */
  function FixedMessage(value: ConnectionState): string
    requires value != Connected
  {
    match value
    case Disconnected => DisconnectedMessage
    case Connecting => "Conectando al drone..."
    case Disconnecting => "Desconectando del drone..."
    case NotActivated => "SDK no activado. " + "Por favor, asegúrese de tener una conexión a internet."
    case NotSupported => "Dispositivo no soportado."
    case Initializing => "Inicializando conexión..."
    case Unknown => "Estado de conexión desconocido."
  }

  /** The message an update leaves behind, whatever the state before it. */
  function MessageFor(u: Update): string {
    if u.value == Connected then ConnectedMessage(u.instance) else FixedMessage(u.value)
  }

  predicate StartsWith(s: string, prefix: string) {
    |prefix| <= |s| && s[..|prefix|] == prefix
  }

  /** True of the two states that switch the screen and notify the user. */
  predicate Notifies(value: ConnectionState) {
    value == Connected || value == Disconnected
  }

  /** Result of one callback: the new state and the toasts shown, in order. */
  datatype StepResult = StepResult(next: SessionState, toasts: seq<string>)

  /** The `when (value)` of `onUpdate`. */
  function Step(s: SessionState, u: Update): (r: StepResult)
    // at most one toast, exactly for the two notifying states, and it repeats the new message
    ensures |r.toasts| <= 1 && (r.toasts != [] <==> Notifies(u.value))
    ensures r.toasts != [] ==> r.toasts[0] == r.next.message
    // a notifying update decides the screen and the product on its own ...
    ensures Notifies(u.value) ==>
      r.next.screen == (if u.value == Connected then Scan else Loading) &&
      r.next.product == (if u.value == Connected then u.instance else None)
    // ... and any other one changes only the message
    ensures !Notifies(u.value) ==> r.next == s.(message := r.next.message)
  {
    match u.value
    case Connected =>
      var m := ConnectedMessage(u.instance);
      StepResult(SessionState(Scan, m, u.instance), [m])
    case Disconnected =>
      StepResult(SessionState(Loading, DisconnectedMessage, None), [DisconnectedMessage])
    case _ =>
      StepResult(s.(message := FixedMessage(u.value)), [])
  }

  /** A sequence of callbacks delivered in order; the toasts of all of them, concatenated. */
  function Run(s: SessionState, updates: seq<Update>): StepResult
    decreases |updates|
  {
    if updates == [] then StepResult(s, [])
    else
      var before := Run(s, updates[..|updates| - 1]);
      var last := Step(before.next, updates[|updates| - 1]);
      StepResult(last.next, before.toasts + last.toasts)
  }

  /** The state invariant: on the loading screen no product is remembered. */
  ghost predicate Invariant(s: SessionState) {
    s.screen == Loading ==> s.product.None?
  }

  /** What the activity shows (the `when (currentScreen)` dispatch). */
  datatype View = LoadingView(message: string) | ScanView(product: Option<Product>)

  function Render(s: SessionState): (v: View)
    ensures v.LoadingView? <==> s.screen == Loading
    ensures v.LoadingView? ==> v.message == s.message
    ensures v.ScanView? ==> v.product == s.product
  {
    match s.screen
    case Loading => LoadingView(s.message)
    case Scan => ScanView(s.product)
  }

  /** There is a CONNECTED update in the trace with no DISCONNECTED after it. */
  ghost predicate ConnectedSinceLastDisconnect(updates: seq<Update>) {
    exists i :: 0 <= i < |updates| && updates[i].value == Connected &&
      forall j :: i < j < |updates| ==> updates[j].value != Disconnected
  }

  /** Number of updates in the trace whose state is CONNECTED or DISCONNECTED. */
  function NotifyingCount(updates: seq<Update>): nat
    decreases |updates|
  {
    if updates == [] then 0
    else NotifyingCount(updates[..|updates| - 1]) + (if Notifies(updates[|updates| - 1].value) then 1 else 0)
  }

  // ---------------------------------------------------------------------
  // One callback
  // ---------------------------------------------------------------------

  /** CONNECTED: the screen becomes SCAN, the instance is remembered, and one toast repeats the new message. */
  lemma ConnectedStep(s: SessionState, instance: Option<Product>)
    ensures var r := Step(s, Update(Connected, instance));
      r.next.screen == Scan && r.next.product == instance &&
      r.next.message == ConnectedPrefix + ModelName(instance) &&
      r.toasts == [r.next.message]
    ensures (instance.None? || instance.value.model.None?) ==>
      Step(s, Update(Connected, instance)).next.message == "Drone conectado: Desconocido"
    ensures instance.Some? && instance.value.model.Some? ==>
      Step(s, Update(Connected, instance)).next.message == "Drone conectado: " + instance.value.model.value.name
  {
  }

  /** DISCONNECTED: back to LOADING with no product, and one toast repeating the message. */
  lemma DisconnectedStep(s: SessionState, instance: Option<Product>)
    ensures Step(s, Update(Disconnected, instance)) ==
      StepResult(SessionState(Loading, "Drone desconectado.", None), ["Drone desconectado."])
  {
  }

  /** The six other states change the message only, and show no toast. */
  lemma QuietStep(s: SessionState, u: Update)
    requires !Notifies(u.value)
    ensures Step(s, u).next.screen == s.screen
    ensures Step(s, u).next.product == s.product
    ensures Step(s, u).next.message == FixedMessage(u.value)
    ensures Step(s, u).toasts == []
  {
  }

  /**
   * Each of the other six states has its own message: none repeats another,
   * the disconnect message, or looks like a connect message.
   */
  lemma FixedMessagesDistinct(a: ConnectionState, b: ConnectionState)
    requires a != Connected && b != Connected
    ensures FixedMessage(a) == FixedMessage(b) ==> a == b
    ensures !StartsWith(FixedMessage(a), ConnectedPrefix)
  {
    match a
    case Disconnected => DiffersAt(FixedMessage(a), ConnectedPrefix, 6);
    case Disconnecting => DiffersAt(FixedMessage(a), ConnectedPrefix, 1);
    case NotSupported => DiffersAt(FixedMessage(a), ConnectedPrefix, 1);
    case Connecting => DiffersAt(FixedMessage(a), ConnectedPrefix, 0);
    case NotActivated => DiffersAt(FixedMessage(a), ConnectedPrefix, 0);
    case Initializing => DiffersAt(FixedMessage(a), ConnectedPrefix, 0);
    case Unknown => DiffersAt(FixedMessage(a), ConnectedPrefix, 0);
  }

  /** A string that differs from a prefix at one of its positions does not start with it. */
  lemma DiffersAt(s: string, prefix: string, k: nat)
    requires k < |s| && k < |prefix| && s[k] != prefix[k]
    ensures !StartsWith(s, prefix)
  {
    if |prefix| <= |s| {
      assert s[..|prefix|][k] != prefix[k];
    }
  }

  /** Every state has a message, and SCAN is the outcome of CONNECTED alone. */
  lemma StepScreen(s: SessionState, u: Update)
    ensures Step(s, u).next.screen == Scan <==>
      (u.value == Connected || (s.screen == Scan && u.value != Disconnected))
    ensures Step(s, u).next.message == MessageFor(u)
    ensures Step(s, u).toasts == (if Notifies(u.value) then [MessageFor(u)] else [])
  {
  }

  /** The handler keeps the invariant. */
  lemma StepKeepsInvariant(s: SessionState, u: Update)
    requires Invariant(s)
    ensures Invariant(Step(s, u).next)
  {
  }

  /** Identical CONNECTED or DISCONNECTED callbacks are not merged: two of them show two equal toasts. */
  lemma RepeatedNotificationNotDeduplicated(s: SessionState, u: Update)
    requires Notifies(u.value)
    ensures var r := Run(s, [u, u]);
      |r.toasts| == 2 && r.toasts[0] == r.toasts[1] == MessageFor(u)
  {
    assert [u, u][..1] == [u];
    assert [u][..0] == [];
    var once := Run(s, [u]);
    assert Run(s, []) == StepResult(s, []);
    assert once.next == Step(s, u).next && once.toasts == Step(s, u).toasts;
    StepScreen(s, u);
    StepScreen(once.next, u);
    assert Run(s, [u, u]).toasts == once.toasts + Step(once.next, u).toasts;
  }

  // ---------------------------------------------------------------------
  // Sequences of callbacks
  // ---------------------------------------------------------------------

  /** The initial state, and every state reached from it, keeps the invariant. */
  lemma {:induction false} RunKeepsInvariant(updates: seq<Update>)
    ensures Invariant(Run(Initial, updates).next)
    decreases |updates|
  {
    if updates != [] {
      RunKeepsInvariant(updates[..|updates| - 1]);
      StepKeepsInvariant(Run(Initial, updates[..|updates| - 1]).next, updates[|updates| - 1]);
    }
  }

  /** SCAN is reached only through CONNECTED, and is left only through DISCONNECTED. */
  lemma {:induction false} ScanIffConnectedSinceLastDisconnect(updates: seq<Update>)
    ensures Run(Initial, updates).next.screen == Scan <==> ConnectedSinceLastDisconnect(updates)
    decreases |updates|
  {
    if updates != [] {
      var n := |updates| - 1;
      var prefix := updates[..n];
      ScanIffConnectedSinceLastDisconnect(prefix);
      var last := updates[n];
      if last.value == Connected {
        assert updates[n].value == Connected;
      } else if last.value == Disconnected {
        forall i | 0 <= i < |updates| && updates[i].value == Connected
          ensures exists j :: i < j < |updates| && updates[j].value == Disconnected
        {
          assert updates[n].value == Disconnected;
        }
      } else {
        if ConnectedSinceLastDisconnect(prefix) {
          var i :| 0 <= i < |prefix| && prefix[i].value == Connected &&
            forall j :: i < j < |prefix| ==> prefix[j].value != Disconnected;
          assert updates[i].value == Connected;
          forall j | i < j < |updates| ensures updates[j].value != Disconnected {
            if j < n { assert updates[j] == prefix[j]; }
          }
        }
        if ConnectedSinceLastDisconnect(updates) {
          var i :| 0 <= i < |updates| && updates[i].value == Connected &&
            forall j :: i < j < |updates| ==> updates[j].value != Disconnected;
          assert i < n;
          assert prefix[i].value == Connected;
          forall j | i < j < |prefix| ensures prefix[j].value != Disconnected {
            assert prefix[j] == updates[j];
          }
        }
      }
    }
  }

  /** One toast per CONNECTED or DISCONNECTED callback: nothing is deduplicated, nothing else notifies. */
  lemma {:induction false} ToastsCountNotifyingUpdates(s: SessionState, updates: seq<Update>)
    ensures |Run(s, updates).toasts| == NotifyingCount(updates)
    decreases |updates|
  {
    if updates != [] {
      ToastsCountNotifyingUpdates(s, updates[..|updates| - 1]);
      StepScreen(Run(s, updates[..|updates| - 1]).next, updates[|updates| - 1]);
    }
  }

  /** The message keeps no history: it is the message of the last callback, or the start-up message. */
  lemma MessageOfLastUpdate(s: SessionState, updates: seq<Update>)
    ensures Run(s, updates).next.message ==
      if updates == [] then s.message else MessageFor(updates[|updates| - 1])
  {
    if updates != [] {
      StepScreen(Run(s, updates[..|updates| - 1]).next, updates[|updates| - 1]);
    }
  }

  /** The scan screen is shown exactly when a CONNECTED callback has not been followed by a DISCONNECTED one. */
  lemma RenderAfterRun(updates: seq<Update>)
    ensures Render(Run(Initial, updates).next).ScanView? <==> ConnectedSinceLastDisconnect(updates)
    ensures Render(Run(Initial, updates).next).LoadingView? ==> Run(Initial, updates).next.product.None?
  {
    ScanIffConnectedSinceLastDisconnect(updates);
    RunKeepsInvariant(updates);
  }
}

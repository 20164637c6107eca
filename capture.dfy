/**
 * The capture simulator of the scan screen: the `LaunchedEffect(product)`
 * block and the callbacks it registers. The camera-mode and shoot-mode
 * setters answer through callbacks, and two delayed handler posts stand in
 * for the capture and the code read; each of these is an event here, and the
 * callbacks that have been registered and not yet delivered are kept as a
 * multiset. Nothing in the screen cancels them, so a later change of product
 * does not remove them.
 *
 * `CameraManager.getInstance() != null` is an input of each run of the
 * effect; the placeholder bitmap is an opaque token.
 */
module Capture {
  import opened Common
  import opened Connection

  /** The bundled placeholder bitmap. */
  datatype Image = PlaceholderDroneImage

  /** What a vendor completion callback reports. */
  datatype CallResult = Success | Failure(description: string)

  /** A callback registered with the camera manager or the handler and not yet delivered. */
  datatype Callback = CameraModeCallback | ShootModeCallback | ScanTimer | CodeTimer

  datatype ScanEvent =
    | ProductChanged(product: Option<Product>, cameraAvailable: bool)  // recomposition with this product
    | CameraModeResult(result: CallResult)                              // setCameraMode answers
    | ShootModeResult(result: CallResult)                               // setShootPhotoMode answers
    | Timer1                                                            // the 5000 ms post fires
    | Timer2                                                            // the 2000 ms post fires

  /** The key of the effect, `scanningText`, `capturedImage`, and the callbacks in flight. */
  datatype ScanState = ScanState(product: Option<Product>, text: string, image: Option<Image>, pending: multiset<Callback>)

  /** The new state and the toasts shown, in order. */
  datatype ScanStep = ScanStep(next: ScanState, toasts: seq<string>)

  const WaitingText := "Esperando drone..."
  const NoProductText := "Esperando conexión con el drone..."
  const ScannedText := "Escaneo completado. Procesando imagen..."
  const ScannedCode := "QR_CODE_EXAMPLE_12345"
  const CodeText := "Código detectado: " + ScannedCode

  const NoCameraToast := "CameraManager no disponible."
  const CameraModeToast := "Cámara en modo foto."
  const ShootModeToast := "Modo de disparo: Sencillo."
  const CameraModeErrorPrefix := "Error al establecer modo foto: "
  const ShootModeErrorPrefix := "Error al establecer modo de disparo: "
  const PhotoCapturedToast := "Foto capturada y lista para procesar!"

  /** One run of the effect body for the product in `st.product`. */
  function Effect(st: ScanState, cameraAvailable: bool): (e: ScanStep)
    ensures e.next.product == st.product
    // the image is cleared only when there is no product
    ensures e.next.image == (if st.product.None? then None else st.image)
    // the camera-mode request goes out only for a product with a camera
    ensures e.next.pending ==
      st.pending + (if st.product.Some? && cameraAvailable then multiset{CameraModeCallback} else multiset{})
    // the only toast is the missing-camera warning
    ensures e.toasts == (if st.product.Some? && !cameraAvailable then [NoCameraToast] else [])
  {
    match st.product
    case None =>
      ScanStep(st.(text := NoProductText, image := None), [])
    case Some(_) =>
      var shown := st.(text := ConnectedPrefix + ModelName(st.product));
      if cameraAvailable then
        ScanStep(shown.(pending := shown.pending + multiset{CameraModeCallback}), [])
      else
        ScanStep(shown, [NoCameraToast])
  }

  /** First composition: the remembered initial values, then the effect runs once. */
  function Launch(product: Option<Product>, cameraAvailable: bool): (l: ScanStep)
    ensures l.next.product == product && l.next.image.None?
    ensures l.next.pending == (if product.Some? && cameraAvailable then multiset{CameraModeCallback} else multiset{})
    ensures product.None? ==> l.next.text == NoProductText
  {
    Effect(ScanState(product, WaitingText, None, multiset{}), cameraAvailable)
  }

  /** The callback an event delivers, if it delivers one. */
  function Awaited(ev: ScanEvent): Option<Callback> {
    match ev
    case ProductChanged(_, _) => None
    case CameraModeResult(_) => Some(CameraModeCallback)
    case ShootModeResult(_) => Some(ShootModeCallback)
    case Timer1 => Some(ScanTimer)
    case Timer2 => Some(CodeTimer)
  }

  /** An event can happen: a recomposition, or a callback that is in flight. */
  predicate Deliverable(st: ScanState, ev: ScanEvent) {
    match Awaited(ev)
    case None => true
    case Some(c) => c in st.pending
  }

  /**
   * One event. The effect restarts only when the product differs from its key;
   * a callback that is not in flight cannot be delivered and changes nothing.
   */
  function Fire(st: ScanState, ev: ScanEvent): (r: ScanStep)
    ensures !Deliverable(st, ev) ==> r == ScanStep(st, [])
    ensures |r.toasts| <= 1
    // only a recomposition moves the key, and only it or the first timer touches the image
    ensures !ev.ProductChanged? ==> r.next.product == st.product
    ensures r.next.image != st.image ==> ev.ProductChanged? || ev == Timer1
  {
    if !Deliverable(st, ev) then ScanStep(st, [])
    else
      match ev
      case ProductChanged(p, cameraAvailable) =>
        if p == st.product then ScanStep(st, [])
        else Effect(st.(product := p), cameraAvailable)
      case CameraModeResult(r) =>
        var rest := st.pending - multiset{CameraModeCallback};
        if r.Success? then ScanStep(st.(pending := rest + multiset{ShootModeCallback}), [CameraModeToast])
        else ScanStep(st.(pending := rest), [CameraModeErrorPrefix + r.description])
      case ShootModeResult(r) =>
        var rest := st.pending - multiset{ShootModeCallback};
        if r.Success? then ScanStep(st.(pending := rest + multiset{ScanTimer}), [ShootModeToast])
        else ScanStep(st.(pending := rest), [ShootModeErrorPrefix + r.description])
      case Timer1 =>
        var rest := st.pending - multiset{ScanTimer};
        ScanStep(ScanState(st.product, ScannedText, Some(PlaceholderDroneImage), rest + multiset{CodeTimer}),
                 [PhotoCapturedToast])
      case Timer2 =>
        ScanStep(st.(text := CodeText, pending := st.pending - multiset{CodeTimer}), [CodeText])
  }

  /** The state after a sequence of events. */
  function RunScan(st: ScanState, events: seq<ScanEvent>): ScanState
    decreases |events|
  {
    if events == [] then st
    else Fire(RunScan(st, events[..|events| - 1]), events[|events| - 1]).next
  }

  // ---------------------------------------------------------------------
  // One event
  // ---------------------------------------------------------------------

  /** Without a product the text asks for a connection and the image is cleared; callbacks in flight stay. */
  lemma EffectWithoutProduct(st: ScanState, cameraAvailable: bool)
    requires st.product.None?
    ensures var r := Effect(st, cameraAvailable);
      r.next.text == "Esperando conexión con el drone..." && r.next.image.None? &&
      r.next.pending == st.pending && r.toasts == []
  {
  }

  /**
   * With a product the text names its model (or "Desconocido"), the image is
   * kept, and the camera-mode setter is called when a camera manager exists.
   */
  lemma EffectWithProduct(st: ScanState, cameraAvailable: bool)
    requires st.product.Some?
    ensures var r := Effect(st, cameraAvailable);
      r.next.text == "Drone conectado: " + ModelName(st.product) && r.next.image == st.image &&
      r.next.pending == (if cameraAvailable then st.pending + multiset{CameraModeCallback} else st.pending) &&
      r.toasts == (if cameraAvailable then [] else ["CameraManager no disponible."])
    ensures st.product.value.model.None? ==> Effect(st, cameraAvailable).next.text == "Drone conectado: Desconocido"
  {
  }

  /** Recomposing with the same product does not restart the effect. */
  lemma SameProductNoRestart(st: ScanState, cameraAvailable: bool)
    ensures Fire(st, ProductChanged(st.product, cameraAvailable)) == ScanStep(st, [])
  {
  }

  /** A failed setter shows its error and leaves the text, the image and the key alone; nothing more is scheduled. */
  lemma SetterFailureKeepsView(st: ScanState, ev: ScanEvent)
    requires ev.CameraModeResult? || ev.ShootModeResult?
    requires ev.result.Failure?
    requires Deliverable(st, ev)
    ensures var r := Fire(st, ev);
      r.next.text == st.text && r.next.image == st.image && r.next.product == st.product &&
      r.next.pending == st.pending - multiset{Awaited(ev).value} &&
      |r.toasts| == 1 &&
      r.toasts[0] == (if ev.CameraModeResult? then CameraModeErrorPrefix else ShootModeErrorPrefix) + ev.result.description
  {
  }

  /** A successful setter confirms with a toast, leaves the view and the key alone, and schedules the next stage. */
  lemma SetterSuccessSchedulesNext(st: ScanState, ev: ScanEvent)
    requires ev.CameraModeResult? || ev.ShootModeResult?
    requires ev.result.Success?
    requires Deliverable(st, ev)
    ensures var r := Fire(st, ev);
      r.next.text == st.text && r.next.image == st.image && r.next.product == st.product &&
      r.next.pending == st.pending - multiset{Awaited(ev).value} +
        multiset{if ev.CameraModeResult? then ShootModeCallback else ScanTimer} &&
      r.toasts == [if ev.CameraModeResult? then CameraModeToast else ShootModeToast]
  {
  }

  /** The first timer shows the placeholder, says that processing started, and posts the second timer. */
  lemma ScanTimerCaptures(st: ScanState)
    requires ScanTimer in st.pending
    ensures var r := Fire(st, Timer1);
      r.next.image == Some(PlaceholderDroneImage) &&
      r.next.text == "Escaneo completado. Procesando imagen..." &&
      r.next.pending == st.pending - multiset{ScanTimer} + multiset{CodeTimer} &&
      r.toasts == ["Foto capturada y lista para procesar!"]
  {
  }

  /** The second timer reports the canned code, keeping the image. */
  lemma CodeTimerReportsCode(st: ScanState)
    requires CodeTimer in st.pending
    ensures var r := Fire(st, Timer2);
      r.next.text == "Código detectado: QR_CODE_EXAMPLE_12345" && r.next.image == st.image &&
      r.toasts == [r.next.text]
  {
  }

  // ---------------------------------------------------------------------
  // Sequences of events
  // ---------------------------------------------------------------------

  /** A state from which no stage of the capture has happened yet. */
  ghost predicate Fresh(st: ScanState) {
    ShootModeCallback !in st.pending && ScanTimer !in st.pending && CodeTimer !in st.pending &&
    st.image.None? && st.text != CodeText
  }

  /** Event `i` of `t` is `ev`, and it was deliverable when it arrived after `st0` and the events before it. */
  ghost predicate DeliveredAt(st0: ScanState, t: seq<ScanEvent>, i: nat, ev: ScanEvent) {
    i < |t| && t[i] == ev && Deliverable(RunScan(st0, t[..i]), ev)
  }

  /** Among the first `n` events there is a delivered successful camera-mode answer. */
  ghost predicate CameraOkBefore(st0: ScanState, t: seq<ScanEvent>, n: nat) {
    exists i: nat :: i < n && DeliveredAt(st0, t, i, CameraModeResult(Success))
  }

  /** ... and after it, still among the first `n`, a delivered successful shoot-mode answer. */
  ghost predicate ShootOkBefore(st0: ScanState, t: seq<ScanEvent>, n: nat) {
    exists j: nat :: j < n && DeliveredAt(st0, t, j, ShootModeResult(Success)) && CameraOkBefore(st0, t, j)
  }

  /** ... and after that the first timer, delivered. */
  ghost predicate ScanBefore(st0: ScanState, t: seq<ScanEvent>, n: nat) {
    exists k: nat :: k < n && DeliveredAt(st0, t, k, Timer1) && ShootOkBefore(st0, t, k)
  }

  /** ... and after that the second timer, delivered. */
  ghost predicate CodeBefore(st0: ScanState, t: seq<ScanEvent>, n: nat) {
    exists l: nat :: l < n && DeliveredAt(st0, t, l, Timer2) && ScanBefore(st0, t, l)
  }

  /** What each later stage of `st` says about the first `n` events of `t`. */
  ghost predicate Explained(st0: ScanState, st: ScanState, t: seq<ScanEvent>, n: nat) {
    (ShootModeCallback in st.pending ==> CameraOkBefore(st0, t, n)) &&
    (ScanTimer in st.pending ==> ShootOkBefore(st0, t, n)) &&
    ((st.image.Some? || CodeTimer in st.pending) ==> ScanBefore(st0, t, n)) &&
    (st.text == CodeText ==> CodeBefore(st0, t, n))
  }

  /** No recomposition text is the code text. */
  lemma EffectTextIsNotCode(st: ScanState, cameraAvailable: bool)
    ensures Effect(st, cameraAvailable).next.text != CodeText
  {
    var text := Effect(st, cameraAvailable).next.text;
    assert CodeText[0] == 'C';
    if st.product.Some? {
      assert text[0] == ConnectedPrefix[0] == 'D';
    } else {
      assert text[0] == 'E';
    }
  }

  /** The first run of the effect leaves a fresh state. */
  lemma LaunchIsFresh(product: Option<Product>, cameraAvailable: bool)
    ensures Fresh(Launch(product, cameraAvailable).next)
  {
    EffectTextIsNotCode(ScanState(product, WaitingText, None, multiset{}), cameraAvailable);
  }

  /** The four history facts survive one more event. */
  lemma Widen(st0: ScanState, t: seq<ScanEvent>, m: nat)
    ensures CameraOkBefore(st0, t, m) ==> CameraOkBefore(st0, t, m + 1)
    ensures ShootOkBefore(st0, t, m) ==> ShootOkBefore(st0, t, m + 1)
    ensures ScanBefore(st0, t, m) ==> ScanBefore(st0, t, m + 1)
    ensures CodeBefore(st0, t, m) ==> CodeBefore(st0, t, m + 1)
  {
  }

  /** A recomposition keeps the history explained. */
  lemma ExplainedProductChanged(st0: ScanState, prev: ScanState, t: seq<ScanEvent>, m: nat)
    requires m < |t|
    requires prev == RunScan(st0, t[..m]) && t[m].ProductChanged?
    requires Explained(st0, prev, t, m)
    ensures Explained(st0, Fire(prev, t[m]).next, t, m + 1)
  {
    Widen(st0, t, m);
    if t[m].product != prev.product {
      EffectTextIsNotCode(prev.(product := t[m].product), t[m].cameraAvailable);
    }
  }

  /** A camera-mode answer keeps the history explained; a success is the fact a shoot-mode call needs. */
  lemma ExplainedCameraMode(st0: ScanState, prev: ScanState, t: seq<ScanEvent>, m: nat)
    requires m < |t|
    requires prev == RunScan(st0, t[..m]) && t[m].CameraModeResult?
    requires Explained(st0, prev, t, m)
    ensures Explained(st0, Fire(prev, t[m]).next, t, m + 1)
  {
    Widen(st0, t, m);
    var next := Fire(prev, t[m]).next;
    assert next.text == prev.text && next.image == prev.image;
    assert ScanTimer in next.pending ==> ScanTimer in prev.pending;
    assert CodeTimer in next.pending ==> CodeTimer in prev.pending;
    if ShootModeCallback in next.pending && ShootModeCallback !in prev.pending {
      assert Deliverable(prev, t[m]) && t[m] == CameraModeResult(Success);
      assert DeliveredAt(st0, t, m, CameraModeResult(Success));
    }
  }

  /** A shoot-mode answer keeps the history explained. */
  lemma ExplainedShootMode(st0: ScanState, prev: ScanState, t: seq<ScanEvent>, m: nat)
    requires m < |t|
    requires prev == RunScan(st0, t[..m]) && t[m].ShootModeResult?
    requires Explained(st0, prev, t, m)
    ensures Explained(st0, Fire(prev, t[m]).next, t, m + 1)
  {
    Widen(st0, t, m);
    var next := Fire(prev, t[m]).next;
    assert next.text == prev.text && next.image == prev.image;
    assert ShootModeCallback in next.pending ==> ShootModeCallback in prev.pending;
    assert CodeTimer in next.pending ==> CodeTimer in prev.pending;
    if ScanTimer in next.pending && ScanTimer !in prev.pending {
      assert Deliverable(prev, t[m]) && t[m] == ShootModeResult(Success);
      assert DeliveredAt(st0, t, m, ShootModeResult(Success));
      assert ShootOkBefore(st0, t, m + 1);
    }
  }

  /** The first timer keeps the history explained. */
  lemma ExplainedScanTimer(st0: ScanState, prev: ScanState, t: seq<ScanEvent>, m: nat)
    requires m < |t|
    requires prev == RunScan(st0, t[..m]) && t[m] == Timer1
    requires Explained(st0, prev, t, m)
    ensures Explained(st0, Fire(prev, t[m]).next, t, m + 1)
  {
    Widen(st0, t, m);
    if ScanTimer in prev.pending {
      var next := Fire(prev, t[m]).next;
      assert next.text == ScannedText;
      assert ScannedText[0] != CodeText[0];
      assert ShootModeCallback in next.pending ==> ShootModeCallback in prev.pending;
      assert DeliveredAt(st0, t, m, Timer1);
      assert ScanBefore(st0, t, m + 1);
    }
  }

  /** The second timer keeps the history explained. */
  lemma ExplainedCodeTimer(st0: ScanState, prev: ScanState, t: seq<ScanEvent>, m: nat)
    requires m < |t|
    requires prev == RunScan(st0, t[..m]) && t[m] == Timer2
    requires Explained(st0, prev, t, m)
    ensures Explained(st0, Fire(prev, t[m]).next, t, m + 1)
  {
    Widen(st0, t, m);
    if CodeTimer in prev.pending {
      var next := Fire(prev, t[m]).next;
      assert next.image == prev.image;
      assert ShootModeCallback in next.pending ==> ShootModeCallback in prev.pending;
      assert ScanTimer in next.pending ==> ScanTimer in prev.pending;
      assert DeliveredAt(st0, t, m, Timer2);
      assert CodeBefore(st0, t, m + 1);
    }
  }

  /** One event keeps the history explained. */
  lemma ExplainedStep(st0: ScanState, prev: ScanState, t: seq<ScanEvent>, m: nat)
    requires m < |t|
    requires prev == RunScan(st0, t[..m])
    requires Explained(st0, prev, t, m)
    ensures Explained(st0, Fire(prev, t[m]).next, t, m + 1)
  {
    match t[m] {
      case ProductChanged(_, _) => ExplainedProductChanged(st0, prev, t, m);
      case CameraModeResult(_) => ExplainedCameraMode(st0, prev, t, m);
      case ShootModeResult(_) => ExplainedShootMode(st0, prev, t, m);
      case Timer1 => ExplainedScanTimer(st0, prev, t, m);
      case Timer2 => ExplainedCodeTimer(st0, prev, t, m);
    }
  }

  lemma {:induction false} ExplainedAt(st: ScanState, t: seq<ScanEvent>, n: nat)
    requires Fresh(st)
    requires n <= |t|
    ensures Explained(st, RunScan(st, t[..n]), t, n)
    decreases n
  {
    if n > 0 {
      var m := n - 1;
      ExplainedAt(st, t, m);
      assert t[..n][..m] == t[..m];
      ExplainedStep(st, RunScan(st, t[..m]), t, m);
    }
  }

  /**
   * Whatever the order in which the environment delivers events after a
   * fresh state (one `Launch` leaves), after each prefix of the events
   * `t[..n]`: the image is shown, or the second
   * timer is in flight, only after a successful camera-mode callback, then a
   * successful shoot-mode callback, then the first timer, each of them
   * delivered while the screen was waiting for it; and the code is
   * reported only after all of those and the second timer.
   */
  lemma CaptureFollowsSetters(st: ScanState, t: seq<ScanEvent>, n: nat)
    requires Fresh(st) && n <= |t|
    ensures var last := RunScan(st, t[..n]);
      ((last.image.Some? || CodeTimer in last.pending) ==> ScanBefore(st, t, n)) &&
      (last.text == CodeText ==> CodeBefore(st, t, n)) &&
      (ScanTimer in last.pending ==> ShootOkBefore(st, t, n))
  {
    ExplainedAt(st, t, n);
  }

  /**
   * Callbacks in flight outlive a change of product: a capture set up for a
   * product still shows its image after the product is gone.
   */
  lemma ScanTimerOutlivesProduct(p: Product)
    ensures var t := [CameraModeResult(Success), ShootModeResult(Success), ProductChanged(None, true), Timer1];
      var st := RunScan(Launch(Some(p), true).next, t);
      st.product.None? && st.image == Some(PlaceholderDroneImage) && st.text == ScannedText
  {
    var s0 := Launch(Some(p), true).next;
    assert s0.pending == multiset{CameraModeCallback};
    var s1 := Fire(s0, CameraModeResult(Success)).next;
    assert s1.pending == multiset{ShootModeCallback};
    var s2 := Fire(s1, ShootModeResult(Success)).next;
    assert s2.pending == multiset{ScanTimer};
    var s3 := Fire(s2, ProductChanged(None, true)).next;
    assert s3.product.None? && s3.pending == multiset{ScanTimer};
    var s4 := Fire(s3, Timer1).next;
    assert s4.product.None? && s4.image == Some(PlaceholderDroneImage) && s4.text == ScannedText;
    assert [] + [CameraModeResult(Success)] == [CameraModeResult(Success)];
    assert [CameraModeResult(Success)] + [ShootModeResult(Success)] == [CameraModeResult(Success), ShootModeResult(Success)];
    assert [CameraModeResult(Success), ShootModeResult(Success)] + [ProductChanged(None, true)] ==
      [CameraModeResult(Success), ShootModeResult(Success), ProductChanged(None, true)];
    assert [CameraModeResult(Success), ShootModeResult(Success), ProductChanged(None, true)] + [Timer1] ==
      [CameraModeResult(Success), ShootModeResult(Success), ProductChanged(None, true), Timer1];
    RunScanAppend(s0, [], CameraModeResult(Success));
    RunScanAppend(s0, [CameraModeResult(Success)], ShootModeResult(Success));
    RunScanAppend(s0, [CameraModeResult(Success), ShootModeResult(Success)], ProductChanged(None, true));
    RunScanAppend(s0, [CameraModeResult(Success), ShootModeResult(Success), ProductChanged(None, true)], Timer1);
  }

  /** Running one more event is firing it after the others. */
  lemma RunScanAppend(st: ScanState, t: seq<ScanEvent>, ev: ScanEvent)
    ensures RunScan(st, t + [ev]) == Fire(RunScan(st, t), ev).next
  {
    assert (t + [ev])[..|t|] == t;
  }

  /** The scan screen as an object: the fields the callbacks assign, and the toasts shown. */
  class ScanScreen {
    var product: Option<Product>
    var scanningText: string
    var capturedImage: Option<Image>
    ghost var pending: multiset<Callback>
    ghost var toasts: seq<string>

    ghost function State(): ScanState
      reads this
    {
      ScanState(product, scanningText, capturedImage, pending)
    }

    /** First composition with `product`: the remembered initial values, then the effect. */
    constructor (product: Option<Product>, cameraAvailable: bool)
      ensures State() == Launch(product, cameraAvailable).next
      ensures toasts == Launch(product, cameraAvailable).toasts
      ensures capturedImage.None? && this.product == product
    {
      this.product := product;
      scanningText := WaitingText;
      capturedImage := None;
      pending := multiset{};
      toasts := [];
      new;
      RunEffect(cameraAvailable);
    }

    /** The body of `LaunchedEffect(product)`. */
    method RunEffect(cameraAvailable: bool)
      modifies this
      ensures State() == Effect(old(State()), cameraAvailable).next
      ensures toasts == old(toasts) + Effect(old(State()), cameraAvailable).toasts
    {
      if product.Some? {
        scanningText := ConnectedPrefix + ModelName(product);
        if cameraAvailable {
          pending := pending + multiset{CameraModeCallback};
        } else {
          toasts := toasts + [NoCameraToast];
        }
      } else {
        scanningText := NoProductText;
        capturedImage := None;
      }
    }

    /** Recomposition with `p`: the effect restarts only when the key changed. */
    method OnProductChanged(p: Option<Product>, cameraAvailable: bool)
      modifies this
      ensures State() == Fire(old(State()), ProductChanged(p, cameraAvailable)).next
      ensures toasts == old(toasts) + Fire(old(State()), ProductChanged(p, cameraAvailable)).toasts
      ensures p == old(product) ==> State() == old(State())
      ensures product == p
    {
      if p != product {
        product := p;
        RunEffect(cameraAvailable);
      }
    }

    /** The completion callback of `setCameraMode(SHOOT_PHOTO)`. */
    method OnCameraModeResult(r: CallResult)
      requires CameraModeCallback in pending
      modifies this
      ensures State() == Fire(old(State()), CameraModeResult(r)).next
      ensures toasts == old(toasts) + Fire(old(State()), CameraModeResult(r)).toasts
      ensures scanningText == old(scanningText) && capturedImage == old(capturedImage)
    {
      pending := pending - multiset{CameraModeCallback};
      match r {
        case Success =>
          toasts := toasts + [CameraModeToast];
          pending := pending + multiset{ShootModeCallback};
        case Failure(d) =>
          toasts := toasts + [CameraModeErrorPrefix + d];
      }
    }

    /** The completion callback of `setShootPhotoMode(SINGLE)`. */
    method OnShootModeResult(r: CallResult)
      requires ShootModeCallback in pending
      modifies this
      ensures State() == Fire(old(State()), ShootModeResult(r)).next
      ensures toasts == old(toasts) + Fire(old(State()), ShootModeResult(r)).toasts
      ensures scanningText == old(scanningText) && capturedImage == old(capturedImage)
    {
      pending := pending - multiset{ShootModeCallback};
      match r {
        case Success =>
          toasts := toasts + [ShootModeToast];
          pending := pending + multiset{ScanTimer};
        case Failure(d) =>
          toasts := toasts + [ShootModeErrorPrefix + d];
      }
    }

    /** The first delayed post: show the placeholder, hand it to `onPhotoCaptured`, post the second. */
    method OnScanTimer()
      requires ScanTimer in pending
      modifies this
      ensures State() == Fire(old(State()), Timer1).next
      ensures toasts == old(toasts) + [PhotoCapturedToast]
      ensures capturedImage == Some(PlaceholderDroneImage) && scanningText == ScannedText
    {
      pending := pending - multiset{ScanTimer};
      capturedImage := Some(PlaceholderDroneImage);
      toasts := toasts + [PhotoCapturedToast];
      scanningText := ScannedText;
      pending := pending + multiset{CodeTimer};
    }

    /** The second delayed post: report the canned code. */
    method OnCodeTimer()
      requires CodeTimer in pending
      modifies this
      ensures State() == Fire(old(State()), Timer2).next
      ensures toasts == old(toasts) + [CodeText]
      ensures scanningText == CodeText && capturedImage == old(capturedImage)
    {
      pending := pending - multiset{CodeTimer};
      scanningText := "Código detectado: " + ScannedCode;
      toasts := toasts + ["Código detectado: " + ScannedCode];
    }
  }
}

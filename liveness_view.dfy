/**
 * The decisions `FaceLivenessDetectorView` takes: the two error mappings, and
 * how camera permission, the session task, the Begin button and the liveness
 * state move the view between its four display states. The view's `@State`
 * and binding fields form one record; each handler is a function from the old
 * record to the new one plus the calls it makes (effects).
 */
module LivenessView {
  import opened Options

  // ---------------------------------------------------------------------------
  // Errors and results

  /** The liveness state machine's errors: those `mapError` names, and every other one. */
  datatype LivenessError =
    | UserCancelled
    | ViewResignation
    | TimedOut
    | SocketClosed
    | CameraNotAvailable
    | OtherLivenessError(name: string)

  /** The session errors the liveness service reports: those the completion mapping names, and every other one. */
  datatype FaceLivenessSessionError =
    | InvalidRegion
    | AccessDenied
    | Validation
    | InternalServer
    | Throttling
    | ServiceQuotaExceeded
    | ServiceUnavailable
    | SessionNotFound
    | InvalidSignature
    | OtherSessionError(name: string)

  /** The errors the view reports to its caller (those the two mappings produce). */
  datatype FaceLivenessDetectionError =
    | UserCancelled
    | FaceInOvalMatchExceededTimeLimitError
    | SocketClosed
    | CameraNotAvailable
    | CameraPermissionDenied
    | InvalidRegion
    | AccessDenied
    | Validation
    | InternalServer
    | Throttling
    | ServiceQuotaExceeded
    | ServiceUnavailable
    | SessionNotFound
    | InvalidSignature
    | Unknown

  /** Swift's `Result<Void, E>`. */
  datatype Result<+E> = Success | Failure(error: E)

  /** The case name of a session error, or `None` for the cases the mapping does not name. */
  function SessionErrorName(e: FaceLivenessSessionError): Option<string>
  {
    match e
    case InvalidRegion => Some("invalidRegion")
    case AccessDenied => Some("accessDenied")
    case Validation => Some("validation")
    case InternalServer => Some("internalServer")
    case Throttling => Some("throttling")
    case ServiceQuotaExceeded => Some("serviceQuotaExceeded")
    case ServiceUnavailable => Some("serviceUnavailable")
    case SessionNotFound => Some("sessionNotFound")
    case InvalidSignature => Some("invalidSignature")
    case OtherSessionError(_) => None
  }

  /** The case name of a detection error. */
  function DetectionErrorName(e: FaceLivenessDetectionError): string
  {
    match e
    case UserCancelled => "userCancelled"
    case FaceInOvalMatchExceededTimeLimitError => "faceInOvalMatchExceededTimeLimitError"
    case SocketClosed => "socketClosed"
    case CameraNotAvailable => "cameraNotAvailable"
    case CameraPermissionDenied => "cameraPermissionDenied"
    case InvalidRegion => "invalidRegion"
    case AccessDenied => "accessDenied"
    case Validation => "validation"
    case InternalServer => "internalServer"
    case Throttling => "throttling"
    case ServiceQuotaExceeded => "serviceQuotaExceeded"
    case ServiceUnavailable => "serviceUnavailable"
    case SessionNotFound => "sessionNotFound"
    case InvalidSignature => "invalidSignature"
    case Unknown => "unknown"
  }

  /**
   * `mapError`: cancellation and resignation both become `userCancelled`; a
   * time-out, a closed socket and an unavailable camera have their own
   * detection errors; every other liveness error is reported as a denied
   * camera permission.
   */
  function MapError(e: LivenessError): (r: FaceLivenessDetectionError)
    ensures r == FaceLivenessDetectionError.UserCancelled <==>
      (e == LivenessError.UserCancelled || e == LivenessError.ViewResignation)
    ensures r == FaceLivenessDetectionError.FaceInOvalMatchExceededTimeLimitError <==> e == LivenessError.TimedOut
    ensures r == FaceLivenessDetectionError.SocketClosed <==> e == LivenessError.SocketClosed
    ensures r == FaceLivenessDetectionError.CameraNotAvailable <==> e == LivenessError.CameraNotAvailable
    ensures r == FaceLivenessDetectionError.CameraPermissionDenied <==> e.OtherLivenessError?
  {
    match e
    case UserCancelled => FaceLivenessDetectionError.UserCancelled
    case ViewResignation => FaceLivenessDetectionError.UserCancelled
    case TimedOut => FaceLivenessDetectionError.FaceInOvalMatchExceededTimeLimitError
    case SocketClosed => FaceLivenessDetectionError.SocketClosed
    case CameraNotAvailable => FaceLivenessDetectionError.CameraNotAvailable
    case OtherLivenessError(_) => FaceLivenessDetectionError.CameraPermissionDenied
  }

  /**
   * One invocation of the closure built by `map(detectionCompletion:)`: the
   * calls it makes on the wrapped `detectionCompletion`, one list entry per
   * call. Every arm makes exactly one call: success stays success, each named
   * session error becomes the detection error of the same name, anything else
   * `unknown`.
   */
  function MappedCompletion(result: Result<FaceLivenessSessionError>): (calls: seq<Result<FaceLivenessDetectionError>>)
    ensures |calls| == 1
    ensures calls[0].Success? <==> result.Success?
    ensures result.Failure? && SessionErrorName(result.error).Some? ==>
      calls[0].Failure? && DetectionErrorName(calls[0].error) == SessionErrorName(result.error).value
    ensures calls[0] == Failure(FaceLivenessDetectionError.Unknown) <==> result.Failure? && result.error.OtherSessionError?
  {
    match result
    case Success => [Success]
    case Failure(InvalidRegion) => [Failure(FaceLivenessDetectionError.InvalidRegion)]
    case Failure(AccessDenied) => [Failure(FaceLivenessDetectionError.AccessDenied)]
    case Failure(Validation) => [Failure(FaceLivenessDetectionError.Validation)]
    case Failure(InternalServer) => [Failure(FaceLivenessDetectionError.InternalServer)]
    case Failure(Throttling) => [Failure(FaceLivenessDetectionError.Throttling)]
    case Failure(ServiceQuotaExceeded) => [Failure(FaceLivenessDetectionError.ServiceQuotaExceeded)]
    case Failure(ServiceUnavailable) => [Failure(FaceLivenessDetectionError.ServiceUnavailable)]
    case Failure(SessionNotFound) => [Failure(FaceLivenessDetectionError.SessionNotFound)]
    case Failure(InvalidSignature) => [Failure(FaceLivenessDetectionError.InvalidSignature)]
    case Failure(OtherSessionError(_)) => [Failure(FaceLivenessDetectionError.Unknown)]
  }

  /** The result the wrapped completion receives for `result`. */
  function MapDetectionCompletion(result: Result<FaceLivenessSessionError>): Result<FaceLivenessDetectionError>
  {
    MappedCompletion(result)[0]
  }

  /** No two named session errors are reported as the same detection error. */
  lemma NamedSessionErrorsStayDistinct(a: FaceLivenessSessionError, b: FaceLivenessSessionError)
    requires SessionErrorName(a).Some? && SessionErrorName(b).Some? && a != b
    ensures MapDetectionCompletion(Failure(a)) != MapDetectionCompletion(Failure(b))
  {
  }

  /**
   * The calls the wrapped `detectionCompletion` receives when the closure
   * built by `map(detectionCompletion:)` is handed `results` one after the
   * other: exactly one call per result, in order, with the translated result.
   */
  function DeliverAll(results: seq<Result<FaceLivenessSessionError>>): (calls: seq<Result<FaceLivenessDetectionError>>)
    ensures |calls| == |results|
    ensures forall i :: 0 <= i < |results| ==> calls[i] == MapDetectionCompletion(results[i])
  {
    if results == [] then []
    else MappedCompletion(results[0]) + DeliverAll(results[1..])
  }

  // ---------------------------------------------------------------------------
  // The view's state and its handlers

  datatype DisplayState =
    | AwaitingLivenessSession
    | DisplayingGetReadyView
    | DisplayingLiveness
    | AwaitingCameraPermission

  /** `AVAuthorizationStatus`, with one case for the values `@unknown default` catches. */
  datatype AuthorizationStatus = NotDetermined | Restricted | Denied | Authorized | FutureStatus

  /** A WebSocket close code. */
  type CloseCode = int

  /** `URLSessionWebSocketTask.CloseCode.normalClosure`, code 1000 of section 7.4.1 of RFC 6455. */
  const NormalClosure: CloseCode := 1000

  /** What the liveness view model publishes; the view reacts to two of these cases. */
  datatype LivenessState =
    | Completed
    | EncounteredUnrecoverableError(error: LivenessError, webSocketCloseCode: Option<CloseCode>)
    | OtherLivenessState

  /** How awaiting the session task ended. */
  datatype SessionOutcome = SessionStarted | SessionFailed

  /** A call the view makes on a collaborator. */
  datatype Effect =
    | RequestCameraAccess
    | RegisterServiceEvents
    | CloseSocket(code: CloseCode)
    | Complete(result: Result<FaceLivenessDetectionError>)

  /**
   * The view's mutable state: its two `@State` fields, the `isPresented`
   * binding, whether the view model holds a liveness service, and the
   * `disableStartView` setting it was built with.
   */
  datatype View = View(
    displayState: DisplayState,
    displayingCameraPermissionsNeededAlert: bool,
    isPresented: bool,
    hasLivenessService: bool,
    disableStartView: bool)

  /** The view after a handler ran, and the calls the handler made. */
  datatype Transition = Transition(view: View, effects: seq<Effect>)

  function Initial(isPresented: bool, disableStartView: bool): (v: View)
    ensures v.displayState == AwaitingCameraPermission && !v.displayingCameraPermissionsNeededAlert
    ensures !v.hasLivenessService
  {
    View(AwaitingCameraPermission, false, isPresented, false, disableStartView)
  }

  /**
   * `checkCameraPermission`: authorised goes on to await the liveness
   * session; restricted or denied only raises the alert; not determined asks
   * for access; any other status changes nothing.
   */
  function CheckCameraPermission(v: View, status: AuthorizationStatus): (t: Transition)
    ensures status == Authorized ==> t == Transition(v.(displayState := AwaitingLivenessSession), [])
    ensures status == Restricted || status == Denied ==>
      t.view.displayState == v.displayState && t.view.displayingCameraPermissionsNeededAlert &&
      t.view == v.(displayingCameraPermissionsNeededAlert := true) && t.effects == []
    ensures status == NotDetermined ==> t == Transition(v, [RequestCameraAccess])
    ensures status == FutureStatus ==> t == Transition(v, [])
  {
    match status
    case NotDetermined => Transition(v, [RequestCameraAccess])
    case Restricted => Transition(AlertCameraAccessNeeded(v), [])
    case Denied => Transition(AlertCameraAccessNeeded(v), [])
    case Authorized => Transition(v.(displayState := AwaitingLivenessSession), [])
    case FutureStatus => Transition(v, [])
  }

  /** `alertCameraAccessNeeded`: raises the alert and touches nothing else, the display state included. */
  function AlertCameraAccessNeeded(v: View): (r: View)
    ensures r.displayingCameraPermissionsNeededAlert
    ensures r.displayState == v.displayState && r.isPresented == v.isPresented
    ensures r.hasLivenessService == v.hasLivenessService && r.disableStartView == v.disableStartView
  {
    v.(displayingCameraPermissionsNeededAlert := true)
  }

  /** The completion handler `requestCameraPermission` passes to `requestAccess`. */
  function OnCameraAccessAnswered(v: View, accessGranted: bool): (r: View)
    ensures accessGranted ==> r == v.(displayState := AwaitingLivenessSession)
    ensures !accessGranted ==> r == v
  {
    if !accessGranted then v else v.(displayState := AwaitingLivenessSession)
  }

  /** The screen the session task moves to: the Begin screen unless it is disabled. */
  function SessionTarget(disableStartView: bool): (d: DisplayState)
    ensures d == DisplayingLiveness <==> disableStartView
    ensures d == DisplayingGetReadyView <==> !disableStartView
  {
    if disableStartView then DisplayingLiveness else DisplayingGetReadyView
  }

  /**
   * The task started when the session placeholder appears: unless the view
   * already shows the target screen, it awaits the session; once it has one,
   * it hands it to the view model, registers for service events and shows
   * the target. A failed session task changes nothing.
   */
  function OnSessionViewAppeared(v: View, outcome: SessionOutcome): (t: Transition)
    ensures v.displayState == SessionTarget(v.disableStartView) || outcome == SessionFailed ==> t == Transition(v, [])
    ensures v.displayState != SessionTarget(v.disableStartView) && outcome == SessionStarted ==>
      t.view.displayState == SessionTarget(v.disableStartView) && t.view.hasLivenessService &&
      t.effects == [RegisterServiceEvents]
    ensures t.view.isPresented == v.isPresented && t.view.disableStartView == v.disableStartView
    ensures t.view.displayingCameraPermissionsNeededAlert == v.displayingCameraPermissionsNeededAlert
  {
    var newState := SessionTarget(v.disableStartView);
    if v.displayState == newState then Transition(v, [])
    else match outcome
      case SessionFailed => Transition(v, [])
      case SessionStarted =>
        Transition(v.(hasLivenessService := true, displayState := newState), [RegisterServiceEvents])
  }

  /** The Begin button: shows the liveness screen; pressing it there again changes nothing. */
  function OnBegin(v: View): (r: View)
    ensures r.displayState == DisplayingLiveness
    ensures v.displayState == DisplayingLiveness ==> r == v
    ensures r == v.(displayState := DisplayingLiveness)
  {
    if v.displayState == DisplayingLiveness then v else v.(displayState := DisplayingLiveness)
  }

  /**
   * The reaction to a published liveness state: completion dismisses the view
   * and reports success; an unrecoverable error closes the socket (with the
   * error's close code, normal closure by default, when there is a service),
   * dismisses the view and reports the mapped error; any other state is ignored.
   */
  function OnLivenessState(v: View, state: LivenessState): (t: Transition)
    ensures state.OtherLivenessState? ==> t == Transition(v, [])
    ensures !state.OtherLivenessState? ==> t.view == v.(isPresented := false)
    ensures state.Completed? ==> t.effects == [Complete(Success)]
    ensures state.EncounteredUnrecoverableError? ==>
      var code := match state.webSocketCloseCode case Some(c) => c case None => NormalClosure;
      t.effects ==
        (if v.hasLivenessService then [CloseSocket(code)] else []) + [Complete(Failure(MapError(state.error)))]
  {
    match state
    case Completed => Transition(v.(isPresented := false), [Complete(Success)])
    case EncounteredUnrecoverableError(error, webSocketCloseCode) =>
      var closeCode := match webSocketCloseCode case Some(c) => c case None => NormalClosure;
      var close := if v.hasLivenessService then [CloseSocket(closeCode)] else [];
      Transition(v.(isPresented := false), close + [Complete(Failure(MapError(error)))])
    case OtherLivenessState => Transition(v, [])
  }

  // ---------------------------------------------------------------------------
  // Sequences of handler runs

  /** Something the screen reacts to. */
  datatype Event =
    | PermissionViewAppeared(status: AuthorizationStatus)
    | CameraAccessAnswered(accessGranted: bool)
    | SessionViewAppeared(outcome: SessionOutcome)
    | BeginTapped
    | LivenessStateReceived(state: LivenessState)
    | SessionCompleted(result: Result<FaceLivenessSessionError>)
    | CloseButtonTapped

  /** The result the close button reports (the `closeButtonAction` both initialisers build). */
  function CloseButtonResult(): (r: Result<FaceLivenessDetectionError>)
    ensures r.Failure? && r.error == FaceLivenessDetectionError.UserCancelled
  {
    Failure(FaceLivenessDetectionError.UserCancelled)
  }

  /**
   * `body` shows one screen per display state and attaches each handler to its
   * screen, so a handler runs only while its screen is shown. The answer to an
   * access request, the session's completion closure and the close button
   * report whenever they fire, whatever the screen.
   */
  function Dispatch(v: View, e: Event): (t: Transition)
    ensures t.view.disableStartView == v.disableStartView
    ensures e.PermissionViewAppeared? && v.displayState != AwaitingCameraPermission ==> t == Transition(v, [])
    ensures e.SessionViewAppeared? && v.displayState != AwaitingLivenessSession ==> t == Transition(v, [])
    ensures e.BeginTapped? && v.displayState != DisplayingGetReadyView ==> t == Transition(v, [])
    ensures e.LivenessStateReceived? && v.displayState != DisplayingLiveness ==> t == Transition(v, [])
    ensures e.SessionCompleted? ==> t == Transition(v, [Complete(MapDetectionCompletion(e.result))])
    ensures e.CloseButtonTapped? ==> t == Transition(v, [Complete(Failure(FaceLivenessDetectionError.UserCancelled))])
  {
    match e
    case PermissionViewAppeared(status) =>
      if v.displayState == AwaitingCameraPermission then CheckCameraPermission(v, status) else Transition(v, [])
    case CameraAccessAnswered(granted) => Transition(OnCameraAccessAnswered(v, granted), [])
    case SessionViewAppeared(outcome) =>
      if v.displayState == AwaitingLivenessSession then OnSessionViewAppeared(v, outcome) else Transition(v, [])
    case BeginTapped =>
      if v.displayState == DisplayingGetReadyView then Transition(OnBegin(v), []) else Transition(v, [])
    case LivenessStateReceived(state) =>
      if v.displayState == DisplayingLiveness then OnLivenessState(v, state) else Transition(v, [])
    case SessionCompleted(result) => Transition(v, [Complete(MapDetectionCompletion(result))])
    case CloseButtonTapped => Transition(v, [Complete(CloseButtonResult())])
  }

  /** The view after `events`, and every call made on the way. */
  function RunView(v: View, events: seq<Event>): Transition
    decreases |events|
  {
    if events == [] then Transition(v, [])
    else
      var first := Dispatch(v, events[0]);
      var rest := RunView(first.view, events[1..]);
      Transition(rest.view, first.effects + rest.effects)
  }

  /** Is `e` a grant of camera access? */
  predicate Grants(e: Event)
  {
    e == PermissionViewAppeared(Authorized) || e == CameraAccessAnswered(true)
  }

  /** Is `e` a call that only the permission screen or a result report makes? */
  predicate PermissionScreenEffect(e: Effect)
  {
    e == RequestCameraAccess || e.Complete?
  }

  /**
   * Without a grant of camera access, the view never leaves the permission
   * screen: it never registers for service events or closes a socket, and
   * besides access requests it only passes on results reported by the session
   * or the close button.
   */
  lemma {:induction false} NoProgressWithoutPermission(v: View, events: seq<Event>)
    requires v.displayState == AwaitingCameraPermission
    requires forall i :: 0 <= i < |events| ==> !Grants(events[i])
    ensures RunView(v, events).view.displayState == AwaitingCameraPermission
    ensures forall i :: 0 <= i < |RunView(v, events).effects| ==> PermissionScreenEffect(RunView(v, events).effects[i])
    decreases |events|
  {
    if events != [] {
      var first := Dispatch(v, events[0]);
      assert !Grants(events[0]);
      assert first.view.displayState == AwaitingCameraPermission;
      assert forall i :: 0 <= i < |first.effects| ==> PermissionScreenEffect(first.effects[i]);
      NoProgressWithoutPermission(first.view, events[1..]);
    }
  }

  /** Once the permission screen is left, the view never returns to it. */
  lemma {:induction false} PermissionScreenNotRevisited(v: View, events: seq<Event>)
    requires v.displayState != AwaitingCameraPermission
    ensures RunView(v, events).view.displayState != AwaitingCameraPermission
    decreases |events|
  {
    if events != [] {
      PermissionScreenNotRevisited(Dispatch(v, events[0]).view, events[1..]);
    }
  }

  /** With the start view disabled, the Begin screen is never shown. */
  lemma {:induction false} NoGetReadyViewWhenDisabled(v: View, events: seq<Event>)
    requires v.disableStartView && v.displayState != DisplayingGetReadyView
    ensures RunView(v, events).view.displayState != DisplayingGetReadyView
    decreases |events|
  {
    if events != [] {
      NoGetReadyViewWhenDisabled(Dispatch(v, events[0]).view, events[1..]);
    }
  }

  /** The view only ever dismisses itself: `isPresented` is never set back to true. */
  lemma {:induction false} NeverRepresented(v: View, events: seq<Event>)
    ensures RunView(v, events).view.isPresented ==> v.isPresented
    decreases |events|
  {
    if events != [] {
      NeverRepresented(Dispatch(v, events[0]).view, events[1..]);
    }
  }

  /**
   * A result reaches the caller in one of three ways: the session's completion
   * closure (exactly one translated result, view untouched), the close button
   * (`userCancelled`, view untouched), or a liveness state received on the
   * liveness screen, which also dismisses the view.
   */
  lemma CompletionSources(v: View, e: Event)
    requires exists i :: 0 <= i < |Dispatch(v, e).effects| && Dispatch(v, e).effects[i].Complete?
    ensures e.SessionCompleted? ==> Dispatch(v, e) == Transition(v, [Complete(MapDetectionCompletion(e.result))])
    ensures e.CloseButtonTapped? ==> Dispatch(v, e) == Transition(v, [Complete(CloseButtonResult())])
    ensures !e.SessionCompleted? && !e.CloseButtonTapped? ==>
      v.displayState == DisplayingLiveness && e.LivenessStateReceived? && !Dispatch(v, e).view.isPresented
  {
  }
}

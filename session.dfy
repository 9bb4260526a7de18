/**
 * The screen-recording manager's fields as one value, and what each public
 * operation and each recorder callback does to them.  The class in
 * `Manager` is specified by these functions.
 */
module Session {
  import opened Wrappers
  import opened Recorder
  import opened OperationModes

  /** Every field of `ScreenRecordingManager`. */
  datatype ManagerState = ManagerState(
    mode: Option<OperationMode>,
    exportingClip: bool,
    isAvailable: bool,
    isRecording: bool,
    error: Option<Error>,
    recordingPreviewController: Option<PreviewController>,
    cameraPreviewView: Option<CameraView>,
    clipURL: Option<URL>,
    isMicrophoneEnabled: bool,
    isCameraEnabled: bool,
    cameraPosition: CameraPosition)
  {
    /** A mode is set exactly while a session is active. */
    predicate Consistent() {
      mode.Some? <==> isRecording
    }

    /** No session, and nothing left over from one. */
    predicate Idle() {
      !isRecording && mode.None? && cameraPreviewView.None? && recordingPreviewController.None?
    }

    /** The guard of the three start operations. */
    predicate AdmitsStart() {
      isAvailable && !isRecording
    }

    /** The guard of the three stop operations: the mode is not consulted. */
    predicate AdmitsStop() {
      isRecording
    }

    /** The guard of `generateClip`: any active mode, no export in flight. */
    predicate AdmitsClipExport() {
      isRecording && !exportingClip
    }
  }

  /** The fields only the setters write agree. */
  predicate SameSettings(a: ManagerState, b: ManagerState) {
    a.isMicrophoneEnabled == b.isMicrophoneEnabled
    && a.isCameraEnabled == b.isCameraEnabled
    && a.cameraPosition == b.cameraPosition
  }

  /** The fields of the clip export agree. */
  ghost predicate SameExport(a: ManagerState, b: ManagerState) {
    a.exportingClip == b.exportingClip && a.clipURL == b.clipURL
  }

  /** The session flags, the availability and the recording handle agree. */
  ghost predicate SameLifecycle(a: ManagerState, b: ManagerState) {
    a.mode == b.mode && a.isRecording == b.isRecording && a.isAvailable == b.isAvailable
    && a.recordingPreviewController == b.recordingPreviewController
  }

  /** The state `init` builds from the recorder's current flags. */
  function Initial(recorderAvailable: bool, recorderRecording: bool): (s: ManagerState)
    ensures s.isAvailable == recorderAvailable && s.isRecording == recorderRecording
    ensures s.mode.None? && !s.exportingClip && s.error.None?
    ensures s.recordingPreviewController.None? && s.cameraPreviewView.None? && s.clipURL.None?
    ensures !s.isMicrophoneEnabled && !s.isCameraEnabled && s.cameraPosition == Front
    ensures s.Consistent() <==> !recorderRecording
  {
    ManagerState(
      mode := None,
      exportingClip := false,
      isAvailable := recorderAvailable,
      isRecording := recorderRecording,
      error := None,
      recordingPreviewController := None,
      cameraPreviewView := None,
      clipURL := None,
      isMicrophoneEnabled := false,
      isCameraEnabled := false,
      cameraPosition := Front)
  }

  /**
   * The completion handler of a start operation for mode `m`: success starts
   * a session in `m`, failure leaves none; the error and the recorder's
   * camera view are stored either way.
   */
  function StartCompleted(s: ManagerState, m: OperationMode, err: Option<Error>,
                          recorderView: Option<CameraView>): (r: ManagerState)
    ensures r.Consistent()
    ensures r.isRecording <==> err.None?
    ensures r.mode == Some(m) <==> err.None?
    ensures r.error == err && r.cameraPreviewView == recorderView
    ensures r.isAvailable == s.isAvailable && r.recordingPreviewController == s.recordingPreviewController
    ensures SameExport(s, r) && SameSettings(s, r)
  {
    s.(error := err,
       isRecording := err.None?,
       mode := if err.None? then Some(m) else None,
       cameraPreviewView := recorderView)
  }

  /**
   * `cleanUp`: ends any session, stores `err`, and takes the availability of
   * the recorder when one is supplied.
   */
  function CleanedUp(s: ManagerState, recorderAvailable: Option<bool>, err: Option<Error>): (r: ManagerState)
    ensures r.Idle() && r.Consistent()
    ensures r.error == err
    ensures r.isAvailable == (if recorderAvailable.Some? then recorderAvailable.value else s.isAvailable)
    ensures SameExport(s, r) && SameSettings(s, r)
  {
    s.(isAvailable := if recorderAvailable.Some? then recorderAvailable.value else s.isAvailable,
       error := err,
       isRecording := false,
       cameraPreviewView := None,
       recordingPreviewController := None,
       mode := None)
  }

  /** The completion handler of `stopRecording`: clean up, then keep the controller. */
  function RecordingStopped(s: ManagerState, controller: Option<PreviewController>,
                            err: Option<Error>, recorderAvailable: bool): (r: ManagerState)
    ensures !r.isRecording && r.mode.None? && r.cameraPreviewView.None?
    ensures r.recordingPreviewController == controller
    ensures r.error == err && r.isAvailable == recorderAvailable
    ensures SameExport(s, r) && SameSettings(s, r)
  {
    CleanedUp(s, Some(recorderAvailable), err).(recordingPreviewController := controller)
  }

  /**
   * The delegate's did-stop notification: the controller is stored before
   * `cleanUp`, which clears it, so the result does not depend on it.
   */
  function RecordingStoppedByRecorder(s: ManagerState, controller: Option<PreviewController>,
                                      err: Option<Error>, recorderAvailable: bool): (r: ManagerState)
    ensures r.Idle()
    ensures r == CleanedUp(s, Some(recorderAvailable), err)
  {
    CleanedUp(s.(recordingPreviewController := controller), Some(recorderAvailable), err)
  }

  /** The delegate's availability notification: clean up, keeping the stored error. */
  function AvailabilityRefreshed(s: ManagerState, recorderAvailable: bool): (r: ManagerState)
    ensures r.Idle()
    ensures r.isAvailable == recorderAvailable && r.error == s.error
    ensures SameExport(s, r) && SameSettings(s, r)
  {
    CleanedUp(s, Some(recorderAvailable), s.error)
  }

  /** `generateClip` up to the request: an accepted call marks an export in flight. */
  function ClipExportRequested(s: ManagerState): (r: ManagerState)
    ensures r.exportingClip == (s.exportingClip || s.AdmitsClipExport())
    ensures !s.AdmitsClipExport() ==> r == s
    ensures r.clipURL == s.clipURL && r.error == s.error && r.cameraPreviewView == s.cameraPreviewView
    ensures SameLifecycle(s, r) && SameSettings(s, r)
  {
    if s.AdmitsClipExport() then s.(exportingClip := true) else s
  }

  /**
   * The export completion handler for the request made to `url`: the export
   * is over, its error is stored, and only a success moves `clipURL`.
   */
  function ClipExportCompleted(s: ManagerState, url: URL, err: Option<Error>): (r: ManagerState)
    ensures !r.exportingClip && r.error == err
    ensures err.None? ==> r.clipURL == Some(url)
    ensures err.Some? ==> r.clipURL == s.clipURL
    ensures r.cameraPreviewView == s.cameraPreviewView
    ensures SameLifecycle(s, r) && SameSettings(s, r)
  {
    s.(error := err, exportingClip := false, clipURL := if err.None? then Some(url) else s.clipURL)
  }

  /** The capture sample handler: a buffer error is stored, a buffer is not state. */
  function SampleBufferDelivered(s: ManagerState, err: Option<Error>): (r: ManagerState)
    ensures r.error == (if err.Some? then err else s.error)
    ensures r.cameraPreviewView == s.cameraPreviewView
    ensures SameLifecycle(s, r) && SameExport(s, r) && SameSettings(s, r)
  {
    if err.Some? then s.(error := err) else s
  }

  /** The `isMicrophoneEnabled` setter. */
  function MicrophoneSet(s: ManagerState, enabled: bool): (r: ManagerState)
    ensures r.isMicrophoneEnabled == enabled
    ensures r.isCameraEnabled == s.isCameraEnabled && r.cameraPosition == s.cameraPosition
    ensures r.error == s.error && r.cameraPreviewView == s.cameraPreviewView
    ensures SameLifecycle(s, r) && SameExport(s, r)
  {
    s.(isMicrophoneEnabled := enabled)
  }

  /** The `isCameraEnabled` setter: the preview view is re-read from the recorder. */
  function CameraSet(s: ManagerState, enabled: bool, recorderView: Option<CameraView>): (r: ManagerState)
    ensures r.isCameraEnabled == enabled && r.cameraPreviewView == recorderView
    ensures r.isMicrophoneEnabled == s.isMicrophoneEnabled && r.cameraPosition == s.cameraPosition
    ensures r.error == s.error
    ensures SameLifecycle(s, r) && SameExport(s, r)
  {
    s.(isCameraEnabled := enabled, cameraPreviewView := recorderView)
  }

  /** The `cameraPosition` setter. */
  function CameraPositionSet(s: ManagerState, position: CameraPosition): (r: ManagerState)
    ensures r.cameraPosition == position
    ensures r.isMicrophoneEnabled == s.isMicrophoneEnabled && r.isCameraEnabled == s.isCameraEnabled
    ensures r.error == s.error && r.cameraPreviewView == s.cameraPreviewView
    ensures SameLifecycle(s, r) && SameExport(s, r)
  {
    s.(cameraPosition := position)
  }

  /** A call a client makes on the manager. */
  datatype Operation =
    | StartRecording
    | StartCapturing
    | StartClipBuffering
    | StopRecording
    | StopCapturing
    | StopClipBuffering
    | GenerateClip(url: URL)
    | SetMicrophoneEnabled(enabled: bool)
    | SetCameraEnabled(enabled: bool, recorderView: Option<CameraView>)
    | SetCameraPosition(position: CameraPosition)

  /**
   * Something the recorder delivers, with the values it carries and the
   * recorder values the handler reads.
   */
  datatype Callback =
    | StartHandler(mode: OperationMode, err: Option<Error>, recorderView: Option<CameraView>)
    | SampleBufferHandler(err: Option<Error>)
    | StopRecordingHandler(controller: Option<PreviewController>, err: Option<Error>, recorderAvailable: bool)
    | StopCaptureHandler(err: Option<Error>, recorderAvailable: bool)
    | StopClipBufferingHandler(err: Option<Error>, recorderAvailable: bool)
    | ExportClipHandler(url: URL, err: Option<Error>)
    | DidChangeAvailability(recorderAvailable: bool)
    | DidStopRecording(controller: Option<PreviewController>, err: Option<Error>, recorderAvailable: bool)
  {
    /** The callbacks that end in `cleanUp`. */
    predicate EndsSession() {
      StopRecordingHandler? || StopCaptureHandler? || StopClipBufferingHandler?
      || DidChangeAvailability? || DidStopRecording?
    }
  }

  /** One input to the manager, in the order it runs. */
  datatype Event = Invoked(op: Operation) | Delivered(cb: Callback)

  /** What one input does to the manager's fields. */
  function Step(s: ManagerState, e: Event): ManagerState {
    match e
    case Invoked(op) => (
      match op
      case GenerateClip(_) => ClipExportRequested(s)
      case SetMicrophoneEnabled(enabled) => MicrophoneSet(s, enabled)
      case SetCameraEnabled(enabled, view) => CameraSet(s, enabled, view)
      case SetCameraPosition(position) => CameraPositionSet(s, position)
      case _ => s)
    case Delivered(cb) => (
      match cb
      case StartHandler(m, err, view) => StartCompleted(s, m, err, view)
      case SampleBufferHandler(err) => SampleBufferDelivered(s, err)
      case StopRecordingHandler(controller, err, available) => RecordingStopped(s, controller, err, available)
      case StopCaptureHandler(err, available) => CleanedUp(s, Some(available), err)
      case StopClipBufferingHandler(err, available) => CleanedUp(s, Some(available), err)
      case ExportClipHandler(url, err) => ClipExportCompleted(s, url, err)
      case DidChangeAvailability(available) => AvailabilityRefreshed(s, available)
      case DidStopRecording(controller, err, available) => RecordingStoppedByRecorder(s, controller, err, available))
  }

  /** The manager's fields after the inputs `es`, first to last. */
  function Run(s: ManagerState, es: seq<Event>): ManagerState
    decreases |es|
  {
    if es == [] then s else Run(Step(s, es[0]), es[1..])
  }
}

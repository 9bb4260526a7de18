# ReplayKit demo: the screen-recording session manager

This project models `ScreenRecordingManager`, the one class with logic in the
ReplayKit demo app, and proves properties of the model. The manager sits
between SwiftUI views and ReplayKit's shared `RPScreenRecorder`. It offers three
mutually exclusive kinds of session: recording to a file, capturing live sample
buffers, and clip buffering. It forwards the microphone, camera and
camera-position settings to the recorder and exports a 15-second clip. It folds
the recorder's completion handlers and delegate notifications into its fields.

`ReplayKitDemo/ContentView.swift:12-238` holds an older copy of the class, line
for line; its lines sit 9 to 10 below the cited lines of
`ReplayKitDemo/ScreenRecordingManager.swift`. The enum copy there
(`ContentView.swift:12-16`) has the same three cases but no `Identifiable`
conformance and no `id`. The class is modelled once.

Layout:

- `wrappers.dfy`, module `Wrappers`: `Option`, for Swift's optionals.
- `recorder.dfy`, module `Recorder`: the recorder's values as opaque types
  (`Error`, `PreviewController`, `CameraView`, `URL`), `CameraPosition`, the clip
  duration, and `RecorderCall`, the requests and configuration writes the manager
  sends to the recorder.
- `operation_mode.dfy`, module `OperationModes`: `OperationMode` (recording,
  capturing, clipping).
- `session.dfy`, module `Session`: `ManagerState`, all the manager's fields as one
  value. It has one function per handler and setter, giving the new fields from
  the old ones. `Event` stands for one input, either a public call or a delivered
  callback. `Step` applies one input to the state, and `Run` applies a sequence
  of inputs in order.
- `session_properties.dfy`, module `SessionProperties`: lemmas about one step and
  about any sequence of inputs.
- `manager.dfy`, module `Manager`: the class `ScreenRecordingManager` with the
  Swift fields. The public operations change no field (except `GenerateClip`) and
  return the request they issue, or `None` when the guard refuses. Each handler
  is a method whose parameters are what ReplayKit hands it plus the recorder
  values it reads: `isAvailable` and `cameraPreviewView`. Each state-changing
  method's `ensures` equates `State()` with the matching `Session` function of
  `old(State())`. `StopRecordingCompleted`, `DidStopRecording` and the other
  session-ending handlers call `CleanUp` in the same order as the Swift does.

The model follows the code as written:

- There is no Starting or Stopping state.
- Completions carry no epoch, so a late start completion starts a session again.
- A stop is guarded by `isRecording` only, whatever the mode.
- `generateClip` is accepted in any active mode, not only while clip buffering.
- `cleanUp` leaves `exportingClip` set while an export is pending.
- A failed start, or the camera setter, can leave a camera view stored while
  no session is active.
- The availability notification cleans up with the error already stored.

## Model

| member | source | states |
|---|---|---|
| Manager.ScreenRecordingManager.constructor | ReplayKitDemo/ScreenRecordingManager.swift:64-69 | the fields are the initial state: no mode, availability and recording copied from the recorder, settings at their defaults |
| Manager.ScreenRecordingManager.SetMicrophoneEnabled | ReplayKitDemo/ScreenRecordingManager.swift:38-42 | the setter stores the value and forwards exactly that value to the recorder |
| Manager.ScreenRecordingManager.SetCameraEnabled | ReplayKitDemo/ScreenRecordingManager.swift:46-51 | the setter stores and forwards the value, then replaces the camera view with the recorder's current one |
| Manager.ScreenRecordingManager.SetCameraPosition | ReplayKitDemo/ScreenRecordingManager.swift:56-60 | the setter stores the position and forwards it to the recorder |
| Manager.ScreenRecordingManager.StartRecording | ReplayKitDemo/ScreenRecordingManager.swift:73-77 | a start-recording request is issued if and only if the recorder is available and no session is active; no field changes |
| Manager.ScreenRecordingManager.StopRecording | ReplayKitDemo/ScreenRecordingManager.swift:86-91 | a stop-recording request is issued if and only if a session is active, in whatever mode; no field changes |
| Manager.ScreenRecordingManager.StartCapturing | ReplayKitDemo/ScreenRecordingManager.swift:101-107 | a start-capture request is issued if and only if available and not active; no field changes |
| Manager.ScreenRecordingManager.StopCapturing | ReplayKitDemo/ScreenRecordingManager.swift:142-146 | a stop-capture request is issued if and only if a session is active, without checking the mode; no field changes |
| Manager.ScreenRecordingManager.StartClipBuffering | ReplayKitDemo/ScreenRecordingManager.swift:154-158 | a start-clip-buffering request is issued if and only if available and not active; no field changes |
| Manager.ScreenRecordingManager.StopClipBuffering | ReplayKitDemo/ScreenRecordingManager.swift:167-171 | a stop-clip-buffering request is issued if and only if a session is active, without checking the mode; no field changes |
| Manager.ScreenRecordingManager.GenerateClip | ReplayKitDemo/ScreenRecordingManager.swift:177-188 | an export of 15 seconds to the fresh location is issued if and only if a session is active and no export is pending; only then is `exportingClip` set |
| Manager.ScreenRecordingManager.StartRecordingCompleted | ReplayKitDemo/ScreenRecordingManager.swift:77-82 | the new fields are the start completion for recording mode |
| Manager.ScreenRecordingManager.StartCapturingCompleted | ReplayKitDemo/ScreenRecordingManager.swift:132-137 | the new fields are the start completion for capturing mode |
| Manager.ScreenRecordingManager.StartClipBufferingCompleted | ReplayKitDemo/ScreenRecordingManager.swift:158-163 | the new fields are the start completion for clipping mode |
| Manager.ScreenRecordingManager.SampleBufferDelivered | ReplayKitDemo/ScreenRecordingManager.swift:108-115 | a buffer error is stored in `error`; nothing else changes |
| Manager.ScreenRecordingManager.StopRecordingCompleted | ReplayKitDemo/ScreenRecordingManager.swift:91-95 | cleans up with the recorder's availability and the stop error, then stores the returned controller |
| Manager.ScreenRecordingManager.StopCapturingCompleted | ReplayKitDemo/ScreenRecordingManager.swift:146-148 | the new fields are the cleaned-up state with the stop error and the recorder's availability |
| Manager.ScreenRecordingManager.StopClipBufferingCompleted | ReplayKitDemo/ScreenRecordingManager.swift:171-173 | the new fields are the cleaned-up state with the stop error and the recorder's availability |
| Manager.ScreenRecordingManager.ExportClipCompleted | ReplayKitDemo/ScreenRecordingManager.swift:189-195 | the new fields are the export completion for the request's location |
| Manager.ScreenRecordingManager.DidChangeAvailability | ReplayKitDemo/ScreenRecordingManager.swift:202-205 | cleans up with the recorder's availability and the error already stored |
| Manager.ScreenRecordingManager.DidStopRecording | ReplayKitDemo/ScreenRecordingManager.swift:209-216 | stores the controller, then cleans up with the delivered error, so the controller is lost |
| Manager.ScreenRecordingManager.CleanUp | ReplayKitDemo/ScreenRecordingManager.swift:218-227 | the new fields are the cleaned-up state for the supplied recorder, if any, and the error |
| Session.Initial | ReplayKitDemo/ScreenRecordingManager.swift:14-69 | the initial fields: no mode, no export, availability and recording copied from the recorder, every optional nil, settings at false/false/front; "mode set iff recording" holds exactly when the recorder is not recording |
| Session.StartCompleted | ReplayKitDemo/ScreenRecordingManager.swift:77-82 | after a start completion, a session is active if and only if the error is nil, and then in that start's mode. The mode/recording invariant holds whatever the state before. The error and the recorder's camera view are stored. Availability, the controller, the export fields and the settings are kept |
| Session.CleanedUp | ReplayKitDemo/ScreenRecordingManager.swift:218-227 | the result is idle: not recording, no mode, no camera view, no controller. The given error is stored. Availability is the supplied recorder's, or unchanged when none is supplied. `exportingClip`, `clipURL` and the settings are kept |
| Session.RecordingStopped | ReplayKitDemo/ScreenRecordingManager.swift:91-95 | after the stop-recording completion, no session, mode or camera view remains. The controller is the returned one, and the error and availability are the delivered ones. The export fields and the settings are kept |
| Session.RecordingStoppedByRecorder | ReplayKitDemo/ScreenRecordingManager.swift:209-216 | after the did-stop notification the state is idle, equal to a cleanup with the same error and availability: the delivered controller has no effect |
| Session.AvailabilityRefreshed | ReplayKitDemo/ScreenRecordingManager.swift:202-205 | after an availability change the state is idle. Availability is the recorder's new value and the stored error is kept. The export fields and the settings are kept |
| Session.ClipExportRequested | ReplayKitDemo/ScreenRecordingManager.swift:178-181 | `exportingClip` is set afterwards exactly when it was set before or the guard admitted the call. A refused call changes nothing. Nothing else ever changes |
| Session.ClipExportCompleted | ReplayKitDemo/ScreenRecordingManager.swift:189-195 | no export is pending afterwards and the result's error is stored. `clipURL` becomes the request's location on success and is kept on failure. The session fields and the settings are kept |
| Session.SampleBufferDelivered | ReplayKitDemo/ScreenRecordingManager.swift:112-115 | a non-nil buffer error replaces `error` and a nil one keeps it; all other fields are kept |
| Session.MicrophoneSet | ReplayKitDemo/ContentView.swift:47-51 | the microphone setting takes the value; every other field is kept |
| Session.CameraSet | ReplayKitDemo/ContentView.swift:55-60 | the camera setting takes the value and the camera view becomes the recorder's. Session, error, export and other settings are kept |
| Session.CameraPositionSet | ReplayKitDemo/ContentView.swift:65-69 | the position takes the value; every other field is kept |
| SessionProperties.InitialConsistentIff | ReplayKitDemo/ScreenRecordingManager.swift:64-69 | `init` establishes "mode set iff recording" exactly when the recorder is not already recording |
| SessionProperties.StepKeepsConsistent | ReplayKitDemo/ScreenRecordingManager.swift:14-23 | every public call, setter and callback preserves "mode set iff recording" |
| SessionProperties.RunKeepsConsistent | ReplayKitDemo/ScreenRecordingManager.swift:14-23 | any sequence of inputs, in any order, preserves "mode set iff recording" |
| SessionProperties.CleanUpIdempotent | ReplayKitDemo/ScreenRecordingManager.swift:218-227 | `cleanUp` applied twice with the same inputs equals `cleanUp` applied once |
| SessionProperties.SessionEndIdempotent | ReplayKitDemo/ScreenRecordingManager.swift:91-227 | each of the five session-ending callbacks (the stop completions at lines 91-95, 146-148 and 171-173 and the delegate methods at 201-227), delivered twice, has the effect of one delivery |
| SessionProperties.LastSessionEndWins | ReplayKitDemo/ContentView.swift:101-237 | of two session-ending callbacks in a row (the stop completions at lines 101-105, 156-158 and 181-183 and the delegate methods at 211-237), the second alone decides the state, unless it is the availability notification |
| SessionProperties.AvailabilityChangeKeepsStopError | ReplayKitDemo/ScreenRecordingManager.swift:202-205 | an availability change after a stop callback yields the cleanup carrying that stop's error |
| SessionProperties.StopHandleOrdering | ReplayKitDemo/ContentView.swift:219-226 | the stop-recording completion (ContentView.swift:101-105) keeps the returned controller, and the did-stop delegate ends with none. The two agree on every other field |
| SessionProperties.ClientCallsKeepSession | ReplayKitDemo/ScreenRecordingManager.swift:71-197 | any sequence of public calls and setters leaves mode, recording flag, availability, controller, error and `clipURL` unchanged; only callbacks change them |
| SessionProperties.RunClipURL | ReplayKitDemo/ScreenRecordingManager.swift:189-195 | after any sequence of inputs, `clipURL` is the location of the last successful export completion, or the initial value if there was none |
| SessionProperties.ExportFlagHeldUntilCompletion | ReplayKitDemo/ScreenRecordingManager.swift:178-191 | once an export is pending, `exportingClip` stays set through any inputs that include no export completion |
| SessionProperties.SecondExportRefused | ReplayKitDemo/ContentView.swift:187-191 | while an export is pending, a further `generateClip` after any inputs without an export completion changes nothing: at most one export is in flight |
| SessionProperties.LateStartCompletionRestarts | ReplayKitDemo/ScreenRecordingManager.swift:77-82 | a successful start completion reaching an idle manager starts a session in its mode; no stale completion is filtered |
| SessionProperties.StartAdmittedUntilCompletion | ReplayKitDemo/ScreenRecordingManager.swift:73-83 | accepting a start changes nothing, so the guard still admits a second start until a completion arrives |
| SessionProperties.ClipExportAdmittedInEveryMode | ReplayKitDemo/ScreenRecordingManager.swift:176-181 | in any active mode with no export pending, `generateClip` is accepted |

## Left out

- ReplayKit itself (`RPScreenRecorder.shared()`, `RPPreviewViewController`,
  `RPCameraPosition`) is a foreign framework. Its values are opaque types. What it
  reports to a handler is a parameter, and what the manager asks of it is a
  `RecorderCall`.
- The `recorder` is assumed present in every `cleanUp` call site, as it is in the
  code: the stop handlers pass `self?.recorder`, which exists while the manager
  does, and delegates pass theirs. `CleanUp` itself still takes an optional.
- `[weak self]` captures, `nonisolated`, `@unchecked Sendable` and the threads
  that callbacks arrive on are not modelled. Handlers are methods called in any
  sequential order on a live manager.
- `@Observable` change notifications and the intermediate values between two
  assignments of one handler are not modelled. Each handler is atomic. The order
  of assignments shows only in the final fields, as with the controller.
- The sample-buffer handler's switch on the buffer type only prints. Only its
  storing of a buffer error is modelled.
- `UUID()` and `URL.temporaryDirectory` are not modelled. The fresh location is a
  parameter of `GenerateClip`.
- The 15-second duration is a `TimeInterval`, a floating-point value. It is the
  natural number 15 here.
- `OperationMode.id` returns a new UUID on every read. It only forces SwiftUI to
  rebuild a view and is not modelled.
- Registering the manager as the recorder's delegate in `init` is not modelled.
  The delegate methods are the `DidChangeAvailability` and `DidStopRecording`
  methods.
- Views also assign some public fields directly: they reset
  `recordingPreviewController` after a preview and `clipURL` through a
  quick-look binding. These writes are outside the class's logic and are not
  inputs in `Event`.
- All SwiftUI presentation is not part of this model:
  `ReplayKitDemo/Views/*`, `ReplayKitDemo/ContentView.swift:240-461` and
  `ReplayKitDemoApp.swift`.

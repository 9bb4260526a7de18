/**
 * The ReplayKit screen recorder (`RPScreenRecorder`) as seen from the manager.
 * Its values are opaque; what the manager asks of it is a `RecorderCall`.
 */
module Recorder {

  /** An error reported by the recorder. */
  type Error

  /** An `RPPreviewViewController` for a finished recording. */
  type PreviewController

  /** The `UIView` showing the live camera. */
  type CameraView

  /** A file location. */
  type URL

  /** `RPCameraPosition`. */
  datatype CameraPosition = Front | Back

  /** Length of an exported clip, in seconds (`TimeInterval(15)`). */
  const ClipDurationSeconds: nat := 15

  /** A request or configuration write the manager issues to the recorder. */
  datatype RecorderCall =
    | StartRecording
    | StopRecording
    | StartCapture
    | StopCapture
    | StartClipBuffering
    | StopClipBuffering
    | ExportClip(to: URL, durationSeconds: nat)
    | SetMicrophoneEnabled(enabled: bool)
    | SetCameraEnabled(enabled: bool)
    | SetCameraPosition(position: CameraPosition)
}

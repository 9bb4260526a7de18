/**
 * `ScreenRecordingManager`: the fields a SwiftUI view observes, the public
 * operations that check a guard and issue a request to the recorder, and
 * the handlers that fold the recorder's answers into the fields.  What the
 * recorder reports to a handler (an error, a controller, its availability,
 * its camera view) is a parameter of that handler.
 */
module Manager {
  import opened Wrappers
  import opened Recorder
  import opened OperationModes
  import Session

  class ScreenRecordingManager {
    var mode: Option<OperationMode>
    var exportingClip: bool
    var isAvailable: bool
    var isRecording: bool
    var error: Option<Error>
    var recordingPreviewController: Option<PreviewController>
    var cameraPreviewView: Option<CameraView>
    var clipURL: Option<URL>
    var isMicrophoneEnabled: bool
    var isCameraEnabled: bool
    var cameraPosition: CameraPosition

    /** The fields as one value. */
    function State(): Session.ManagerState
      reads this
    {
      Session.ManagerState(mode, exportingClip, isAvailable, isRecording, error,
                           recordingPreviewController, cameraPreviewView, clipURL,
                           isMicrophoneEnabled, isCameraEnabled, cameraPosition)
    }

    /** `init`: availability and the recording flag are read from the recorder. */
    constructor (recorderAvailable: bool, recorderRecording: bool)
      ensures State() == Session.Initial(recorderAvailable, recorderRecording)
    {
      mode := None;
      exportingClip := false;
      isAvailable := recorderAvailable;
      isRecording := recorderRecording;
      error := None;
      recordingPreviewController := None;
      cameraPreviewView := None;
      clipURL := None;
      isMicrophoneEnabled := false;
      isCameraEnabled := false;
      cameraPosition := Front;
    }

    // Configuration; each setter forwards its value to the recorder.

    method SetMicrophoneEnabled(enabled: bool) returns (call: RecorderCall)
      modifies this
      ensures State() == Session.MicrophoneSet(old(State()), enabled)
      ensures call == RecorderCall.SetMicrophoneEnabled(enabled)
    {
      isMicrophoneEnabled := enabled;
      call := RecorderCall.SetMicrophoneEnabled(enabled);
    }

    /** `recorderView` is the recorder's camera view once it has the new value. */
    method SetCameraEnabled(enabled: bool, recorderView: Option<CameraView>) returns (call: RecorderCall)
      modifies this
      ensures State() == Session.CameraSet(old(State()), enabled, recorderView)
      ensures call == RecorderCall.SetCameraEnabled(enabled)
    {
      isCameraEnabled := enabled;
      call := RecorderCall.SetCameraEnabled(enabled);
      cameraPreviewView := recorderView;
    }

    method SetCameraPosition(position: CameraPosition) returns (call: RecorderCall)
      modifies this
      ensures State() == Session.CameraPositionSet(old(State()), position)
      ensures call == RecorderCall.SetCameraPosition(position)
    {
      cameraPosition := position;
      call := RecorderCall.SetCameraPosition(position);
    }

    // Public operations: each returns the request it issues, if any, and
    // changes no field (except `GenerateClip`).

    method StartRecording() returns (call: Option<RecorderCall>)
      ensures call.Some? <==> isAvailable && !isRecording
      ensures call.Some? ==> call.value == RecorderCall.StartRecording
    {
      if !isAvailable || isRecording {
        return None;
      }
      call := Some(RecorderCall.StartRecording);
    }

    method StopRecording() returns (call: Option<RecorderCall>)
      ensures call.Some? <==> isRecording
      ensures call.Some? ==> call.value == RecorderCall.StopRecording
    {
      if !isRecording {
        return None;
      }
      call := Some(RecorderCall.StopRecording);
    }

    method StartCapturing() returns (call: Option<RecorderCall>)
      ensures call.Some? <==> isAvailable && !isRecording
      ensures call.Some? ==> call.value == RecorderCall.StartCapture
    {
      if !isAvailable || isRecording {
        return None;
      }
      call := Some(RecorderCall.StartCapture);
    }

    method StopCapturing() returns (call: Option<RecorderCall>)
      ensures call.Some? <==> isRecording
      ensures call.Some? ==> call.value == RecorderCall.StopCapture
    {
      if !isRecording {
        return None;
      }
      call := Some(RecorderCall.StopCapture);
    }

    method StartClipBuffering() returns (call: Option<RecorderCall>)
      ensures call.Some? <==> isAvailable && !isRecording
      ensures call.Some? ==> call.value == RecorderCall.StartClipBuffering
    {
      if !isAvailable || isRecording {
        return None;
      }
      call := Some(RecorderCall.StartClipBuffering);
    }

    method StopClipBuffering() returns (call: Option<RecorderCall>)
      ensures call.Some? <==> isRecording
      ensures call.Some? ==> call.value == RecorderCall.StopClipBuffering
    {
      if !isRecording {
        return None;
      }
      call := Some(RecorderCall.StopClipBuffering);
    }

    /** `freshURL` is the new temporary file the clip is exported to. */
    method GenerateClip(freshURL: URL) returns (call: Option<RecorderCall>)
      modifies this
      ensures State() == Session.ClipExportRequested(old(State()))
      ensures call.Some? <==> old(isRecording) && !old(exportingClip)
      ensures call.Some? ==> call.value == RecorderCall.ExportClip(freshURL, ClipDurationSeconds)
    {
      if !isRecording || exportingClip {
        return None;
      }
      exportingClip := true;
      call := Some(RecorderCall.ExportClip(freshURL, ClipDurationSeconds));
    }

    // Completion handlers of the requests above.

    method StartRecordingCompleted(err: Option<Error>, recorderView: Option<CameraView>)
      modifies this
      ensures State() == Session.StartCompleted(old(State()), Recording, err, recorderView)
    {
      error := err;
      isRecording := err.None?;
      mode := if err.None? then Some(Recording) else None;
      cameraPreviewView := recorderView;
    }

    method StartCapturingCompleted(err: Option<Error>, recorderView: Option<CameraView>)
      modifies this
      ensures State() == Session.StartCompleted(old(State()), Capturing, err, recorderView)
    {
      error := err;
      isRecording := err.None?;
      mode := if err.None? then Some(Capturing) else None;
      cameraPreviewView := recorderView;
    }

    method StartClipBufferingCompleted(err: Option<Error>, recorderView: Option<CameraView>)
      modifies this
      ensures State() == Session.StartCompleted(old(State()), Clipping, err, recorderView)
    {
      error := err;
      isRecording := err.None?;
      mode := if err.None? then Some(Clipping) else None;
      cameraPreviewView := recorderView;
    }

    /** The capture sample handler; the buffer itself is only inspected. */
    method SampleBufferDelivered(err: Option<Error>)
      modifies this
      ensures State() == Session.SampleBufferDelivered(old(State()), err)
    {
      if err.Some? {
        error := err;
      }
    }

    method StopRecordingCompleted(controller: Option<PreviewController>, err: Option<Error>,
                                  recorderAvailable: bool)
      modifies this
      ensures State() == Session.RecordingStopped(old(State()), controller, err, recorderAvailable)
    {
      CleanUp(Some(recorderAvailable), err);
      recordingPreviewController := controller;
    }

    method StopCapturingCompleted(err: Option<Error>, recorderAvailable: bool)
      modifies this
      ensures State() == Session.CleanedUp(old(State()), Some(recorderAvailable), err)
    {
      CleanUp(Some(recorderAvailable), err);
    }

    method StopClipBufferingCompleted(err: Option<Error>, recorderAvailable: bool)
      modifies this
      ensures State() == Session.CleanedUp(old(State()), Some(recorderAvailable), err)
    {
      CleanUp(Some(recorderAvailable), err);
    }

    /** `url` is the location the completed request exported to. */
    method ExportClipCompleted(url: URL, err: Option<Error>)
      modifies this
      ensures State() == Session.ClipExportCompleted(old(State()), url, err)
    {
      error := err;
      exportingClip := false;
      if err.None? {
        clipURL := Some(url);
      }
    }

    // Recorder delegate.

    method DidChangeAvailability(recorderAvailable: bool)
      modifies this
      ensures State() == Session.AvailabilityRefreshed(old(State()), recorderAvailable)
    {
      CleanUp(Some(recorderAvailable), error);
    }

    /** The recorder stopped on its own (not through `StopRecording`). */
    method DidStopRecording(controller: Option<PreviewController>, err: Option<Error>,
                            recorderAvailable: bool)
      modifies this
      ensures State() == Session.RecordingStoppedByRecorder(old(State()), controller, err, recorderAvailable)
    {
      recordingPreviewController := controller;
      CleanUp(Some(recorderAvailable), err);
    }

    /** `recorderAvailable` is the supplied recorder's availability, if one is supplied. */
    method CleanUp(recorderAvailable: Option<bool>, err: Option<Error>)
      modifies this
      ensures State() == Session.CleanedUp(old(State()), recorderAvailable, err)
    {
      if recorderAvailable.Some? {
        isAvailable := recorderAvailable.value;
      }
      error := err;
      isRecording := false;
      cameraPreviewView := None;
      recordingPreviewController := None;
      mode := None;
    }
  }
}

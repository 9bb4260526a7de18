/**
 * Properties of the manager's transitions, for one input and for any
 * sequence of inputs.
 */
module SessionProperties {
  import opened Wrappers
  import opened Recorder
  import opened OperationModes
  import opened Session

  /**
   * `init` copies `isRecording` from the recorder but leaves `mode` unset, so
   * it establishes the invariant exactly when the recorder is not recording.
   */
  lemma InitialConsistentIff(recorderAvailable: bool, recorderRecording: bool)
    ensures Initial(recorderAvailable, recorderRecording).Consistent() <==> !recorderRecording
  {
  }

  /** Every input keeps the invariant linking `mode` and `isRecording`. */
  lemma StepKeepsConsistent(s: ManagerState, e: Event)
    requires s.Consistent()
    ensures Step(s, e).Consistent()
  {
  }

  /** Any sequence of inputs keeps the invariant. */
  lemma {:induction false} RunKeepsConsistent(s: ManagerState, es: seq<Event>)
    requires s.Consistent()
    ensures Run(s, es).Consistent()
    decreases |es|
  {
    if es != [] {
      StepKeepsConsistent(s, es[0]);
      RunKeepsConsistent(Step(s, es[0]), es[1..]);
    }
  }

  /** Running two sequences of inputs is running the first, then the second. */
  lemma {:induction false} RunAppend(s: ManagerState, xs: seq<Event>, ys: seq<Event>)
    ensures Run(s, xs + ys) == Run(Run(s, xs), ys)
    decreases |xs|
  {
    if xs != [] {
      assert (xs + ys)[0] == xs[0];
      assert (xs + ys)[1..] == xs[1..] + ys;
      RunAppend(Step(s, xs[0]), xs[1..], ys);
    } else {
      assert xs + ys == ys;
    }
  }

  /** The inputs `es` followed by `e`: one step after the run. */
  lemma RunSnoc(s: ManagerState, es: seq<Event>, e: Event)
    ensures Run(s, es + [e]) == Step(Run(s, es), e)
  {
    RunAppend(s, es, [e]);
    assert Run(Run(s, es), [e]) == Run(Step(Run(s, es), e), []);
  }

  /** `cleanUp` is a reset: a second one with the same inputs changes nothing. */
  lemma CleanUpIdempotent(s: ManagerState, recorderAvailable: Option<bool>, err: Option<Error>)
    ensures CleanedUp(CleanedUp(s, recorderAvailable, err), recorderAvailable, err)
         == CleanedUp(s, recorderAvailable, err)
  {
  }

  /** A callback that ends the session, delivered twice, acts as once. */
  lemma SessionEndIdempotent(s: ManagerState, cb: Callback)
    requires cb.EndsSession()
    ensures Step(Step(s, Delivered(cb)), Delivered(cb)) == Step(s, Delivered(cb))
  {
  }

  /**
   * Of two session-ending callbacks that race, the later one decides the
   * state, unless it is the availability notification, which keeps the
   * error the earlier one stored.
   */
  lemma LastSessionEndWins(s: ManagerState, first: Callback, second: Callback)
    requires first.EndsSession() && second.EndsSession() && !second.DidChangeAvailability?
    ensures Step(Step(s, Delivered(first)), Delivered(second)) == Step(s, Delivered(second))
  {
  }

  /** An availability change after a stop completion keeps that stop's error. */
  lemma AvailabilityChangeKeepsStopError(s: ManagerState, stop: Callback, recorderAvailable: bool)
    requires stop.EndsSession() && !stop.DidChangeAvailability?
    ensures Step(Step(s, Delivered(stop)), Delivered(DidChangeAvailability(recorderAvailable)))
         == CleanedUp(s, Some(recorderAvailable), stop.err)
  {
  }

  /**
   * `stopRecording`'s handler assigns the controller after `cleanUp` and
   * keeps it; the did-stop delegate assigns it before `cleanUp` and loses it.
   * Otherwise the two agree.
   */
  lemma StopHandleOrdering(s: ManagerState, controller: Option<PreviewController>,
                           err: Option<Error>, recorderAvailable: bool)
    ensures RecordingStopped(s, controller, err, recorderAvailable).recordingPreviewController == controller
    ensures RecordingStoppedByRecorder(s, controller, err, recorderAvailable).recordingPreviewController.None?
    ensures RecordingStopped(s, controller, err, recorderAvailable)
         == RecordingStoppedByRecorder(s, controller, err, recorderAvailable).(recordingPreviewController := controller)
  {
  }

  /**
   * A public operation or a setter never starts or ends a session and never
   * stores an error: only callbacks do.
   */
  lemma {:induction false} ClientCallsKeepSession(s: ManagerState, es: seq<Event>)
    requires forall i :: 0 <= i < |es| ==> es[i].Invoked?
    ensures SameLifecycle(s, Run(s, es))
    ensures Run(s, es).error == s.error && Run(s, es).clipURL == s.clipURL
    decreases |es|
  {
    if es != [] {
      var t := Step(s, es[0]);
      assert SameLifecycle(s, t) && t.error == s.error && t.clipURL == s.clipURL;
      ClientCallsKeepSession(t, es[1..]);
    }
  }

  /** The location of the last successful export among `es`, else `initial`. */
  function LastExportedClip(initial: Option<URL>, es: seq<Event>): Option<URL>
    decreases |es|
  {
    if es == [] then initial
    else
      match es[|es| - 1]
      case Delivered(ExportClipHandler(url, None)) => Some(url)
      case _ => LastExportedClip(initial, es[..|es| - 1])
  }

  /**
   * `clipURL` is always the location of the last successful export: a
   * failed export, a stop or a notification never overwrites it.
   */
  lemma {:induction false} RunClipURL(s: ManagerState, es: seq<Event>)
    ensures Run(s, es).clipURL == LastExportedClip(s.clipURL, es)
    decreases |es|
  {
    if es != [] {
      var init, last := es[..|es| - 1], es[|es| - 1];
      assert es == init + [last];
      RunSnoc(s, init, last);
      RunClipURL(s, init);
    }
  }

  /** No input among `es` is an export completion. */
  predicate NoExportCompletion(es: seq<Event>) {
    forall i :: 0 <= i < |es| ==> !(es[i].Delivered? && es[i].cb.ExportClipHandler?)
  }

  /**
   * Once an export is in flight, `exportingClip` stays set until its
   * completion arrives: ending the session does not clear it.
   */
  lemma {:induction false} ExportFlagHeldUntilCompletion(s: ManagerState, es: seq<Event>)
    requires s.exportingClip && NoExportCompletion(es)
    ensures Run(s, es).exportingClip
    decreases |es|
  {
    if es != [] {
      assert Step(s, es[0]).exportingClip;
      ExportFlagHeldUntilCompletion(Step(s, es[0]), es[1..]);
    }
  }

  /**
   * At most one export is in flight: while one is pending, `generateClip`
   * is a no-op whatever else happens in between.
   */
  lemma SecondExportRefused(s: ManagerState, es: seq<Event>, url: URL)
    requires s.exportingClip && NoExportCompletion(es)
    ensures Run(s, es + [Invoked(GenerateClip(url))]) == Run(s, es)
  {
    RunSnoc(s, es, Invoked(GenerateClip(url)));
    ExportFlagHeldUntilCompletion(s, es);
  }

  /**
   * A start completion is not matched against the session it belongs to: one
   * that arrives after the session was cleaned up starts a session again.
   */
  lemma LateStartCompletionRestarts(s: ManagerState, m: OperationMode, recorderView: Option<CameraView>)
    requires s.Idle()
    ensures Step(s, Delivered(StartHandler(m, None, recorderView))).isRecording
    ensures Step(s, Delivered(StartHandler(m, None, recorderView))).mode == Some(m)
  {
  }

  /**
   * Accepting a start does not change the state, so a second start issued
   * before the first completes passes the guard as well.
   */
  lemma StartAdmittedUntilCompletion(s: ManagerState, first: Operation)
    requires first.StartRecording? || first.StartCapturing? || first.StartClipBuffering?
    requires s.AdmitsStart()
    ensures Step(s, Invoked(first)) == s
    ensures Step(s, Invoked(first)).AdmitsStart()
  {
  }

  /**
   * `generateClip` checks only that some session is active, so an export is
   * accepted in recording and capturing mode as well as in clipping mode.
   */
  lemma ClipExportAdmittedInEveryMode(s: ManagerState, m: OperationMode)
    requires s.mode == Some(m) && s.Consistent() && !s.exportingClip
    ensures ClipExportRequested(s).exportingClip
  {
  }
}

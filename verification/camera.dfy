/**
 * The camera's observable state and the synchronous decisions around it:
 * switching between the front and back cameras and setting the zoom factor.
 * The capture session, its dispatch queue and the device lookup are
 * abstracted into the outcome of each step.
 */
module Camera {

  import opened Optional
  import opened Flash
  import opened OpticalZoom

  datatype SessionState = Running | NotRunning | Committing

  datatype CameraSide = Front | Back {

    /** `CameraSide.toggle`. */
    function Toggle(): (r: CameraSide)
      ensures r != this
    {
      if this == Front then Back else Front
    }
  }

  /** Toggling is an involution. */
  lemma ToggleTwice(side: CameraSide)
    ensures side.Toggle().Toggle() == side
  {
  }

  datatype CameraState = CameraState(
    shutterDisabled: bool,
    isBusyProcessing: bool,
    dimCameraPreview: real,
    interfaceRotationAngle: int,
    sessionState: SessionState,
    cameraSide: CameraSide,
    zoomFactor: real,
    zoomFactors: ZoomFactors,
    flashMode: FlashMode)

  /** The state of a freshly created camera. */
  const InitialCamera := CameraState(
    shutterDisabled := false,
    isBusyProcessing := false,
    dimCameraPreview := 0.0,
    interfaceRotationAngle := 0,
    sessionState := NotRunning,
    cameraSide := Back,
    zoomFactor := 1.0,
    zoomFactors := InitialZoomFactors,
    flashMode := Auto)

  /** Dimming applied while the cameras are being switched. */
  const ToggleDim: real := 0.2

  /** The synchronous part of `toggleCamera`: disable the shutter, mark the
      session as committing, dim the preview and flip the side. Nothing else
      changes before the delayed device switch runs. */
  function ToggleCamera(s: CameraState): (r: CameraState)
    ensures r.shutterDisabled && r.sessionState == Committing && r.dimCameraPreview == ToggleDim
    ensures r.cameraSide != s.cameraSide
    ensures r.(shutterDisabled := s.shutterDisabled, sessionState := s.sessionState,
               dimCameraPreview := s.dimCameraPreview, cameraSide := s.cameraSide) == s
  {
    s.(shutterDisabled := true,
       sessionState := Committing,
       dimCameraPreview := ToggleDim,
       cameraSide := s.cameraSide.Toggle())
  }

  /** Two quick taps bring the side back; the shutter stays disabled until a
      switch completes. */
  lemma ToggleCameraTwice(s: CameraState)
    ensures ToggleCamera(ToggleCamera(s)).cameraSide == s.cameraSide
    ensures ToggleCamera(ToggleCamera(s)).shutterDisabled
  {
  }

  /** `setZoomFactor` through `configureCaptureDevice`: the zoom is only
      recorded when there is a device and it could be locked. */
  function SetZoomFactor(s: CameraState, deviceConfigurable: bool, zoomFactor: real): (r: CameraState)
    ensures deviceConfigurable ==> r.zoomFactor == zoomFactor
    ensures !deviceConfigurable ==> r == s
    ensures r.(zoomFactor := s.zoomFactor) == s
  {
    if deviceConfigurable then s.(zoomFactor := zoomFactor) else s
  }

  /** The zoom a camera side starts at: the main lens on the back, the
      crop factor (if any) on the front. */
  function DefaultZoomFactor(side: CameraSide, z: ZoomFactors): (f: real)
    ensures side == Back ==> f == z.backCameraDefaultZoomFactor
    ensures side == Front ==> f == z.frontCameraDefaultZoomFactor
  {
    if side == Back then z.backCameraDefaultZoomFactor else z.frontCameraDefaultZoomFactor
  }

  /** How the delayed device switch went. */
  datatype SwitchOutcome =
    | NoDeviceFound                      // the lookup found no device on that side
    | InputCreationFailed                // the device input could not be created
    | InputRejected                      // the session could not add the new input
    | Switched(deviceConfigurable: bool) // the new input is in; can it be locked?

  /** The delayed part of the switch, collapsed into its final effect. On
      the two early returns nothing is reset: the shutter stays disabled and
      the session stays committing. Otherwise the new device starts at its
      side's default zoom and the preview comes back running and undimmed. */
  function CompleteToggle(s: CameraState, outcome: SwitchOutcome): (r: CameraState)
    ensures outcome.NoDeviceFound? || outcome.InputCreationFailed? ==> r == s
    ensures outcome.Switched? || outcome.InputRejected? ==>
      && r.sessionState == Running && !r.shutterDisabled && r.dimCameraPreview == 0.0
      && r.cameraSide == s.cameraSide && r.zoomFactors == s.zoomFactors
    ensures outcome.Switched? && outcome.deviceConfigurable ==>
      r.zoomFactor == DefaultZoomFactor(s.cameraSide, s.zoomFactors)
    ensures !(outcome.Switched? && outcome.deviceConfigurable) ==> r.zoomFactor == s.zoomFactor
  {
    match outcome
    case NoDeviceFound => s
    case InputCreationFailed => s
    case InputRejected =>
      s.(sessionState := Running, dimCameraPreview := 0.0, shutterDisabled := false)
    case Switched(configurable) =>
      var zoomed := SetZoomFactor(s, configurable, DefaultZoomFactor(s.cameraSide, s.zoomFactors));
      zoomed.(sessionState := Running, dimCameraPreview := 0.0, shutterDisabled := false)
  }

  /** A switch whose device lookup fails leaves the shutter disabled and the
      session committing for good: no later step of the switch re-enables it. */
  lemma FailedLookupKeepsShutterDisabled(s: CameraState)
    ensures CompleteToggle(ToggleCamera(s), NoDeviceFound).shutterDisabled
    ensures CompleteToggle(ToggleCamera(s), NoDeviceFound).sessionState == Committing
  {
  }

  /** A full, successful switch to the other side lands on that side's
      default zoom with the shutter usable again. */
  lemma {:induction false} SwitchLandsOnDefaultZoom(s: CameraState)
    ensures
      var r := CompleteToggle(ToggleCamera(s), Switched(true));
      && r.cameraSide == s.cameraSide.Toggle()
      && r.zoomFactor == DefaultZoomFactor(s.cameraSide.Toggle(), s.zoomFactors)
      && !r.shutterDisabled && r.sessionState == Running
  {
    var t := ToggleCamera(s);
    assert t.zoomFactors == s.zoomFactors;
  }

  /** What `configureSession` finds once the back camera lookup (`back` in
      `StartSession`) has succeeded: the device input could not be created
      (for example when camera access is denied), the session refused it
      (as on a restart, where the earlier input is still in the session),
      or it was added; in the last case, can the device be locked? */
  datatype StartInput =
    | NoInput
    | InputNotAdded
    | InputAdded(deviceConfigurable: bool)

  /** `startSession` with `configureSession`, collapsed into their effect
      on the camera state. Nothing happens while the capture session is
      already running. Otherwise the session always ends up running, but
      a failed back camera lookup or input creation returns before the
      zoom options are computed, and only an added input triggers the
      lens-switching setup that zooms to the first switch-over factor. */
  function StartSession(s: CameraState, sessionIsRunning: bool, back: Option<BackCamera>,
                        input: StartInput, front: Option<FrontCamera>): (r: CameraState)
    ensures sessionIsRunning ==> r == s
    ensures !sessionIsRunning ==> r.sessionState == Running
    ensures !sessionIsRunning && (back.None? || input.NoInput?) ==>
      r == s.(sessionState := Running)
    ensures !sessionIsRunning && back.Some? && !input.NoInput? ==>
      r.zoomFactors == ConfigureZoomFactors(s.zoomFactors, back, front)
    ensures !sessionIsRunning && back.Some? && input == InputAdded(true) &&
            |back.value.switchOverZoomFactors| > 0 ==>
      r.zoomFactor == r.zoomFactors.backCameraDefaultZoomFactor
    ensures !(!sessionIsRunning && back.Some? && input == InputAdded(true) &&
              |back.value.switchOverZoomFactors| > 0) ==>
      r.zoomFactor == s.zoomFactor
    ensures r.(sessionState := s.sessionState, zoomFactor := s.zoomFactor, zoomFactors := s.zoomFactors) == s
  {
    if sessionIsRunning then s
    else match (back, input)
      case (None, _) => s.(sessionState := Running)
      case (Some(_), NoInput) => s.(sessionState := Running)
      case (Some(b), InputNotAdded) =>
        s.(zoomFactors := ConfigureZoomFactors(s.zoomFactors, back, front), sessionState := Running)
      case (Some(b), InputAdded(configurable)) =>
        var zoomed :=
          if |b.switchOverZoomFactors| > 0
          then SetZoomFactor(s, configurable, b.switchOverZoomFactors[0])
          else s;
        zoomed.(zoomFactors := ConfigureZoomFactors(s.zoomFactors, back, front), sessionState := Running)
  }

  /** Restarting after a stop finds the earlier input still in the session,
      so the zoom the user left is kept while the options are recomputed. */
  lemma {:induction false} RestartKeepsZoom(s: CameraState, back: BackCamera, front: Option<FrontCamera>)
    ensures StartSession(s, false, Some(back), InputNotAdded, front).zoomFactor == s.zoomFactor
    ensures StartSession(s, false, Some(back), InputNotAdded, front).sessionState == Running
  {
  }
}

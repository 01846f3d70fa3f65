/**
 * Tap to focus and press-and-hold to lock focus and exposure on the camera
 * preview, as a state machine over discrete events. The two timers of the
 * hold gesture (0.6 s, then another 0.4 s) appear as the events
 * `FirstDelayElapsed` and `SecondDelayElapsed`.
 */
module FocusGesture {

  import opened Optional
  import opened CaptureDevice

  /** How the manual focus rectangle is drawn. */
  datatype ManualFocusMode = ManualFocus | ManualFocusLocking | ManualFocusLocked

  datatype FocusScreen = FocusScreen(
    manualFocusMode: ManualFocusMode,
    manualFocusRectangle: Option<Point>,
    showAutoFocusRectangle: bool,
    isTouching: bool,
    focusLocked: bool,
    device: FocusDevice)

  /** Each event that carries a location also carries the point of interest
      the preview layer converts it to. */
  datatype FocusEvent =
    | Tap(location: Point, pointOfInterest: Point)
    | TouchBegan
    | TouchEnded
    | FirstDelayElapsed(location: Point, pointOfInterest: Point)
    | SecondDelayElapsed(pointOfInterest: Point)
    | SubjectAreaChanged
    | AutoFocusRectangleTimedOut
    | SessionStateChanged(committing: bool)

  /** A device change made through `configureCaptureDevice`, which does
      nothing when there is no device or it cannot be locked. */
  function Configure(d: FocusDevice, deviceConfigurable: bool, configured: FocusDevice): (r: FocusDevice)
    ensures deviceConfigurable ==> r == configured
    ensures !deviceConfigurable ==> r == d
  {
    if deviceConfigurable then configured else d
  }

  /** `setAutoFocus`: focus and expose once at the point, then watch the
      subject area. */
  function AutoFocusAt(d: FocusDevice, deviceConfigurable: bool, p: Point): FocusDevice {
    Configure(d, deviceConfigurable, SetManualFocus(d, p, FocusMode.AutoFocus, ExposureMode.AutoExpose))
  }

  /** `setLockedFocus`: lock focus and exposure at the point. */
  function LockedFocusAt(d: FocusDevice, deviceConfigurable: bool, p: Point): FocusDevice {
    Configure(d, deviceConfigurable, SetManualFocus(d, p, FocusMode.Locked, ExposureMode.Locked))
  }

  /** The automatic request watches the subject area and the locking one
      does not, whenever the device takes points of interest. */
  lemma FocusRequestsSetMonitoring(d: FocusDevice, p: Point)
    requires d.focusPointOfInterestSupported && d.exposurePointOfInterestSupported
    ensures AutoFocusAt(d, true, p).subjectAreaChangeMonitoring
    ensures !LockedFocusAt(d, true, p).subjectAreaChangeMonitoring
    ensures FocusMode.AutoFocus in d.supportedFocusModes ==> AutoFocusAt(d, true, p).focusMode == FocusMode.AutoFocus
    ensures FocusMode.Locked in d.supportedFocusModes ==> LockedFocusAt(d, true, p).focusMode == FocusMode.Locked
    ensures ExposureMode.AutoExpose in d.supportedExposureModes ==> AutoFocusAt(d, true, p).exposureMode == ExposureMode.AutoExpose
    ensures ExposureMode.Locked in d.supportedExposureModes ==> LockedFocusAt(d, true, p).exposureMode == ExposureMode.Locked
  {
  }

  /** The screen after one event; each clause group says what the event
      changes and that it changes nothing else. */
  function Step(s: FocusScreen, e: FocusEvent, deviceConfigurable: bool): (r: FocusScreen)
    // A tap unlocks, draws the plain rectangle at the tap and focuses there.
    ensures e.Tap? ==>
      && !r.focusLocked && r.manualFocusMode == ManualFocus
      && r.manualFocusRectangle == Some(e.location)
      && r.device == AutoFocusAt(s.device, deviceConfigurable, e.pointOfInterest)
      && r.(focusLocked := s.focusLocked, manualFocusMode := s.manualFocusMode,
            manualFocusRectangle := s.manualFocusRectangle, device := s.device) == s
    // Touching down only records the touch (the hold's timers start).
    ensures e.TouchBegan? ==> r.isTouching && r.(isTouching := s.isTouching) == s
    // Lifting the finger completes a lock in progress and changes no other mode.
    ensures e.TouchEnded? ==>
      && !r.isTouching
      && (s.manualFocusMode == ManualFocusLocking ==> r.manualFocusMode == ManualFocusLocked)
      && (s.manualFocusMode != ManualFocusLocking ==> r.manualFocusMode == s.manualFocusMode)
      && r.(isTouching := s.isTouching, manualFocusMode := s.manualFocusMode) == s
    // Still holding after the first delay: start locking and focus at the point.
    ensures e.FirstDelayElapsed? && s.isTouching ==>
      && r.manualFocusMode == ManualFocusLocking
      && r.manualFocusRectangle == Some(e.location)
      && r.device == AutoFocusAt(s.device, deviceConfigurable, e.pointOfInterest)
      && r.(manualFocusMode := s.manualFocusMode, manualFocusRectangle := s.manualFocusRectangle,
            device := s.device) == s
    // After the second delay: lock if still holding, otherwise fall back.
    ensures e.SecondDelayElapsed? && s.isTouching ==>
      && r.focusLocked && r.device == LockedFocusAt(s.device, deviceConfigurable, e.pointOfInterest)
      && r.(focusLocked := s.focusLocked, device := s.device) == s
    ensures e.SecondDelayElapsed? && !s.isTouching ==>
      && !r.focusLocked && r.manualFocusMode == ManualFocus
      && r.(focusLocked := s.focusLocked, manualFocusMode := s.manualFocusMode) == s
    // Timers of a hold that already ended do nothing else.
    ensures e.FirstDelayElapsed? && !s.isTouching ==> r == s
    // The subject moved: back to continuous focus with monitoring off.
    ensures e.SubjectAreaChanged? ==>
      && r.manualFocusRectangle.None? && r.showAutoFocusRectangle
      && r.device == Configure(s.device, deviceConfigurable, ResetToContinuous(s.device))
      && r.(device := s.device, manualFocusRectangle := s.manualFocusRectangle,
            showAutoFocusRectangle := s.showAutoFocusRectangle) == s
    // A second after a subject-area change the rectangle hides again.
    ensures e.AutoFocusRectangleTimedOut? ==>
      !r.showAutoFocusRectangle && r.(showAutoFocusRectangle := s.showAutoFocusRectangle) == s
    ensures e.SessionStateChanged? ==>
      (e.committing ==> r.manualFocusRectangle.None?) && r.(manualFocusRectangle := s.manualFocusRectangle) == s
    ensures SameCapabilities(s.device, r.device)
  {
    match e
    case Tap(location, poi) =>
      s.(focusLocked := false, manualFocusMode := ManualFocus, manualFocusRectangle := Some(location),
         device := AutoFocusAt(s.device, deviceConfigurable, poi))
    case TouchBegan =>
      s.(isTouching := true)
    case TouchEnded =>
      var released := s.(isTouching := false);
      if released.manualFocusMode == ManualFocusLocking then released.(manualFocusMode := ManualFocusLocked)
      else released
    case FirstDelayElapsed(location, poi) =>
      if !s.isTouching then s
      else s.(manualFocusMode := ManualFocusLocking, manualFocusRectangle := Some(location),
              device := AutoFocusAt(s.device, deviceConfigurable, poi))
    case SecondDelayElapsed(poi) =>
      if !s.isTouching then s.(manualFocusMode := ManualFocus, focusLocked := false)
      else s.(device := LockedFocusAt(s.device, deviceConfigurable, poi), focusLocked := true)
    case SubjectAreaChanged =>
      s.(device := Configure(s.device, deviceConfigurable, ResetToContinuous(s.device)),
         manualFocusRectangle := None, showAutoFocusRectangle := true)
    case AutoFocusRectangleTimedOut =>
      s.(showAutoFocusRectangle := false)
    case SessionStateChanged(committing) =>
      if committing then s.(manualFocusRectangle := None) else s
  }

  /** The screen after a sequence of events. */
  function Run(s: FocusScreen, events: seq<FocusEvent>, deviceConfigurable: bool): FocusScreen
    decreases |events|
  {
    if |events| == 0 then s else Run(Step(s, events[0], deviceConfigurable), events[1..], deviceConfigurable)
  }

  /** Running two event sequences one after the other is running their
      concatenation. */
  lemma {:induction false} RunAppend(s: FocusScreen, a: seq<FocusEvent>, b: seq<FocusEvent>, deviceConfigurable: bool)
    ensures Run(s, a + b, deviceConfigurable) == Run(Run(s, a, deviceConfigurable), b, deviceConfigurable)
    decreases |a|
  {
    if |a| > 0 {
      assert (a + b)[0] == a[0];
      assert (a + b)[1..] == a[1..] + b;
      RunAppend(Step(s, a[0], deviceConfigurable), a[1..], b, deviceConfigurable);
    } else {
      assert a + b == b;
    }
  }

  /** Four events in a row are four steps. */
  lemma {:induction false} RunFour(s: FocusScreen, e1: FocusEvent, e2: FocusEvent, e3: FocusEvent, e4: FocusEvent, deviceConfigurable: bool)
    ensures Run(s, [e1, e2, e3, e4], deviceConfigurable) ==
      Step(Step(Step(Step(s, e1, deviceConfigurable), e2, deviceConfigurable), e3, deviceConfigurable), e4, deviceConfigurable)
  {
    var c := deviceConfigurable;
    assert [e1, e2, e3, e4] == [e1] + [e2] + [e3] + [e4];
    RunAppend(s, [e1] + [e2] + [e3], [e4], c);
    RunAppend(s, [e1] + [e2], [e3], c);
    RunAppend(s, [e1], [e2], c);
    assert Run(s, [e1], c) == Step(s, e1, c) by { assert [e1][1..] == []; }
    var s1 := Step(s, e1, c);
    assert Run(s1, [e2], c) == Step(s1, e2, c) by { assert [e2][1..] == []; }
    var s2 := Step(s1, e2, c);
    assert Run(s2, [e3], c) == Step(s2, e3, c) by { assert [e3][1..] == []; }
    var s3 := Step(s2, e3, c);
    assert Run(s3, [e4], c) == Step(s3, e4, c) by { assert [e4][1..] == []; }
  }

  /** A hold that outlasts both delays ends with focus and exposure locked
      at the point, monitoring off, and the rectangle drawn as locked once
      the finger lifts. */
  lemma {:induction false} HoldLocksFocus(s: FocusScreen, location: Point, poi: Point)
    requires s.device.focusPointOfInterestSupported && s.device.exposurePointOfInterestSupported
    requires FocusMode.Locked in s.device.supportedFocusModes
    requires ExposureMode.Locked in s.device.supportedExposureModes
    ensures
      var r := Run(s, [TouchBegan, FirstDelayElapsed(location, poi), SecondDelayElapsed(poi), TouchEnded], true);
      && r.focusLocked && r.manualFocusMode == ManualFocusLocked
      && r.manualFocusRectangle == Some(location)
      && r.device.focusMode == FocusMode.Locked && r.device.exposureMode == ExposureMode.Locked
      && r.device.focusPointOfInterest == poi && !r.device.subjectAreaChangeMonitoring
  {
    var s1 := Step(s, TouchBegan, true);
    var s2 := Step(s1, FirstDelayElapsed(location, poi), true);
    var s3 := Step(s2, SecondDelayElapsed(poi), true);
    var s4 := Step(s3, TouchEnded, true);
    RunFour(s, TouchBegan, FirstDelayElapsed(location, poi), SecondDelayElapsed(poi), TouchEnded, true);
  }

  /** A hold released between the delays leaves focus unlocked and
      automatic, with the subject area watched. */
  lemma {:induction false} ShortHoldStaysAutomatic(s: FocusScreen, location: Point, poi: Point)
    requires s.device.focusPointOfInterestSupported && s.device.exposurePointOfInterestSupported
    requires FocusMode.AutoFocus in s.device.supportedFocusModes
    ensures
      var r := Run(s, [TouchBegan, FirstDelayElapsed(location, poi), TouchEnded, SecondDelayElapsed(poi)], true);
      && !r.focusLocked && r.manualFocusMode == ManualFocus
      && r.device.focusMode == FocusMode.AutoFocus && r.device.subjectAreaChangeMonitoring
  {
    var s1 := Step(s, TouchBegan, true);
    var s2 := Step(s1, FirstDelayElapsed(location, poi), true);
    var s3 := Step(s2, TouchEnded, true);
    var s4 := Step(s3, SecondDelayElapsed(poi), true);
    RunFour(s, TouchBegan, FirstDelayElapsed(location, poi), TouchEnded, SecondDelayElapsed(poi), true);
  }

  /** No event changes what the device supports. */
  lemma {:induction false} RunKeepsCapabilities(s: FocusScreen, events: seq<FocusEvent>, deviceConfigurable: bool)
    ensures SameCapabilities(s.device, Run(s, events, deviceConfigurable).device)
    decreases |events|
  {
    if |events| > 0 {
      RunKeepsCapabilities(Step(s, events[0], deviceConfigurable), events[1..], deviceConfigurable);
    }
  }
}

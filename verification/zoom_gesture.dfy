/**
 * The pinch gesture on the preview: the zoom it sets is the zoom at the
 * start of the pinch scaled by the magnification and clamped to what the
 * device offers; the front camera only toggles between its two framings.
 */
module ZoomGesture {

  import opened Optional
  import opened Camera
  import opened OpticalZoom

  /** What the gesture reads from the current video device. */
  datatype VideoDevice = VideoDevice(
    minAvailableVideoZoomFactor: real,
    switchOverZoomFactors: seq<real>,
    videoZoomFactor: real)

  /** What the gesture runs against: the device (if any), whether locking
      it for configuration succeeds, and whether `setZoomFactor` can
      configure it once there is a device. */
  datatype Environment = Environment(
    device: Option<VideoDevice>,
    lockSucceeds: bool,
    deviceConfigurable: bool)

  /** `setZoomFactor` goes through `configureCaptureDevice`, which does
      nothing without a device: the zoom is only written when there is one
      and it can be locked. */
  predicate ZoomSettable(env: Environment) {
    env.device.Some? && env.deviceConfigurable
  }

  /** Scale applied to the last switch-over factor to get the widest zoom. */
  const MaxZoomScale: real := 5.0

  function MinZoomFactor(device: Option<VideoDevice>): (z: real)
    ensures device.Some? ==> z == device.value.minAvailableVideoZoomFactor
    ensures device.None? ==> z == 1.0
  {
    match device
    case Some(d) => d.minAvailableVideoZoomFactor
    case None => 1.0
  }

  /** Five times the last switch-over factor; five when there is no device
      or it has no switch-over factors. */
  function MaxZoomFactor(device: Option<VideoDevice>): (z: real)
    ensures device.Some? && |device.value.switchOverZoomFactors| > 0 ==>
      z == MaxZoomScale * device.value.switchOverZoomFactors[|device.value.switchOverZoomFactors| - 1]
    ensures device.None? || |device.value.switchOverZoomFactors| == 0 ==> z == MaxZoomScale
  {
    var last := if device.Some? && |device.value.switchOverZoomFactors| > 0
      then device.value.switchOverZoomFactors[|device.value.switchOverZoomFactors| - 1]
      else 1.0;
    MaxZoomScale * last
  }

  /** `min(max(lo, x), hi)`: the upper bound wins when the bounds cross. */
  function Clamp(lo: real, hi: real, x: real): (r: real)
    ensures r <= hi
    ensures lo <= hi ==> lo <= r
    ensures lo <= x <= hi ==> r == x
    ensures x < lo <= hi ==> r == lo
    ensures hi < x || hi < lo ==> r == hi
  {
    var raised := if lo < x then x else lo;
    if raised < hi then raised else hi
  }

  /** Clamping keeps the order of its argument. */
  lemma ClampMonotone(lo: real, hi: real, x: real, y: real)
    requires x <= y
    ensures Clamp(lo, hi, x) <= Clamp(lo, hi, y)
  {
  }

  /** The back camera's zoom for a magnification. */
  function PinchZoom(device: Option<VideoDevice>, initialFactor: real, magnification: real): real {
    Clamp(MinZoomFactor(device), MaxZoomFactor(device), initialFactor * magnification)
  }

  /** Pinching further never zooms out, as long as the starting zoom is not
      negative. */
  lemma PinchZoomMonotone(device: Option<VideoDevice>, initialFactor: real, m1: real, m2: real)
    requires 0.0 <= initialFactor && m1 <= m2
    ensures PinchZoom(device, initialFactor, m1) <= PinchZoom(device, initialFactor, m2)
  {
    assert initialFactor * m1 <= initialFactor * m2 by {
      var d := m2 - m1;
      assert initialFactor * m2 == initialFactor * m1 + initialFactor * d;
      assert initialFactor * d >= 0.0;
    }
    ClampMonotone(MinZoomFactor(device), MaxZoomFactor(device), initialFactor * m1, initialFactor * m2);
  }

  /** The gesture's own state: the zoom captured when the pinch began. */
  datatype GestureState = GestureState(initialFactor: Option<real>)

  const Idle := GestureState(None)

  /** The zoom captured by the first change of a pinch: the device's zoom
      after a successful lock, 1 when there is no device at all, nothing
      when locking fails. */
  function CaptureInitialFactor(env: Environment): (f: Option<real>)
    ensures env.device.None? ==> f == Some(1.0)
    ensures env.device.Some? ==> (f.Some? <==> env.lockSucceeds)
    ensures env.device.Some? && f.Some? ==> f.value == env.device.value.videoZoomFactor
  {
    match env.device
    case None => Some(1.0)
    case Some(d) => if env.lockSucceeds then Some(d.videoZoomFactor) else None
  }

  /** `onChanged`: capture the starting zoom once, then set the zoom for
      the current magnification. */
  function OnChanged(g: GestureState, s: CameraState, env: Environment, magnification: real): (r: (GestureState, CameraState))
    ensures g.initialFactor.Some? ==> r.0 == g
    ensures g.initialFactor.None? ==> r.0.initialFactor == CaptureInitialFactor(env)
    ensures r.0.initialFactor.None? ==> r.1 == s
    ensures r.1.(zoomFactor := s.zoomFactor) == s
    ensures !ZoomSettable(env) ==> r.1 == s
    ensures r.0.initialFactor.Some? && ZoomSettable(env) ==>
      && (s.cameraSide.Front? ==> r.1.zoomFactor == (if magnification > 1.0 then FrontCropZoomFactor else 1.0))
      && (s.cameraSide.Back? ==> r.1.zoomFactor == PinchZoom(env.device, r.0.initialFactor.value, magnification))
  {
    var g' := if g.initialFactor.None? then GestureState(CaptureInitialFactor(env)) else g;
    match g'.initialFactor
    case None => (g', s)
    case Some(initialFactor) =>
      if s.cameraSide == Front then
        (g', SetZoomFactor(s, ZoomSettable(env), if magnification > 1.0 then FrontCropZoomFactor else 1.0))
      else
        (g', SetZoomFactor(s, ZoomSettable(env), PinchZoom(env.device, initialFactor, magnification)))
  }

  /** `onEnded`: forget the starting zoom so the next pinch captures it
      afresh. */
  function OnEnded(g: GestureState): (r: GestureState)
    ensures r.initialFactor.None?
  {
    Idle
  }

  /** The state after a pinch reports the given magnifications in order. */
  function Pinch(g: GestureState, s: CameraState, env: Environment, magnifications: seq<real>): (GestureState, CameraState)
    decreases |magnifications|
  {
    if |magnifications| == 0 then (g, s)
    else
      var step := OnChanged(g, s, env, magnifications[0]);
      Pinch(step.0, step.1, env, magnifications[1..])
  }

  /** The zoom a pinch ends on depends only on the zoom captured at its
      start and the last magnification, not on the path in between; the
      captured zoom is kept for the whole pinch. */
  lemma {:induction false} PinchFollowsLatestMagnification(
    g: GestureState, s: CameraState, env: Environment, magnifications: seq<real>)
    requires g.initialFactor.Some? && ZoomSettable(env) && s.cameraSide.Back?
    requires |magnifications| > 0
    ensures Pinch(g, s, env, magnifications).0 == g
    ensures Pinch(g, s, env, magnifications).1.zoomFactor ==
      PinchZoom(env.device, g.initialFactor.value, magnifications[|magnifications| - 1])
    ensures Pinch(g, s, env, magnifications).1.cameraSide.Back?
    decreases |magnifications|
  {
    var step := OnChanged(g, s, env, magnifications[0]);
    if |magnifications| > 1 {
      PinchFollowsLatestMagnification(step.0, step.1, env, magnifications[1..]);
    }
  }

  /** On the front camera the starting zoom plays no part: only whether
      the fingers spread apart. */
  lemma FrontIgnoresStartingZoom(s: CameraState, env: Environment, a: real, b: real, magnification: real)
    requires s.cameraSide.Front?
    ensures OnChanged(GestureState(Some(a)), s, env, magnification).1 ==
            OnChanged(GestureState(Some(b)), s, env, magnification).1
  {
  }

  /** A pinch whose device cannot be locked does nothing: the zoom is never
      set and the next change tries to lock again. */
  lemma {:induction false} FailedLockChangesNothing(s: CameraState, env: Environment, magnifications: seq<real>)
    requires env.device.Some? && !env.lockSucceeds
    ensures Pinch(Idle, s, env, magnifications) == (Idle, s)
    decreases |magnifications|
  {
    if |magnifications| > 0 {
      FailedLockChangesNothing(s, env, magnifications[1..]);
    }
  }
}

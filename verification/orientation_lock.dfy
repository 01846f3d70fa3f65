/**
 * The app-wide orientation lock: the mask the app delegate reports as
 * supported, the default mask views fall back to, and the orientation a
 * system without the iOS 16 update request is forced into.
 */
module OrientationLock {

  import opened Optional
  import opened Orientation

  /** An orientation mask: the UIKit orientations it allows. */
  type Mask = set<UIInterfaceOrientation>

  const PortraitMask: Mask := {PortraitInterface}
  const LandscapeLeftMask: Mask := {LandscapeLeftInterface}
  const LandscapeRightMask: Mask := {LandscapeRightInterface}
  const PortraitUpsideDownMask: Mask := {PortraitUpsideDownInterface}
  const LandscapeMask: Mask := {LandscapeLeftInterface, LandscapeRightInterface}
  const AllMask: Mask := {PortraitInterface, PortraitUpsideDownInterface, LandscapeLeftInterface, LandscapeRightInterface}
  const AllButUpsideDownMask: Mask := {PortraitInterface, LandscapeLeftInterface, LandscapeRightInterface}

  /** The masks UIKit names. */
  predicate IsNamedMask(m: Mask) {
    m == PortraitMask || m == LandscapeLeftMask || m == LandscapeRightMask ||
    m == PortraitUpsideDownMask || m == LandscapeMask || m == AllMask || m == AllButUpsideDownMask
  }

  predicate IsLandscape(u: UIInterfaceOrientation) {
    u == LandscapeLeftInterface || u == LandscapeRightInterface
  }

  /** The orientation to rotate to under `mask` on systems before iOS 16:
      the one orientation of a single-orientation mask, otherwise derived
      from the device's current orientation. */
  function FallbackOrientation(mask: Mask, device: UIDeviceOrientation): (u: UIInterfaceOrientation)
    ensures mask == PortraitMask ==> u == PortraitInterface
    ensures mask == LandscapeLeftMask ==> u == LandscapeLeftInterface
    ensures mask == LandscapeRightMask ==> u == LandscapeRightInterface
    ensures mask == PortraitUpsideDownMask ==> u == PortraitUpsideDownInterface
    ensures mask == AllMask ==> u == DeviceToInterface(device).value
    ensures mask == AllButUpsideDownMask ==>
      u != PortraitUpsideDownInterface &&
      (DeviceToInterface(device).value != PortraitUpsideDownInterface ==> u == DeviceToInterface(device).value)
    ensures mask !in {PortraitMask, LandscapeLeftMask, LandscapeRightMask, PortraitUpsideDownMask, AllMask, AllButUpsideDownMask} ==>
      IsLandscape(u) && (IsLandscape(DeviceToInterface(device).value) ==> u == DeviceToInterface(device).value)
  {
    if mask == PortraitMask then PortraitInterface
    else if mask == LandscapeLeftMask then LandscapeLeftInterface
    else if mask == LandscapeRightMask then LandscapeRightInterface
    else if mask == PortraitUpsideDownMask then PortraitUpsideDownInterface
    else
      var current := DeviceToInterface(device).value;
      if mask == AllMask then current
      else if mask == AllButUpsideDownMask then
        (if current == PortraitUpsideDownInterface then PortraitInterface else current)
      else if current != LandscapeLeftInterface && current != LandscapeRightInterface then LandscapeLeftInterface
      else current
  }

  /** For every mask UIKit names, the fallback lies inside the mask. */
  lemma {:induction false} FallbackWithinNamedMask(mask: Mask, device: UIDeviceOrientation)
    requires IsNamedMask(mask)
    ensures FallbackOrientation(mask, device) in mask
  {
    var u := FallbackOrientation(mask, device);
    var current := DeviceToInterface(device).value;
    if mask == AllMask || mask == AllButUpsideDownMask {
      assert current in AllMask;
    } else if mask == LandscapeMask {
      assert LandscapeMask !in {PortraitMask, LandscapeLeftMask, LandscapeRightMask, PortraitUpsideDownMask, AllMask, AllButUpsideDownMask} by {
        assert PortraitInterface !in LandscapeMask;
        assert LandscapeRightInterface !in LandscapeLeftMask;
        assert LandscapeLeftInterface !in LandscapeRightMask;
        assert PortraitUpsideDownInterface in AllMask;
        assert PortraitInterface in AllButUpsideDownMask;
      }
    }
  }

  /** The two masks the app keeps: the default and the current lock. */
  datatype LockState = LockState(defaultOrientation: Mask, orientationLock: Mask)

  const InitialLockState := LockState(AllButUpsideDownMask, AllButUpsideDownMask)

  /** What the app delegate answers when asked for the supported
      orientations. */
  function SupportedOrientations(s: LockState): (m: Mask)
    ensures m == s.orientationLock
  {
    s.orientationLock
  }

  /** How the system is told about a new lock: on iOS 16 and later the root
      controller is asked to re-read the supported orientations; before
      that the device is rotated by hand. */
  datatype RotationRequest = RequestSupportedOrientationsUpdate | ForceOrientation(orientation: UIInterfaceOrientation)

  /** `updateOrientation`: record the lock, then ask the system to apply it. */
  function UpdateOrientation(s: LockState, mask: Mask, iOS16: bool, device: UIDeviceOrientation): (r: (LockState, RotationRequest))
    ensures SupportedOrientations(r.0) == mask
    ensures r.0.defaultOrientation == s.defaultOrientation
    ensures iOS16 <==> r.1.RequestSupportedOrientationsUpdate?
    ensures !iOS16 ==> r.1.orientation == FallbackOrientation(mask, device)
  {
    (s.(orientationLock := mask),
     if iOS16 then RequestSupportedOrientationsUpdate else ForceOrientation(FallbackOrientation(mask, device)))
  }

  /** A view's `deviceOrientation` lock appearing. */
  function DeviceOrientationAppeared(s: LockState, mask: Mask, iOS16: bool, device: UIDeviceOrientation): (LockState, RotationRequest) {
    UpdateOrientation(s, mask, iOS16, device)
  }

  /** A view's `deviceOrientation` lock disappearing: the lock falls back
      to the default mask. */
  function DeviceOrientationDisappeared(s: LockState, iOS16: bool, device: UIDeviceOrientation): (r: (LockState, RotationRequest))
    ensures r.0 == s.(orientationLock := s.defaultOrientation)
  {
    UpdateOrientation(s, s.defaultOrientation, iOS16, device)
  }

  /** A lock held while a view is on screen is released when it leaves:
      the supported orientations return to what they were, provided the
      lock was at the default when the view appeared. */
  lemma LockReleasedOnDisappear(s: LockState, mask: Mask, iOS16: bool, d1: UIDeviceOrientation, d2: UIDeviceOrientation)
    requires s.orientationLock == s.defaultOrientation
    ensures DeviceOrientationDisappeared(DeviceOrientationAppeared(s, mask, iOS16, d1).0, iOS16, d2).0 == s
  {
  }

  /** A change of the `defaultOrientationMask` preference: the default is
      always recorded; the orientation is re-applied only when no other
      lock is active, that is when the new default equals the lock. */
  function DefaultMaskChanged(s: LockState, mask: Mask, iOS16: bool, device: UIDeviceOrientation): (r: (LockState, Option<RotationRequest>))
    ensures r.0.defaultOrientation == mask
    ensures r.1.Some? <==> mask == s.orientationLock
    ensures r.0.orientationLock == s.orientationLock
  {
    var recorded := s.(defaultOrientation := mask);
    if recorded.defaultOrientation != recorded.orientationLock then (recorded, None)
    else
      var updated := UpdateOrientation(recorded, mask, iOS16, device);
      (updated.0, Some(updated.1))
  }

  /** The default a view's preference starts from: every orientation on an
      iPad, all but upside down elsewhere. */
  function DefaultMaskPreference(isPad: bool): (m: Mask)
    ensures PortraitUpsideDownInterface in m <==> isPad
    ensures AllButUpsideDownMask <= m
  {
    if isPad then AllMask else AllButUpsideDownMask
  }

  /** Preference reduction, each value in turn replacing the one before:
      the value set last wins, the default applies when none is set. */
  function ReducePreference(value: Mask, nextValues: seq<Mask>): (m: Mask)
    ensures |nextValues| == 0 ==> m == value
    ensures |nextValues| > 0 ==> m == nextValues[|nextValues| - 1]
    decreases |nextValues|
  {
    if |nextValues| == 0 then value else ReducePreference(nextValues[0], nextValues[1..])
  }
}

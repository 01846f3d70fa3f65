/**
 * The conventions relating SwiftUI's interface orientation, UIKit's
 * interface orientation and UIKit's device orientation, and the rotation
 * angle each orientation stands for relative to portrait (in degrees).
 */
module Orientation {

  import opened Optional

  /** SwiftUI's interface orientation. */
  datatype InterfaceOrientation = Portrait | PortraitUpsideDown | LandscapeLeft | LandscapeRight

  /** UIKit's interface orientation. UIKit names the landscape cases by
      where the home button sits, so they are swapped relative to SwiftUI. */
  datatype UIInterfaceOrientation =
    | UnknownInterface
    | PortraitInterface
    | PortraitUpsideDownInterface
    | LandscapeLeftInterface
    | LandscapeRightInterface

  /** UIKit's device orientation. */
  datatype UIDeviceOrientation =
    | UnknownDevice
    | PortraitDevice
    | PortraitUpsideDownDevice
    | LandscapeLeftDevice
    | LandscapeRightDevice
    | FaceUp
    | FaceDown

  /** `targetTransitionAngle`: the rotation of a view relative to portrait. */
  function TargetTransitionAngle(o: InterfaceOrientation): (a: int)
    ensures a == 0 <==> o == Portrait
    ensures -90 <= a <= 180 && a % 90 == 0
  {
    match o
    case PortraitUpsideDown => 180
    case LandscapeLeft => -90
    case LandscapeRight => 90
    case Portrait => 0
  }

  /** `reverseTransitionAngle`: the counter rotation. */
  function ReverseTransitionAngle(o: InterfaceOrientation): (a: int)
    ensures a + TargetTransitionAngle(o) == 0
  {
    0 - TargetTransitionAngle(o)
  }

  /** The four orientations have four different angles, so the angle
      identifies the orientation. */
  lemma TransitionAngleInjective(o1: InterfaceOrientation, o2: InterfaceOrientation)
    ensures TargetTransitionAngle(o1) == TargetTransitionAngle(o2) <==> o1 == o2
    ensures ReverseTransitionAngle(o1) == ReverseTransitionAngle(o2) <==> o1 == o2
  {
  }

  /** `uiInterfaceOrientation`: the landscape cases swap. The source's
      trap for any other value cannot arise, as there is none. */
  function ToUIKit(o: InterfaceOrientation): (u: UIInterfaceOrientation)
    ensures u != UnknownInterface
    ensures o == LandscapeLeft <==> u == LandscapeRightInterface
    ensures o == LandscapeRight <==> u == LandscapeLeftInterface
    ensures o == Portrait <==> u == PortraitInterface
    ensures o == PortraitUpsideDown <==> u == PortraitUpsideDownInterface
  {
    match o
    case LandscapeLeft => LandscapeRightInterface
    case LandscapeRight => LandscapeLeftInterface
    case Portrait => PortraitInterface
    case PortraitUpsideDown => PortraitUpsideDownInterface
  }

  /** `init(_ uiInterfaceOrientation:)`: the landscape cases swap back and
      an unknown orientation reads as portrait. */
  function FromUIKit(u: UIInterfaceOrientation): (o: InterfaceOrientation)
    ensures u == UnknownInterface ==> o == Portrait
  {
    match u
    case LandscapeLeftInterface => LandscapeRight
    case LandscapeRightInterface => LandscapeLeft
    case PortraitUpsideDownInterface => PortraitUpsideDown
    case PortraitInterface => Portrait
    case UnknownInterface => Portrait
  }

  /** The conversions are inverse to each other on the four known
      orientations. */
  lemma UIKitRoundTrip(o: InterfaceOrientation, u: UIInterfaceOrientation)
    ensures FromUIKit(ToUIKit(o)) == o
    ensures u != UnknownInterface ==> ToUIKit(FromUIKit(u)) == u
    ensures u == UnknownInterface ==> ToUIKit(FromUIKit(u)) == PortraitInterface
  {
  }

  /** UIKit's raw values for its interface orientations. */
  function RawValue(u: UIInterfaceOrientation): int {
    match u
    case UnknownInterface => 0
    case PortraitInterface => 1
    case PortraitUpsideDownInterface => 2
    case LandscapeRightInterface => 3
    case LandscapeLeftInterface => 4
  }

  /** `UIInterfaceOrientation(rawValue:)`. */
  function FromRawValue(raw: int): (u: Option<UIInterfaceOrientation>)
    ensures u.Some? <==> 0 <= raw <= 4
    ensures u.Some? ==> RawValue(u.value) == raw
  {
    if raw == 0 then Some(UnknownInterface)
    else if raw == 1 then Some(PortraitInterface)
    else if raw == 2 then Some(PortraitUpsideDownInterface)
    else if raw == 3 then Some(LandscapeRightInterface)
    else if raw == 4 then Some(LandscapeLeftInterface)
    else None
  }

  /** A raw value read back gives the orientation it came from. */
  lemma RawValueRoundTrip(u: UIInterfaceOrientation)
    ensures FromRawValue(RawValue(u)) == Some(u)
  {
  }

  /** The interface orientation named like a device orientation; the flat
      and unknown positions read as portrait. */
  function NamedLikeDevice(d: UIDeviceOrientation): UIInterfaceOrientation {
    match d
    case PortraitUpsideDownDevice => PortraitUpsideDownInterface
    case LandscapeLeftDevice => LandscapeLeftInterface
    case LandscapeRightDevice => LandscapeRightInterface
    case _ => PortraitInterface
  }

  /** `UIInterfaceOrientation(deviceOrientation:)`: a failable initialiser
      that goes through the raw value but never fails, keeps the three
      non-portrait cases by name and maps everything else to portrait. */
  function DeviceToInterface(d: UIDeviceOrientation): (u: Option<UIInterfaceOrientation>)
    ensures u.Some?
    ensures u.value != UnknownInterface
    ensures d == PortraitUpsideDownDevice <==> u.value == PortraitUpsideDownInterface
    ensures d == LandscapeLeftDevice <==> u.value == LandscapeLeftInterface
    ensures d == LandscapeRightDevice <==> u.value == LandscapeRightInterface
  {
    var named := NamedLikeDevice(d);
    RawValueRoundTrip(named);
    FromRawValue(RawValue(named))
  }
}

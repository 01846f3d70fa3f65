/**
 * Interface rotation tracking of the camera model (`setInterfaceRotationAngle`).
 *
 * The rotation coordinator reports the capture rotation angle; the camera turns
 * it into a rotation relative to portrait and animates `interfaceRotationAngle`
 * towards it along the shorter way round. Angles are integer degrees.
 */
module InterfaceRotation {

  /** The rotation coordinator only ever reports right angles. */
  predicate IsRightAngle(angle: int) {
    angle == 0 || angle == 90 || angle == 180 || angle == 270
  }

  /** Congruence modulo a full turn. */
  predicate SameDirection(a: int, b: int) {
    (a - b) % 360 == 0
  }

  /** The capture angle turned into a portrait-relative target: angles of 180
      and more are first taken as negative, then subtracted from 90. */
  function TargetRotationAngle(captureAngle: int): (t: int)
    ensures SameDirection(t + captureAngle, 90)
    ensures 0 <= captureAngle < 360 ==> -90 < t <= 270
    ensures IsRightAngle(captureAngle) ==> IsRightAngle(t)
  {
    var signed := if captureAngle >= 180 then captureAngle - 360 else captureAngle;
    90 - signed
  }

  /** The value the normalisation loop settles on: the representative in
      [0, 360], where a positive multiple of 360 stays at 360. */
  function NormalizedAngle(angle: int): int {
    if angle > 0 && angle % 360 == 0 then 360 else angle % 360
  }

  /** The normalisation loop of `setInterfaceRotationAngle`: add or subtract
      full turns until the angle lies in [0, 360]. */
  method NormalizeAngle(angle: int) returns (r: int)
    ensures 0 <= r <= 360
    ensures SameDirection(r, angle)
    ensures 0 <= angle <= 360 ==> r == angle
    ensures r == NormalizedAngle(angle)
  {
    r := angle;
    while r > 360 || r < 0
      invariant SameDirection(r, angle)
      invariant angle > 0 ==> 0 < r <= angle
      invariant angle <= 0 ==> angle <= r < 360
      decreases if r < 0 then 361 - r else r
    {
      var step := if r > 0 then -1 else 1;
      r := r + step * 360;
    }
  }

  /** The clockwise and anticlockwise turn magnitudes, computed as the source
      computes them (with absolute values). */
  function Abs(x: int): nat {
    if x < 0 then -x else x
  }

  function ClockwiseTurn(current: int, target: int): nat {
    var rotation := target - current;
    if rotation > 0 then Abs(rotation) else Abs(rotation + 360)
  }

  function AntiClockwiseTurn(current: int, target: int): nat {
    var rotation := target - current;
    if rotation > 0 then Abs(rotation - 360) else Abs(rotation)
  }

  /** The angle animated to: the anticlockwise turn when it is strictly
      shorter, otherwise the clockwise one. */
  function ShortestTurn(current: int, target: int): (next: int)
    ensures -360 <= target - current <= 360 ==>
      SameDirection(next, target) && -180 < next - current <= 180
    ensures target - current == 180 || target - current == -180 ==> next == current + 180
  {
    var cw := ClockwiseTurn(current, target);
    var acw := AntiClockwiseTurn(current, target);
    if acw < cw then current - acw else current + cw
  }

  /** `setInterfaceRotationAngle`: returns the normalised angle written
      without animation and the angle then animated to. */
  method SetInterfaceRotationAngle(interfaceRotationAngle: int, captureAngle: int)
    returns (normalized: int, next: int)
    ensures 0 <= normalized <= 360 && SameDirection(normalized, interfaceRotationAngle)
    ensures IsRightAngle(captureAngle) ==>
      SameDirection(next, TargetRotationAngle(captureAngle))
    ensures IsRightAngle(captureAngle) ==> -180 < next - normalized <= 180
  {
    var target := TargetRotationAngle(captureAngle);
    normalized := NormalizeAngle(interfaceRotationAngle);
    next := ShortestTurn(normalized, target);
  }
}

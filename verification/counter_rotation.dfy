/**
 * Counter rotation: the angle a view rotates by so that it keeps looking
 * as if rendered in a fixed orientation while the interface rotates.
 */
module CounterRotation {

  import opened Optional
  import opened Orientation

  /** The counter angle for a view meant to appear in `target` while the
      window scene is in the UIKit orientation `current`: the turn from the
      current orientation's angle back to the target's. */
  function CounterAngle(target: InterfaceOrientation, current: UIInterfaceOrientation): (a: int)
    ensures a == TargetTransitionAngle(FromUIKit(current)) - TargetTransitionAngle(target)
    ensures a == 0 <==> FromUIKit(current) == target
  {
    TransitionAngleInjective(target, FromUIKit(current));
    ReverseTransitionAngle(target) - ReverseTransitionAngle(FromUIKit(current))
  }

  /** A view already in the target orientation needs no counter rotation. */
  lemma NoCounterRotationWhenAligned(target: InterfaceOrientation)
    ensures CounterAngle(target, ToUIKit(target)) == 0
  {
    UIKitRoundTrip(target, ToUIKit(target));
  }

  /** The rotation coordinator: the orientation the view should appear in,
      and the counter angle bound to the view. */
  datatype Coordinator = Coordinator(orientation: InterfaceOrientation, rotationAngle: int)

  /** On appearing, the angle is computed afresh from the window scene's
      orientation; without a scene nothing changes. */
  function Appear(c: Coordinator, current: Option<UIInterfaceOrientation>): (r: Coordinator)
    ensures r.orientation == c.orientation
    ensures current.None? ==> r == c
    ensures current.Some? ==> Consistent(r, current.value)
  {
    match current
    case None => c
    case Some(u) => c.(rotationAngle := CounterAngle(c.orientation, u))
  }

  /** The angle agrees with the target orientation and the scene's. */
  predicate Consistent(c: Coordinator, current: UIInterfaceOrientation) {
    c.rotationAngle == CounterAngle(c.orientation, current)
  }

  /** The `orientation` observer: a new target adds the difference of the
      reverse angles to the bound angle. */
  function SetOrientation(c: Coordinator, newOrientation: InterfaceOrientation): (r: Coordinator)
    ensures r.orientation == newOrientation
    ensures r.rotationAngle - c.rotationAngle ==
      TargetTransitionAngle(c.orientation) - TargetTransitionAngle(newOrientation)
  {
    Coordinator(newOrientation,
      c.rotationAngle + (ReverseTransitionAngle(newOrientation) - ReverseTransitionAngle(c.orientation)))
  }

  /** Updating the target keeps the angle in step with the scene. */
  lemma SetOrientationKeepsConsistent(c: Coordinator, current: UIInterfaceOrientation, newOrientation: InterfaceOrientation)
    requires Consistent(c, current)
    ensures Consistent(SetOrientation(c, newOrientation), current)
  {
  }

  /** The coordinator after its target orientation is updated in turn to
      each of `targets`. */
  function Retarget(c: Coordinator, targets: seq<InterfaceOrientation>): Coordinator
    decreases |targets|
  {
    if |targets| == 0 then c else Retarget(SetOrientation(c, targets[0]), targets[1..])
  }

  /** However often the target changes after the view appeared, the angle
      is the one a fresh appearance with the last target would compute. */
  lemma {:induction false} RetargetMatchesFreshAppearance(
    c: Coordinator, current: UIInterfaceOrientation, targets: seq<InterfaceOrientation>)
    requires |targets| > 0
    ensures Retarget(Appear(c, Some(current)), targets) ==
      Appear(Coordinator(targets[|targets| - 1], c.rotationAngle), Some(current))
  {
    RetargetKeepsConsistent(Appear(c, Some(current)), current, targets);
    RetargetLands(Appear(c, Some(current)), targets);
  }

  lemma {:induction false} RetargetKeepsConsistent(c: Coordinator, current: UIInterfaceOrientation, targets: seq<InterfaceOrientation>)
    requires Consistent(c, current)
    ensures Consistent(Retarget(c, targets), current)
    decreases |targets|
  {
    if |targets| > 0 {
      SetOrientationKeepsConsistent(c, current, targets[0]);
      RetargetKeepsConsistent(SetOrientation(c, targets[0]), current, targets[1..]);
    }
  }

  lemma {:induction false} RetargetLands(c: Coordinator, targets: seq<InterfaceOrientation>)
    requires |targets| > 0
    ensures Retarget(c, targets).orientation == targets[|targets| - 1]
    decreases |targets|
  {
    if |targets| > 1 {
      RetargetLands(SetOrientation(c, targets[0]), targets[1..]);
    }
  }
}

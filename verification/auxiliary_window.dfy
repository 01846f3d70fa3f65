/**
 * The auxiliary window's registry of menu targets, one per window id, and
 * the rule placing the menu below or above its control.
 */
module AuxiliaryWindows {

  import opened Optional

  datatype Rect = Rect(x: real, y: real, width: real, height: real) {
    function MaxY(): real { y + height }
  }

  const ZeroRect := Rect(0.0, 0.0, 0.0, 0.0)

  /** The menu content a control hands over; `EmptyContent` is an empty view. */
  datatype Content = EmptyContent | MenuContent(view: nat)

  /** `TargetContext`: where the menu of window `id` goes and what it shows. */
  datatype Target = Target(id: string, frame: Rect, content: Content)

  /** `TargetContext.targets`, in creation order. */
  type Registry = seq<Target>

  predicate DistinctIds(reg: Registry) {
    forall i, j :: 0 <= i < j < |reg| ==> reg[i].id != reg[j].id
  }

  /** A freshly created target: zero frame and empty content. */
  function NewTarget(id: string): Target {
    Target(id, ZeroRect, EmptyContent)
  }

  /** The first position holding `id`, like `first(where:)`. */
  function FirstIndexOf(reg: Registry, id: string): (r: Option<nat>)
    ensures r.Some? ==>
      && r.value < |reg| && reg[r.value].id == id
      && forall i :: 0 <= i < r.value ==> reg[i].id != id
    ensures r.None? ==> forall i :: 0 <= i < |reg| ==> reg[i].id != id
    decreases |reg|
  {
    if |reg| == 0 then None
    else if reg[0].id == id then Some(0)
    else
      match FirstIndexOf(reg[1..], id)
      case None => None
      case Some(k) => Some(k + 1)
  }

  /** `findTarget(id:)`: the existing target for `id`, or a new one added
      at the end. The result is the registry after the call and the
      position of the target handed out. */
  function FindTarget(reg: Registry, id: string): (r: (Registry, nat))
    ensures r.1 < |r.0| && r.0[r.1].id == id
    ensures (exists i :: 0 <= i < |reg| && reg[i].id == id) ==> r.0 == reg
    ensures (forall i :: 0 <= i < |reg| ==> reg[i].id != id) ==>
      r.0 == reg + [NewTarget(id)] && r.1 == |reg|
  {
    match FirstIndexOf(reg, id)
    case Some(i) => (reg, i)
    case None => (reg + [NewTarget(id)], |reg|)
  }

  /** Looking the same id up twice hands out the same target and adds
      nothing the second time. */
  lemma FindTargetIdempotent(reg: Registry, id: string)
    ensures FindTarget(FindTarget(reg, id).0, id) == FindTarget(reg, id)
  {
    var (reg1, i1) := FindTarget(reg, id);
    if FirstIndexOf(reg, id).None? {
      assert FirstIndexOf(reg1, id) == Some(|reg|);
    }
  }

  /** Ids stay unique however many lookups are made. */
  lemma FindTargetKeepsIdsDistinct(reg: Registry, id: string)
    requires DistinctIds(reg)
    ensures DistinctIds(FindTarget(reg, id).0)
  {
  }

  /** `updateMenu(frame:contentView:)` on the target at `i`. */
  function UpdateMenu(reg: Registry, i: nat, frame: Rect, content: Content): (r: Registry)
    requires i < |reg|
    ensures |r| == |reg| && r[i] == Target(reg[i].id, frame, content)
    ensures forall j :: 0 <= j < |reg| && j != i ==> r[j] == reg[j]
  {
    reg[i := reg[i].(frame := frame, content := content)]
  }

  /** `dismiss()` on the target at `i`: back to how it was created. */
  function Dismiss(reg: Registry, i: nat): (r: Registry)
    requires i < |reg|
    ensures |r| == |reg| && r[i] == NewTarget(reg[i].id)
    ensures forall j :: 0 <= j < |reg| && j != i ==> r[j] == reg[j]
  {
    reg[i := reg[i].(frame := ZeroRect, content := EmptyContent)]
  }

  /** Updating or dismissing never touches an id, so lookups keep finding
      the same targets. */
  lemma EditsKeepLookups(reg: Registry, i: nat, frame: Rect, content: Content, id: string)
    requires i < |reg|
    ensures FirstIndexOf(UpdateMenu(reg, i, frame, content), id) == FirstIndexOf(reg, id)
    ensures FirstIndexOf(Dismiss(reg, i), id) == FirstIndexOf(reg, id)
  {
    FirstIndexOfDependsOnIds(reg, UpdateMenu(reg, i, frame, content), id);
    FirstIndexOfDependsOnIds(reg, Dismiss(reg, i), id);
  }

  lemma {:induction false} FirstIndexOfDependsOnIds(a: Registry, b: Registry, id: string)
    requires |a| == |b| && forall k :: 0 <= k < |a| ==> a[k].id == b[k].id
    ensures FirstIndexOf(a, id) == FirstIndexOf(b, id)
    decreases |a|
  {
    if |a| > 0 && a[0].id != id {
      FirstIndexOfDependsOnIds(a[1..], b[1..], id);
    }
  }

  // ---------------------------------------------------------------------
  // Placement
  // ---------------------------------------------------------------------

  /** On macOS, the menu goes below the control when it fits above the
      bottom of the visible screen (an unknown screen is unbounded);
      elsewhere always below. */
  function ShowsAtBottom(windowOriginY: real, frame: Rect, menuHeight: real, visibleHeight: Option<real>, macOS: bool): (b: bool)
    ensures !macOS || visibleHeight.None? ==> b
    ensures macOS && visibleHeight.Some? ==>
      (b <==> windowOriginY + frame.MaxY() + menuHeight < visibleHeight.value)
  {
    if !macOS then true
    else
      match visibleHeight
      case None => true
      case Some(h) => windowOriginY + frame.MaxY() + menuHeight < h
  }

  datatype Anchor = TopLeading | BottomLeading

  /** The anchor on the control's placeholder. */
  function PlaceholderAnchor(showsAtBottom: bool): Anchor {
    if showsAtBottom then BottomLeading else TopLeading
  }

  /** The anchor on the menu, matched to the placeholder's. */
  function MenuAnchor(showsAtBottom: bool): Anchor {
    if showsAtBottom then TopLeading else BottomLeading
  }

  /** The menu's top meets the control's bottom when it shows below, and
      its bottom meets the control's top otherwise: the anchors always
      differ. */
  lemma AnchorsSwap(showsAtBottom: bool)
    ensures PlaceholderAnchor(showsAtBottom) != MenuAnchor(showsAtBottom)
    ensures MenuAnchor(showsAtBottom) == TopLeading <==> showsAtBottom
  {
  }
}

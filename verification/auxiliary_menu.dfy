/**
 * The control side of an auxiliary menu: when a focused control presents
 * its menu through the shared registry, and when it closes the window.
 */
module AuxiliaryMenus {

  import opened Optional
  import opened AuxiliaryWindows

  /** The control's view of the menu: whether it is focused, the bound
      `isPresented`, its own frame, and the registry target it is bound
      to once it has appeared. */
  datatype MenuControl = MenuControl(
    windowId: string,
    isFocused: bool,
    isPresented: bool,
    frame: Rect,
    content: Content,
    target: Option<nat>)

  /** The control's binding points into the registry. */
  predicate Bound(c: MenuControl, reg: Registry) {
    c.target.Some? ==> c.target.value < |reg|
  }

  /** On appearing, the control binds to the registry's target for its
      window id, creating it if need be. */
  function Appear(c: MenuControl, reg: Registry): (r: (MenuControl, Registry))
    ensures r.0.target.Some? && Bound(r.0, r.1)
    ensures r.1[r.0.target.value].id == c.windowId
    ensures r.0 == c.(target := r.0.target)
    ensures |reg| <= |r.1| && r.1[..|reg|] == reg
  {
    var (reg', i) := FindTarget(reg, c.windowId);
    (c.(target := Some(i)), reg')
  }

  datatype WindowRequest = OpenWindow | DismissWindow | NoRequest

  /** `updateMenu`, after its short debounce: a focused control whose
      `isPresented` is set hands its frame and content to the target and
      opens the window; otherwise it closes the window only if the target
      still shows this control's menu, which it recognises by its frame. */
  function UpdateMenu(c: MenuControl, reg: Registry): (r: (Registry, WindowRequest))
    requires Bound(c, reg)
    ensures r.1 == OpenWindow <==> c.isFocused && c.isPresented
    ensures r.1 == DismissWindow <==>
      !(c.isFocused && c.isPresented) && c.target.Some? && reg[c.target.value].frame == c.frame
    ensures c.isFocused && c.isPresented && c.target.Some? ==>
      r.0 == AuxiliaryWindows.UpdateMenu(reg, c.target.value, c.frame, c.content)
    ensures !(c.isFocused && c.isPresented && c.target.Some?) ==> r.0 == reg
  {
    if c.isFocused && c.isPresented then
      match c.target
      case Some(i) => (AuxiliaryWindows.UpdateMenu(reg, i, c.frame, c.content), OpenWindow)
      case None => (reg, OpenWindow)
    else if c.target.Some? && reg[c.target.value].frame == c.frame then (reg, DismissWindow)
    else (reg, NoRequest)
  }

  /** A control whose menu is not the one on show never closes the window:
      two controls sharing a window do not dismiss each other's menu. */
  lemma OtherControlsMenuStays(c: MenuControl, reg: Registry)
    requires Bound(c, reg) && c.target.Some?
    requires reg[c.target.value].frame != c.frame
    ensures UpdateMenu(c, reg).1 != DismissWindow
  {
  }

  /** After a control presents its menu, the same control losing focus or
      presentation closes the window. */
  lemma PresentThenDismiss(c: MenuControl, reg: Registry, focused: bool, presented: bool)
    requires Bound(c, reg) && c.target.Some?
    requires c.isFocused && c.isPresented
    requires !(focused && presented)
    ensures
      var reg' := UpdateMenu(c, reg).0;
      UpdateMenu(c.(isFocused := focused, isPresented := presented), reg') == (reg', DismissWindow)
  {
  }

  /** The `onChange(of: targetContext?.frame)` handler with
      `updatePresentedState`: it runs only when the frame actually changes;
      the first change (binding the target) is ignored; afterwards a frame
      reset to zero means the window dismissed itself, and `isPresented` is
      cleared. */
  function TargetFrameChanged(isPresented: bool, oldFrame: Option<Rect>, newFrame: Rect): (p: bool)
    ensures oldFrame.None? ==> p == isPresented
    ensures oldFrame == Some(newFrame) ==> p == isPresented
    ensures oldFrame.Some? && oldFrame.value != newFrame ==> (p <==> isPresented && newFrame != ZeroRect)
  {
    if oldFrame.None? || oldFrame.value == newFrame then isPresented
    else if newFrame == ZeroRect then false
    else isPresented
  }

  /** When the window dismisses itself (it lost focus, moved, resized or
      closed) while showing a menu, every bound control sees its target
      reset and stops presenting. */
  lemma WindowDismissalClearsPresentation(c: MenuControl, reg: Registry)
    requires Bound(c, reg) && c.target.Some?
    requires reg[c.target.value].frame != ZeroRect
    ensures !TargetFrameChanged(c.isPresented, Some(reg[c.target.value].frame),
      Dismiss(reg, c.target.value)[c.target.value].frame)
  {
  }

  /** A dismissal of a target whose frame is already zero changes no frame,
      so no handler runs and a control still marked as presented stays so. */
  lemma DismissalOfEmptyTargetKeepsPresentation(c: MenuControl, reg: Registry)
    requires Bound(c, reg) && c.target.Some?
    requires reg[c.target.value].frame == ZeroRect
    ensures TargetFrameChanged(c.isPresented, Some(reg[c.target.value].frame),
      Dismiss(reg, c.target.value)[c.target.value].frame) == c.isPresented
  {
  }
}

/**
 * The optical zoom option buttons: the range of zoom factors each back
 * camera button owns, which button is highlighted, what it displays, and
 * the single toggle button shown for a front camera with a crop factor.
 */
module ZoomOptions {

  import opened Optional
  import opened Camera
  import opened OpticalZoom
  import opened ZoomGesture

  /** `showDefault` after the session state changes: until the session is
      running, the buttons show the default selection instead of tracking
      the zoom. */
  function ShowDefault(state: SessionState): (b: bool)
    ensures b <==> state != Running
  {
    if state == Running then false else true
  }

  datatype Bound = Finite(value: real) | Infinity

  /** The half-open range [lower, upper). */
  datatype ZoomRange = ZoomRange(lower: real, upper: Bound)

  predicate InRange(r: ZoomRange, z: real) {
    r.lower <= z && (r.upper.Finite? ==> z < r.upper.value)
  }

  datatype OptionButton = OptionButton(
    targetZoomFactor: real,
    activeZoomFactorRange: ZoomRange,
    defaultSelection: bool)

  /** Upper end of the 1x button's range on a device without switch-over
      factors. */
  const SingleLensUpperBound: real := 5.0

  /** The range of the button for `factors[i]`: up to the next factor, or
      unbounded for the last one. */
  function FactorRange(factors: seq<real>, i: nat): ZoomRange
    requires i < |factors|
  {
    if i + 1 > |factors| - 1 then ZoomRange(factors[i], Infinity)
    else ZoomRange(factors[i], Finite(factors[i + 1]))
  }

  /** The back camera buttons: a 1x button followed by one per optical
      factor; each range starts at the button's own factor and ends where
      the next button's starts. */
  function BackButtons(factors: seq<real>, backDefault: real): (bs: seq<OptionButton>)
    ensures |bs| == |factors| + 1
    ensures bs[0].targetZoomFactor == 1.0
    ensures forall i :: 1 <= i < |bs| ==> bs[i].targetZoomFactor == factors[i - 1]
    ensures forall i :: 0 <= i < |bs| ==> bs[i].activeZoomFactorRange.lower == bs[i].targetZoomFactor
    ensures forall i :: 0 <= i < |bs| - 1 ==>
      bs[i].activeZoomFactorRange.upper == Finite(bs[i + 1].activeZoomFactorRange.lower)
    ensures |factors| == 0 ==> bs[0].activeZoomFactorRange.upper == Finite(SingleLensUpperBound)
    ensures |factors| > 0 ==> bs[|bs| - 1].activeZoomFactorRange.upper == Infinity
    ensures forall i :: 0 <= i < |bs| ==> (bs[i].defaultSelection <==> bs[i].targetZoomFactor == backDefault)
  {
    var first := OptionButton(
      1.0,
      ZoomRange(1.0, Finite(if |factors| == 0 then SingleLensUpperBound else factors[0])),
      1.0 == backDefault);
    [first] + seq(|factors|, i requires 0 <= i < |factors| =>
      OptionButton(factors[i], FactorRange(factors, i), factors[i] == backDefault))
  }

  /** The zoom the button compares against its range. */
  function CurrentZoomFactor(b: OptionButton, showDefault: bool, zoomFactor: real, backDefault: real): real {
    if showDefault && b.defaultSelection then backDefault else zoomFactor
  }

  /** `isActive`: while showing the default, only the default button is
      highlighted; otherwise the button whose range holds the zoom. */
  function IsActive(b: OptionButton, showDefault: bool, zoomFactor: real, backDefault: real): (active: bool)
    ensures showDefault ==> (active <==> b.defaultSelection)
    ensures !showDefault ==> (active <==> InRange(b.activeZoomFactorRange, zoomFactor))
  {
    if showDefault then b.defaultSelection
    else
      var current := CurrentZoomFactor(b, showDefault, zoomFactor, backDefault);
      current >= b.activeZoomFactorRange.lower &&
      (b.activeZoomFactorRange.upper.Finite? ==> current < b.activeZoomFactorRange.upper.value)
  }

  /** The index of the last lower bound not above `z`. */
  lemma {:induction false} Locate(lowers: seq<real>, z: real) returns (i: nat)
    requires |lowers| > 0 && lowers[0] <= z
    ensures i < |lowers| && lowers[i] <= z
    ensures i + 1 < |lowers| ==> z < lowers[i + 1]
  {
    i := 0;
    while i + 1 < |lowers| && lowers[i + 1] <= z
      invariant i < |lowers| && lowers[i] <= z
      decreases |lowers| - i
    {
      i := i + 1;
    }
  }

  /** With increasing factors above 1, the ranges partition [1, infinity):
      every zoom of at least 1 lies in exactly one button's range. Without
      factors the single 1x range covers only [1, 5). */
  lemma {:induction false} RangesPartition(factors: seq<real>, backDefault: real, z: real)
    requires Increasing(factors) && (|factors| > 0 ==> factors[0] > 1.0)
    requires z >= 1.0
    requires |factors| == 0 ==> z < SingleLensUpperBound
    ensures
      var bs := BackButtons(factors, backDefault);
      exists i :: 0 <= i < |bs| && InRange(bs[i].activeZoomFactorRange, z) &&
        forall j :: 0 <= j < |bs| && InRange(bs[j].activeZoomFactorRange, z) ==> j == i
  {
    var bs := BackButtons(factors, backDefault);
    var lowers := seq(|bs|, k requires 0 <= k < |bs| => bs[k].activeZoomFactorRange.lower);
    assert Increasing(lowers) by {
      forall a, b | 0 <= a < b < |lowers|
        ensures lowers[a] < lowers[b]
      {
        if a == 0 {
          assert factors[0] <= factors[b - 1];
        }
      }
    }
    var i := Locate(lowers, z);
    assert InRange(bs[i].activeZoomFactorRange, z);
    forall j | 0 <= j < |bs| && InRange(bs[j].activeZoomFactorRange, z)
      ensures j == i
    {
    }
  }

  /** Once the session runs, exactly one back button is highlighted for any
      zoom of at least 1 (below 5 on a single-lens camera). */
  lemma {:induction false} ExactlyOneActive(factors: seq<real>, backDefault: real, zoomFactor: real)
    requires Increasing(factors) && (|factors| > 0 ==> factors[0] > 1.0)
    requires zoomFactor >= 1.0
    requires |factors| == 0 ==> zoomFactor < SingleLensUpperBound
    ensures
      var bs := BackButtons(factors, backDefault);
      exists i :: 0 <= i < |bs| && IsActive(bs[i], false, zoomFactor, backDefault) &&
        forall j :: 0 <= j < |bs| && IsActive(bs[j], false, zoomFactor, backDefault) ==> j == i
  {
    RangesPartition(factors, backDefault, zoomFactor);
  }

  /** On a single-lens camera the 1x button's range stops at 5, which is
      also the most a pinch can zoom to: at 5 or beyond no button is lit. */
  lemma SingleLensMaximumLightsNothing(device: Option<VideoDevice>, backDefault: real, zoomFactor: real)
    requires device.None? || |device.value.switchOverZoomFactors| == 0
    requires zoomFactor >= MaxZoomFactor(device)
    ensures MaxZoomFactor(device) == SingleLensUpperBound
    ensures
      var bs := BackButtons([], backDefault);
      forall i :: 0 <= i < |bs| ==> !IsActive(bs[i], false, zoomFactor, backDefault)
  {
  }

  /** Over increasing factors, the default flag marks a single button: the
      1x button when the default is 1 and no factor is, otherwise the
      button of the first factor when that factor is the default. */
  lemma {:induction false} SingleDefaultButton(factors: seq<real>, backDefault: real) returns (i: nat)
    requires Increasing(factors)
    requires backDefault == 1.0 ==> forall k :: 0 <= k < |factors| ==> factors[k] > 1.0
    requires backDefault != 1.0 ==> |factors| > 0 && factors[0] == backDefault
    ensures
      var bs := BackButtons(factors, backDefault);
      i < |bs| && bs[i].targetZoomFactor == backDefault &&
      forall j :: 0 <= j < |bs| && bs[j].defaultSelection ==> j == i
  {
    var bs := BackButtons(factors, backDefault);
    if backDefault == 1.0 {
      i := 0;
    } else {
      i := 1;
    }
  }

  /** The options a back camera offers meet what `SingleDefaultButton`
      needs: they are increasing, and the default is either 1 below every
      option or the first option. */
  lemma {:induction false} BackOptionsShape(back: BackCamera)
    requires Increasing(back.switchOverZoomFactors)
    requires |back.switchOverZoomFactors| > 0 ==> back.switchOverZoomFactors[0] > 1.0
    requires Supports48MP(back) && |back.switchOverZoomFactors| > 1 ==>
      2.0 * back.switchOverZoomFactors[0] < back.switchOverZoomFactors[1]
    ensures Increasing(BackOpticalZoomFactors(back))
    ensures BackDefaultZoomFactor(back) == 1.0 ==>
      forall k :: 0 <= k < |BackOpticalZoomFactors(back)| ==> BackOpticalZoomFactors(back)[k] > 1.0
    ensures BackDefaultZoomFactor(back) != 1.0 ==>
      |BackOpticalZoomFactors(back)| > 0 && BackOpticalZoomFactors(back)[0] == BackDefaultZoomFactor(back)
  {
    var fs := BackOpticalZoomFactors(back);
    if Supports48MP(back) {
      CropKeepsOrder(back);
    }
    if |back.switchOverZoomFactors| == 0 {
      assert |fs| <= 1 && (|fs| == 1 ==> fs[0] == 2.0);
    } else {
      DefaultIsFirstOption(back);
    }
  }

  /** Before the session runs, exactly one back button is highlighted: the
      one for the back camera's default zoom. */
  lemma {:induction false} DefaultHighlightedBeforeRunning(back: BackCamera, zoomFactor: real)
    requires Increasing(back.switchOverZoomFactors)
    requires |back.switchOverZoomFactors| > 0 ==> back.switchOverZoomFactors[0] > 1.0
    requires Supports48MP(back) && |back.switchOverZoomFactors| > 1 ==>
      2.0 * back.switchOverZoomFactors[0] < back.switchOverZoomFactors[1]
    ensures
      var backDefault := BackDefaultZoomFactor(back);
      var bs := BackButtons(BackOpticalZoomFactors(back), backDefault);
      exists i :: 0 <= i < |bs| && bs[i].targetZoomFactor == backDefault &&
        forall j :: 0 <= j < |bs| ==> (IsActive(bs[j], true, zoomFactor, backDefault) <==> j == i)
  {
    BackOptionsShape(back);
    OnlyDefaultHighlighted(BackOpticalZoomFactors(back), BackDefaultZoomFactor(back), zoomFactor);
  }

  lemma {:induction false} OnlyDefaultHighlighted(factors: seq<real>, backDefault: real, zoomFactor: real)
    requires Increasing(factors)
    requires backDefault == 1.0 ==> forall k :: 0 <= k < |factors| ==> factors[k] > 1.0
    requires backDefault != 1.0 ==> |factors| > 0 && factors[0] == backDefault
    ensures
      var bs := BackButtons(factors, backDefault);
      exists i :: 0 <= i < |bs| && bs[i].targetZoomFactor == backDefault &&
        forall j :: 0 <= j < |bs| ==> (IsActive(bs[j], true, zoomFactor, backDefault) <==> j == i)
  {
    var i := SingleDefaultButton(factors, backDefault);
    var bs := BackButtons(factors, backDefault);
    forall j | 0 <= j < |bs|
      ensures IsActive(bs[j], true, zoomFactor, backDefault) <==> j == i
    {
    }
  }

  /** Zoomed to the first option, the button whose range holds the zoom is
      exactly the default one. */
  lemma {:induction false} FirstOptionInDefaultRange(factors: seq<real>, backDefault: real)
    requires |factors| > 0 && Increasing(factors) && factors[0] == backDefault && backDefault > 1.0
    ensures
      var bs := BackButtons(factors, backDefault);
      forall j :: 0 <= j < |bs| ==>
        (InRange(bs[j].activeZoomFactorRange, backDefault) <==> bs[j].targetZoomFactor == backDefault)
  {
    var bs := BackButtons(factors, backDefault);
    RangesPartition(factors, backDefault, backDefault);
    assert InRange(bs[1].activeZoomFactorRange, backDefault);
    var d := SingleDefaultButton(factors, backDefault);
    assert d == 1;
  }

  /** Starting the session for the first time on a multi-lens back camera,
      whose input the session adds and whose device can be locked, moves
      the zoom to the default factor, so the highlight stays on the button
      that was shown as the default before the session ran. */
  lemma {:induction false} StartedSessionHighlightsDefault(s: CameraState, back: BackCamera, front: Option<FrontCamera>)
    requires |back.switchOverZoomFactors| > 0
    requires Increasing(back.switchOverZoomFactors) && back.switchOverZoomFactors[0] > 1.0
    requires Supports48MP(back) && |back.switchOverZoomFactors| > 1 ==>
      2.0 * back.switchOverZoomFactors[0] < back.switchOverZoomFactors[1]
    ensures
      var r := StartSession(s, false, Some(back), InputAdded(true), front);
      var backDefault := r.zoomFactors.backCameraDefaultZoomFactor;
      var bs := BackButtons(r.zoomFactors.backCameraOpticalZoomFactors, backDefault);
      forall j :: 0 <= j < |bs| ==>
        (IsActive(bs[j], ShowDefault(r.sessionState), r.zoomFactor, backDefault) <==>
         bs[j].targetZoomFactor == backDefault)
  {
    var r := StartSession(s, false, Some(back), InputAdded(true), front);
    BackOptionsShape(back);
    FirstOptionInDefaultRange(BackOpticalZoomFactors(back), BackDefaultZoomFactor(back));
  }

  /** Tapping a button sets the zoom to its factor, which lies in its own
      range, so once the session runs the tapped button is the one lit. */
  lemma {:induction false} TappedButtonBecomesActive(s: CameraState, factors: seq<real>, backDefault: real, j: nat)
    requires Increasing(factors) && (|factors| > 0 ==> factors[0] > 1.0)
    requires j <= |factors|
    ensures
      var bs := BackButtons(factors, backDefault);
      var tapped := SetZoomFactor(s, true, bs[j].targetZoomFactor);
      IsActive(bs[j], ShowDefault(Running), tapped.zoomFactor, backDefault)
  {
    var bs := BackButtons(factors, backDefault);
    if j + 1 < |bs| {
      assert bs[j].activeZoomFactorRange.upper == Finite(bs[j + 1].activeZoomFactorRange.lower);
      if j > 0 {
        assert factors[j - 1] < factors[j];
      }
    }
  }

  /** A factor as the buttons display it: relative to the main lens. */
  function DisplayZoomFactor(zoomFactor: real, backDefault: real): (d: real)
    requires backDefault != 0.0
    ensures d * backDefault == zoomFactor
  {
    zoomFactor / backDefault
  }

  /** The default button reads 1x, both as its label and, while the default
      is shown, as its highlighted value; the 48 MP crop button reads 2x. */
  lemma DefaultButtonReadsOne(b: OptionButton, zoomFactor: real, backDefault: real)
    requires backDefault != 0.0 && b.defaultSelection
    requires b.targetZoomFactor == backDefault
    ensures DisplayZoomFactor(b.targetZoomFactor, backDefault) == 1.0
    ensures DisplayZoomFactor(CurrentZoomFactor(b, true, zoomFactor, backDefault), backDefault) == 1.0
    ensures DisplayZoomFactor(2.0 * backDefault, backDefault) == 2.0
  {
    var one := DisplayZoomFactor(backDefault, backDefault);
    assert (one - 1.0) * backDefault == 0.0;
    var two := DisplayZoomFactor(2.0 * backDefault, backDefault);
    assert (two - 2.0) * backDefault == 0.0;
  }

  // ---------------------------------------------------------------------
  // Front camera
  // ---------------------------------------------------------------------

  datatype ZoomControl = BackButtonRow | FrontToggleButton | NoZoomControl

  /** The back camera always gets its row of buttons; the front camera gets
      a toggle only when its default zoom is a crop. */
  function ZoomControlShown(side: CameraSide, frontDefault: real): (c: ZoomControl)
    ensures c.BackButtonRow? <==> side.Back?
    ensures c.FrontToggleButton? <==> side.Front? && frontDefault != 1.0
  {
    if side == Back then BackButtonRow
    else if frontDefault != 1.0 then FrontToggleButton
    else NoZoomControl
  }

  /** The front toggle: back to 1 from any zoom above 1, to the crop factor
      otherwise. */
  function FrontToggleTapped(zoomFactor: real): (z: real)
    ensures z == 1.0 || z == FrontCropZoomFactor
    ensures z == 1.0 <==> zoomFactor > 1.0
  {
    if zoomFactor > 1.0 then 1.0 else FrontCropZoomFactor
  }

  /** The toggle alternates between the two framings. */
  lemma FrontToggleAlternates(zoomFactor: real)
    ensures FrontToggleTapped(FrontToggleTapped(zoomFactor)) != FrontToggleTapped(zoomFactor)
    ensures FrontToggleTapped(FrontToggleTapped(FrontToggleTapped(zoomFactor))) == FrontToggleTapped(zoomFactor)
  {
  }
}

/**
 * `configureAvailableOpticalZoomsAndDefaultZoomsForCameras`: the back
 * camera's optical zoom options and the default zoom of each camera, derived
 * from the device's switch-over zoom factors and maximum photo dimensions.
 */
module OpticalZoom {

  import opened Optional
  import opened CaptureDevice

  /** A 48 MP main sensor makes a 2x crop an optical-quality option. */
  const BackCropPixelThreshold: nat := 48_000_000
  /** A front sensor above 12 MP defaults to a 1.3x crop (8 MP framing). */
  const FrontCropPixelThreshold: nat := 12_000_000
  const FrontCropZoomFactor: real := 1.3

  /** What the lookup of the back camera reports: its switch-over zoom
      factors, and the maximum photo dimensions of all formats of its
      wide-angle constituent (`None` when it has no such constituent). */
  datatype BackCamera = BackCamera(
    switchOverZoomFactors: seq<real>,
    wideAngleMaxPhotoDimensions: Option<seq<Dimensions>>)

  /** The maximum photo dimensions of all formats of the front camera. */
  datatype FrontCamera = FrontCamera(maxPhotoDimensions: seq<Dimensions>)

  datatype ZoomFactors = ZoomFactors(
    backCameraOpticalZoomFactors: seq<real>,
    backCameraDefaultZoomFactor: real,
    frontCameraDefaultZoomFactor: real)

  const InitialZoomFactors := ZoomFactors([], 1.0, 1.0)

  predicate Supports48MP(back: BackCamera) {
    back.wideAngleMaxPhotoDimensions.Some? &&
    AnyExceeds(back.wideAngleMaxPhotoDimensions.value, BackCropPixelThreshold)
  }

  predicate SupportsFrontCrop(front: FrontCamera) {
    AnyExceeds(front.maxPhotoDimensions, FrontCropPixelThreshold)
  }

  /** The back default zoom: the main camera's factor, which is the first
      switch-over factor, or 1 on a single-lens device. */
  function BackDefaultZoomFactor(back: BackCamera): (z: real)
    ensures |back.switchOverZoomFactors| == 0 ==> z == 1.0
    ensures |back.switchOverZoomFactors| > 0 ==> z == back.switchOverZoomFactors[0]
  {
    if |back.switchOverZoomFactors| == 0 then 1.0 else back.switchOverZoomFactors[0]
  }

  /** `s` with its element at `k` removed. */
  function RemoveAt<T>(s: seq<T>, k: nat): seq<T>
    requires k < |s|
  {
    s[..k] + s[k + 1..]
  }

  /** Where the 2x entry goes: right after the main camera's factor, or at
      the front of an empty list. */
  function CropInsertionIndex(factors: seq<real>): nat {
    if |factors| == 0 then 0 else 1
  }

  /** The back camera's optical zoom options: the switch-over factors, with
      twice the default zoom inserted after it on 48 MP sensors. */
  function BackOpticalZoomFactors(back: BackCamera): (fs: seq<real>)
    ensures !Supports48MP(back) ==> fs == back.switchOverZoomFactors
    ensures Supports48MP(back) ==>
      var k := CropInsertionIndex(back.switchOverZoomFactors);
      && |fs| == |back.switchOverZoomFactors| + 1
      && fs[k] == 2.0 * BackDefaultZoomFactor(back)
      && RemoveAt(fs, k) == back.switchOverZoomFactors
  {
    var sw := back.switchOverZoomFactors;
    if !Supports48MP(back) then sw
    else
      var k := CropInsertionIndex(sw);
      var crop := (if |sw| == 0 then 1.0 else sw[0]) * 2.0;
      var fs := sw[..k] + [crop] + sw[k..];
      assert RemoveAt(fs, k) == sw by {
        assert fs[..k] == sw[..k];
        assert fs[k + 1..] == sw[k..];
      }
      fs
  }

  /** Strictly increasing. */
  predicate Increasing(s: seq<real>) {
    forall i, j :: 0 <= i < j < |s| ==> s[i] < s[j]
  }

  /** When the switch-over factors are increasing and the next lens sits
      beyond twice the main one, the inserted option keeps the list sorted. */
  lemma {:induction false} CropKeepsOrder(back: BackCamera)
    requires Supports48MP(back)
    requires Increasing(back.switchOverZoomFactors)
    requires |back.switchOverZoomFactors| > 0 ==> back.switchOverZoomFactors[0] > 0.0
    requires |back.switchOverZoomFactors| > 1 ==>
      2.0 * back.switchOverZoomFactors[0] < back.switchOverZoomFactors[1]
    ensures Increasing(BackOpticalZoomFactors(back))
  {
    var sw := back.switchOverZoomFactors;
    var fs := BackOpticalZoomFactors(back);
    if |sw| > 0 {
      assert fs == [sw[0], 2.0 * sw[0]] + sw[1..];
      forall i, j | 0 <= i < j < |fs|
        ensures fs[i] < fs[j]
      {
        if j >= 2 {
          assert fs[j] == sw[j - 1];
          if i >= 2 {
            assert fs[i] == sw[i - 1];
          } else if |sw| > 1 {
            assert sw[1] <= sw[j - 1];
          }
        }
      }
    }
  }

  /** `configureAvailableOpticalZoomsAndDefaultZoomsForCameras`. A camera
      that the lookup does not find leaves its fields as they were; the front
      default only ever moves to the crop factor, never back. */
  function ConfigureZoomFactors(prior: ZoomFactors, back: Option<BackCamera>, front: Option<FrontCamera>): (r: ZoomFactors)
    ensures back.None? ==>
      && r.backCameraOpticalZoomFactors == prior.backCameraOpticalZoomFactors
      && r.backCameraDefaultZoomFactor == prior.backCameraDefaultZoomFactor
    ensures back.Some? ==>
      && r.backCameraDefaultZoomFactor == BackDefaultZoomFactor(back.value)
      && r.backCameraOpticalZoomFactors == BackOpticalZoomFactors(back.value)
    ensures r.frontCameraDefaultZoomFactor == FrontCropZoomFactor <==>
      (front.Some? && SupportsFrontCrop(front.value)) || prior.frontCameraDefaultZoomFactor == FrontCropZoomFactor
    ensures !(front.Some? && SupportsFrontCrop(front.value)) ==>
      r.frontCameraDefaultZoomFactor == prior.frontCameraDefaultZoomFactor
  {
    var r1 := match back
      case None => prior
      case Some(b) => prior.(
        backCameraDefaultZoomFactor := BackDefaultZoomFactor(b),
        backCameraOpticalZoomFactors := BackOpticalZoomFactors(b));
    match front
    case Some(f) =>
      if SupportsFrontCrop(f) then r1.(frontCameraDefaultZoomFactor := FrontCropZoomFactor) else r1
    case None => r1
  }

  /** The inserted option is always in the list on a 48 MP back camera, and
      its factor is twice the default one. */
  lemma CropOptionPresent(back: BackCamera)
    requires Supports48MP(back)
    ensures 2.0 * BackDefaultZoomFactor(back) in BackOpticalZoomFactors(back)
  {
    var k := CropInsertionIndex(back.switchOverZoomFactors);
    assert BackOpticalZoomFactors(back)[k] == 2.0 * BackDefaultZoomFactor(back);
  }

  /** The default zoom is the first option whenever the device has lenses to
      switch between: the insertion never displaces it. */
  lemma {:induction false} DefaultIsFirstOption(back: BackCamera)
    requires |back.switchOverZoomFactors| > 0
    ensures |BackOpticalZoomFactors(back)| > 0
    ensures BackOpticalZoomFactors(back)[0] == BackDefaultZoomFactor(back)
  {
    var fs := BackOpticalZoomFactors(back);
    if Supports48MP(back) {
      assert RemoveAt(fs, 1)[0] == fs[0];
    }
  }
}

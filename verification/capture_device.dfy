/**
 * The capture device, photo output and session reduced to the capabilities
 * and settings the camera model reads and writes. Every write is gated by a
 * support flag the device reports, exactly as the camera model gates it.
 */
module CaptureDevice {

  import opened CaptureConfiguration

  // ---------------------------------------------------------------------
  // Photo dimensions
  // ---------------------------------------------------------------------

  datatype Dimensions = Dimensions(width: nat, height: nat)

  function PixelCount(d: Dimensions): nat {
    d.width * d.height
  }

  /** Whether some of the maximum photo dimensions exceeds `threshold`
      pixels; searched from the end, where the largest one usually is. */
  function AnyExceeds(dims: seq<Dimensions>, threshold: nat): (b: bool)
    ensures b <==> exists i :: 0 <= i < |dims| && PixelCount(dims[i]) > threshold
    decreases |dims|
  {
    if |dims| == 0 then false
    else
      var last := |dims| - 1;
      PixelCount(dims[last]) > threshold || AnyExceeds(dims[..last], threshold)
  }

  // ---------------------------------------------------------------------
  // Focus and exposure
  // ---------------------------------------------------------------------

  datatype Point = Point(x: real, y: real)

  datatype FocusMode = Locked | AutoFocus | ContinuousAutoFocus

  datatype ExposureMode = Locked | AutoExpose | ContinuousAutoExposure | Custom

  datatype FocusDevice = FocusDevice(
    focusPointOfInterestSupported: bool,
    exposurePointOfInterestSupported: bool,
    supportedFocusModes: set<FocusMode>,
    supportedExposureModes: set<ExposureMode>,
    focusPointOfInterest: Point,
    exposurePointOfInterest: Point,
    focusMode: FocusMode,
    exposureMode: ExposureMode,
    exposureTargetBias: real,
    subjectAreaChangeMonitoring: bool)

  /** The capabilities a configuration call never changes. */
  predicate SameCapabilities(d: FocusDevice, r: FocusDevice) {
    && r.focusPointOfInterestSupported == d.focusPointOfInterestSupported
    && r.exposurePointOfInterestSupported == d.exposurePointOfInterestSupported
    && r.supportedFocusModes == d.supportedFocusModes
    && r.supportedExposureModes == d.supportedExposureModes
  }

  /** Either lock disables subject-area monitoring (a locked focus must not be
      reset when the scene changes); otherwise monitoring is on so that the
      focus returns to continuous mode when the subject moves. */
  predicate MonitorsSubjectArea(focusMode: FocusMode, exposureMode: ExposureMode) {
    focusMode != FocusMode.Locked && exposureMode != ExposureMode.Locked
  }

  /** `setManualFocus`: without point-of-interest support on both focus and
      exposure nothing changes; otherwise both points move, each mode is taken
      when the device supports it, the exposure bias is reset and monitoring
      follows the lock rule. */
  function SetManualFocus(d: FocusDevice, point: Point, focusMode: FocusMode, exposureMode: ExposureMode): (r: FocusDevice)
    ensures !(d.focusPointOfInterestSupported && d.exposurePointOfInterestSupported) ==> r == d
    ensures d.focusPointOfInterestSupported && d.exposurePointOfInterestSupported ==>
      && r.focusPointOfInterest == point
      && r.exposurePointOfInterest == point
      && r.exposureTargetBias == 0.0
      && (r.subjectAreaChangeMonitoring <==> focusMode != FocusMode.Locked && exposureMode != ExposureMode.Locked)
      && (focusMode in d.supportedFocusModes ==> r.focusMode == focusMode)
      && (focusMode !in d.supportedFocusModes ==> r.focusMode == d.focusMode)
      && (exposureMode in d.supportedExposureModes ==> r.exposureMode == exposureMode)
      && (exposureMode !in d.supportedExposureModes ==> r.exposureMode == d.exposureMode)
    ensures SameCapabilities(d, r)
  {
    if !(d.focusPointOfInterestSupported && d.exposurePointOfInterestSupported) then d
    else
      d.(
        focusPointOfInterest := point,
        focusMode := if focusMode in d.supportedFocusModes then focusMode else d.focusMode,
        exposureTargetBias := 0.0,
        exposurePointOfInterest := point,
        exposureMode := if exposureMode in d.supportedExposureModes then exposureMode else d.exposureMode,
        subjectAreaChangeMonitoring := MonitorsSubjectArea(focusMode, exposureMode))
  }

  /** The older copy of `setManualFocus`: identical except that it leaves the
      exposure bias alone. */
  function SetManualFocusLegacy(d: FocusDevice, point: Point, focusMode: FocusMode, exposureMode: ExposureMode): (r: FocusDevice)
    ensures r.exposureTargetBias == d.exposureTargetBias
    ensures r.(exposureTargetBias := 0.0)
            == SetManualFocus(d, point, focusMode, exposureMode).(exposureTargetBias := 0.0)
  {
    if !(d.focusPointOfInterestSupported && d.exposurePointOfInterestSupported) then d
    else
      d.(
        focusPointOfInterest := point,
        focusMode := if focusMode in d.supportedFocusModes then focusMode else d.focusMode,
        exposurePointOfInterest := point,
        exposureMode := if exposureMode in d.supportedExposureModes then exposureMode else d.exposureMode,
        subjectAreaChangeMonitoring := MonitorsSubjectArea(focusMode, exposureMode))
  }

  /** The reset on a subject-area change: continuous focus and exposure, no
      bias, monitoring off. No support flag is consulted. */
  function ResetToContinuous(d: FocusDevice): (r: FocusDevice)
    ensures r.focusMode == ContinuousAutoFocus && r.exposureMode == ContinuousAutoExposure
    ensures r.exposureTargetBias == 0.0 && !r.subjectAreaChangeMonitoring
    ensures r.focusPointOfInterest == d.focusPointOfInterest
    ensures r.exposurePointOfInterest == d.exposurePointOfInterest
    ensures SameCapabilities(d, r)
  {
    d.(focusMode := ContinuousAutoFocus,
       exposureMode := ContinuousAutoExposure,
       exposureTargetBias := 0.0,
       subjectAreaChangeMonitoring := false)
  }

  // ---------------------------------------------------------------------
  // Photo output
  // ---------------------------------------------------------------------

  datatype QualityPrioritization = Speed | Balanced | Quality

  datatype PhotoOutput = PhotoOutput(
    autoDeferredPhotoDeliverySupported: bool,
    zeroShutterLagSupported: bool,
    responsiveCaptureSupported: bool,
    fastCapturePrioritizationSupported: bool,
    autoDeferredPhotoDeliveryEnabled: bool,
    zeroShutterLagEnabled: bool,
    responsiveCaptureEnabled: bool,
    fastCapturePrioritizationEnabled: bool,
    maxPhotoQualityPrioritization: QualityPrioritization,
    maxPhotoDimensions: Dimensions)

  predicate SameSupport(o: PhotoOutput, r: PhotoOutput) {
    && r.autoDeferredPhotoDeliverySupported == o.autoDeferredPhotoDeliverySupported
    && r.zeroShutterLagSupported == o.zeroShutterLagSupported
    && r.responsiveCaptureSupported == o.responsiveCaptureSupported
    && r.fastCapturePrioritizationSupported == o.fastCapturePrioritizationSupported
  }

  /** `configurePhotoOutput`: quality prioritisation, the largest dimensions
      of the active format (the last one; the source force-unwraps it, so the
      list must not be empty), and each feature flag copied from the
      configuration only when the output supports it. Fast prioritisation is
      only looked at when responsive capture is supported. */
  function ConfigurePhotoOutput(o: PhotoOutput, c: Configuration, supportedMaxDimensions: seq<Dimensions>): (r: PhotoOutput)
    requires |supportedMaxDimensions| > 0
    ensures r.maxPhotoQualityPrioritization == Quality
    ensures r.maxPhotoDimensions == supportedMaxDimensions[|supportedMaxDimensions| - 1]
    ensures SameSupport(o, r)
    ensures o.autoDeferredPhotoDeliverySupported ==> r.autoDeferredPhotoDeliveryEnabled == c.autoDeferredPhotoDelivery
    ensures !o.autoDeferredPhotoDeliverySupported ==> r.autoDeferredPhotoDeliveryEnabled == o.autoDeferredPhotoDeliveryEnabled
    ensures o.zeroShutterLagSupported ==> r.zeroShutterLagEnabled == c.zeroShutterLag
    ensures !o.zeroShutterLagSupported ==> r.zeroShutterLagEnabled == o.zeroShutterLagEnabled
    ensures o.responsiveCaptureSupported ==> r.responsiveCaptureEnabled == c.responsiveCapture
    ensures !o.responsiveCaptureSupported ==> r.responsiveCaptureEnabled == o.responsiveCaptureEnabled
    ensures o.responsiveCaptureSupported && o.fastCapturePrioritizationSupported ==>
      r.fastCapturePrioritizationEnabled == c.fastCapturePrioritization
    ensures !(o.responsiveCaptureSupported && o.fastCapturePrioritizationSupported) ==>
      r.fastCapturePrioritizationEnabled == o.fastCapturePrioritizationEnabled
  {
    var o1 := o.(maxPhotoQualityPrioritization := Quality,
                 maxPhotoDimensions := supportedMaxDimensions[|supportedMaxDimensions| - 1]);
    var o2 := if o1.autoDeferredPhotoDeliverySupported
              then o1.(autoDeferredPhotoDeliveryEnabled := c.autoDeferredPhotoDelivery) else o1;
    var o3 := if o2.zeroShutterLagSupported
              then o2.(zeroShutterLagEnabled := c.zeroShutterLag) else o2;
    if o3.responsiveCaptureSupported then
      var o4 := o3.(responsiveCaptureEnabled := c.responsiveCapture);
      if o4.fastCapturePrioritizationSupported
      then o4.(fastCapturePrioritizationEnabled := c.fastCapturePrioritization) else o4
    else o3
  }

  /** Reconfiguring with the same configuration changes nothing more: the
      camera may call it after every device switch. */
  lemma ConfigurePhotoOutputIdempotent(o: PhotoOutput, c: Configuration, dims: seq<Dimensions>)
    requires |dims| > 0
    ensures ConfigurePhotoOutput(ConfigurePhotoOutput(o, c, dims), c, dims) == ConfigurePhotoOutput(o, c, dims)
  {
  }

  // ---------------------------------------------------------------------
  // Session-level settings
  // ---------------------------------------------------------------------

  datatype Connection = Connection(stabilizationSupported: bool, preferredStabilizationMode: StabilizationMode)

  datatype MultitaskingAccess = MultitaskingAccess(supported: bool, enabled: bool)

  /** `configureMultitaskAccess`. */
  function ConfigureMultitaskAccess(m: MultitaskingAccess, c: Configuration): (r: MultitaskingAccess)
    ensures r.supported == m.supported
    ensures m.supported ==> r.enabled == c.captureWhenMultiTasking
    ensures !m.supported ==> r == m
  {
    if m.supported then m.(enabled := c.captureWhenMultiTasking) else m
  }

  /** The connection after `configurePreferedStabilizationMode` has visited it. */
  function Stabilized(conn: Connection, mode: StabilizationMode): Connection {
    if conn.stabilizationSupported then conn.(preferredStabilizationMode := mode) else conn
  }

  /** `configurePreferedStabilizationMode`: every connection that supports
      stabilisation gets the configured mode; the others are skipped. The
      newer camera does this on iOS only, the older one everywhere. */
  method ConfigurePreferredStabilizationMode(connections: seq<Connection>, c: Configuration, iOS: bool)
    returns (r: seq<Connection>)
    ensures |r| == |connections|
    ensures forall i :: 0 <= i < |r| ==> r[i].stabilizationSupported == connections[i].stabilizationSupported
    ensures forall i :: 0 <= i < |r| ==>
      r[i].preferredStabilizationMode ==
        if iOS && connections[i].stabilizationSupported then c.stabilizationMode
        else connections[i].preferredStabilizationMode
  {
    r := connections;
    if !iOS {
      return;
    }
    var i := 0;
    while i < |r|
      invariant 0 <= i <= |r| == |connections|
      invariant forall j :: 0 <= j < i ==> r[j] == Stabilized(connections[j], c.stabilizationMode)
      invariant forall j :: i <= j < |r| ==> r[j] == connections[j]
    {
      if r[i].stabilizationSupported {
        r := r[i := r[i].(preferredStabilizationMode := c.stabilizationMode)];
      }
      i := i + 1;
    }
  }
}

/**
 * The capture configuration record and the view modifiers that edit it.
 *
 * The record holds the union of the fields of both generations of the
 * library: the older `...EnabledIfPossible` names and the newer `prefer...`
 * names denote the same settings and share one field here.
 */
module CaptureConfiguration {

  datatype StabilizationMode =
    | Off | Standard | Cinematic | CinematicExtended
    | PreviewOptimized | CinematicExtendedEnhanced | Auto

  datatype Configuration = Configuration(
    captureWhenMultiTasking: bool,
    autoSwitchingLens: bool,
    zeroShutterLag: bool,
    responsiveCapture: bool,
    fastCapturePrioritization: bool,
    autoDeferredPhotoDelivery: bool,
    stabilizationMode: StabilizationMode,
    constantColor: bool,
    constantColorFallbackDelivery: bool)

  /** The boolean fields of the record, one constructor each. */
  datatype Flag =
    | CaptureWhenMultiTasking | AutoSwitchingLens | ZeroShutterLag
    | ResponsiveCapture | FastCapturePrioritization | AutoDeferredPhotoDelivery
    | ConstantColor | ConstantColorFallbackDelivery

  function Get(c: Configuration, f: Flag): bool {
    match f
    case CaptureWhenMultiTasking => c.captureWhenMultiTasking
    case AutoSwitchingLens => c.autoSwitchingLens
    case ZeroShutterLag => c.zeroShutterLag
    case ResponsiveCapture => c.responsiveCapture
    case FastCapturePrioritization => c.fastCapturePrioritization
    case AutoDeferredPhotoDelivery => c.autoDeferredPhotoDelivery
    case ConstantColor => c.constantColor
    case ConstantColorFallbackDelivery => c.constantColorFallbackDelivery
  }

  /** Every flag outside `written`, and the stabilisation mode, are the same. */
  predicate KeepsAllBut(c: Configuration, r: Configuration, written: set<Flag>) {
    && r.stabilizationMode == c.stabilizationMode
    && forall g :: g !in written ==> Get(r, g) == Get(c, g)
  }

  /** A plain assignment to one flag. */
  function Set(c: Configuration, f: Flag, value: bool): (r: Configuration)
    ensures Get(r, f) == value
    ensures KeepsAllBut(c, r, {f})
  {
    match f
    case CaptureWhenMultiTasking => c.(captureWhenMultiTasking := value)
    case AutoSwitchingLens => c.(autoSwitchingLens := value)
    case ZeroShutterLag => c.(zeroShutterLag := value)
    case ResponsiveCapture => c.(responsiveCapture := value)
    case FastCapturePrioritization => c.(fastCapturePrioritization := value)
    case AutoDeferredPhotoDelivery => c.(autoDeferredPhotoDelivery := value)
    case ConstantColor => c.(constantColor := value)
    case ConstantColorFallbackDelivery => c.(constantColorFallbackDelivery := value)
  }

  /** Equality of configurations is field-wise: the camera view reconfigures
      the session exactly when some field differs. */
  lemma {:induction false} EqualityIsFieldWise(a: Configuration, b: Configuration)
    ensures a == b <==>
      (a.stabilizationMode == b.stabilizationMode && forall f :: Get(a, f) == Get(b, f))
  {
    if a.stabilizationMode == b.stabilizationMode && forall f :: Get(a, f) == Get(b, f) {
      assert Get(a, CaptureWhenMultiTasking) == Get(b, CaptureWhenMultiTasking);
      assert Get(a, AutoSwitchingLens) == Get(b, AutoSwitchingLens);
      assert Get(a, ZeroShutterLag) == Get(b, ZeroShutterLag);
      assert Get(a, ResponsiveCapture) == Get(b, ResponsiveCapture);
      assert Get(a, FastCapturePrioritization) == Get(b, FastCapturePrioritization);
      assert Get(a, AutoDeferredPhotoDelivery) == Get(b, AutoDeferredPhotoDelivery);
      assert Get(a, ConstantColor) == Get(b, ConstantColor);
      assert Get(a, ConstantColorFallbackDelivery) == Get(b, ConstantColorFallbackDelivery);
    }
  }

  /** The default configuration: multitasking capture and auto deferred
      delivery off; lens switching, zero shutter lag, responsive capture and
      fast prioritisation on; automatic stabilisation. */
  function DefaultConfiguration(): (c: Configuration)
    ensures !Get(c, CaptureWhenMultiTasking) && !Get(c, AutoDeferredPhotoDelivery)
    ensures Get(c, AutoSwitchingLens) && Get(c, ZeroShutterLag)
    ensures Get(c, ResponsiveCapture) && Get(c, FastCapturePrioritization)
    ensures c.stabilizationMode == Auto
  {
    Configuration(
      captureWhenMultiTasking := false,
      autoSwitchingLens := true,
      zeroShutterLag := true,
      responsiveCapture := true,
      fastCapturePrioritization := true,
      autoDeferredPhotoDelivery := false,
      stabilizationMode := Auto,
      constantColor := false,
      constantColorFallbackDelivery := false)
  }

  // ---------------------------------------------------------------------
  // Current modifiers. Every boolean one defaults to `enabled = true`.
  // ---------------------------------------------------------------------

  function AutoDeferredPhotoDeliveryEnabled(c: Configuration, enabled: bool := true): (r: Configuration)
    ensures r.autoDeferredPhotoDelivery == enabled
    ensures KeepsAllBut(c, r, {AutoDeferredPhotoDelivery})
  {
    Set(c, AutoDeferredPhotoDelivery, enabled)
  }

  function ZeroShutterLagEnabled(c: Configuration, enabled: bool := true): (r: Configuration)
    ensures r.zeroShutterLag == enabled
    ensures KeepsAllBut(c, r, {ZeroShutterLag})
  {
    Set(c, ZeroShutterLag, enabled)
  }

  function ResponsiveCaptureEnabled(c: Configuration, enabled: bool := true): (r: Configuration)
    ensures r.responsiveCapture == enabled
    ensures KeepsAllBut(c, r, {ResponsiveCapture})
  {
    Set(c, ResponsiveCapture, enabled)
  }

  /** Enabling fast prioritisation also turns responsive capture on, which it
      depends on; disabling it leaves responsive capture alone. */
  function FastCapturePrioritizationEnabled(c: Configuration, enabled: bool := true): (r: Configuration)
    ensures r.fastCapturePrioritization == enabled
    ensures enabled ==> r.responsiveCapture
    ensures !enabled ==> r.responsiveCapture == c.responsiveCapture
    ensures KeepsAllBut(c, r, {FastCapturePrioritization, ResponsiveCapture})
  {
    var c' := if enabled then Set(c, ResponsiveCapture, true) else c;
    Set(c', FastCapturePrioritization, enabled)
  }

  function AutoSwitchingLensEnabled(c: Configuration, enabled: bool := true): (r: Configuration)
    ensures r.autoSwitchingLens == enabled
    ensures KeepsAllBut(c, r, {AutoSwitchingLens})
  {
    Set(c, AutoSwitchingLens, enabled)
  }

  function CaptureWhenMultiTaskingEnabled(c: Configuration, enabled: bool := true): (r: Configuration)
    ensures r.captureWhenMultiTasking == enabled
    ensures KeepsAllBut(c, r, {CaptureWhenMultiTasking})
  {
    Set(c, CaptureWhenMultiTasking, enabled)
  }

  /** The stabilisation mode is only written on iOS and tvOS builds. */
  function CameraStabilizationMode(c: Configuration, mode: StabilizationMode, iOSOrTvOS: bool): (r: Configuration)
    ensures iOSOrTvOS ==> r.stabilizationMode == mode
    ensures forall f :: Get(r, f) == Get(c, f)
    ensures !iOSOrTvOS ==> r == c
  {
    if iOSOrTvOS then c.(stabilizationMode := mode) else c
  }

  /** Both constant-colour fields follow `enabled`; the fallback argument is
      accepted but not used. */
  function CameraConstantColorEnabled(c: Configuration, enabled: bool := true, fallbackDeliveryEnabled: bool := true): (r: Configuration)
    ensures r.constantColor == enabled && r.constantColorFallbackDelivery == enabled
    ensures KeepsAllBut(c, r, {ConstantColor, ConstantColorFallbackDelivery})
  {
    Set(Set(c, ConstantColor, enabled), ConstantColorFallbackDelivery, enabled)
  }

  lemma ConstantColorIgnoresFallbackArgument(c: Configuration, enabled: bool, fallback: bool)
    ensures CameraConstantColorEnabled(c, enabled, fallback) == CameraConstantColorEnabled(c, enabled, !fallback)
  {
  }

  /** Applying the modifiers of the features that are on by default, with
      their default argument, leaves the default configuration as it is;
      the two that are off by default change it. */
  lemma {:induction false} DefaultArgumentsAgreeWithDefaults()
    ensures ZeroShutterLagEnabled(DefaultConfiguration()) == DefaultConfiguration()
    ensures ResponsiveCaptureEnabled(DefaultConfiguration()) == DefaultConfiguration()
    ensures FastCapturePrioritizationEnabled(DefaultConfiguration()) == DefaultConfiguration()
    ensures AutoSwitchingLensEnabled(DefaultConfiguration()) == DefaultConfiguration()
    ensures AutoDeferredPhotoDeliveryEnabled(DefaultConfiguration()) != DefaultConfiguration()
    ensures CaptureWhenMultiTaskingEnabled(DefaultConfiguration()) != DefaultConfiguration()
  {
  }

  // ---------------------------------------------------------------------
  // Older modifiers: plain assignments to one field each, no defaults, and
  // fast prioritisation does not touch responsive capture.
  // ---------------------------------------------------------------------

  datatype LegacyModifier =
    | ResponsiveCaptureEnabledIfPossible(enabled: bool)
    | ZeroShutterLagEnabledIfPossible(enabled: bool)
    | CaptureWhenMultiTaskingSetting(enabled: bool)
    | AutoSwitchingLensSetting(enabled: bool)
    | FastCapturePrioritizationEnabledIfPossible(enabled: bool)
    | AutoDeferredPhotoDeliveryEnabledIfPossible(enabled: bool)
    | StabilizationModeSetting(mode: StabilizationMode)

  /** The flag an older modifier writes (all but the stabilisation one write a flag). */
  function WrittenFlag(m: LegacyModifier): (f: Flag)
    requires !m.StabilizationModeSetting?
  {
    match m
    case ResponsiveCaptureEnabledIfPossible(_) => ResponsiveCapture
    case ZeroShutterLagEnabledIfPossible(_) => ZeroShutterLag
    case CaptureWhenMultiTaskingSetting(_) => CaptureWhenMultiTasking
    case AutoSwitchingLensSetting(_) => AutoSwitchingLens
    case FastCapturePrioritizationEnabledIfPossible(_) => FastCapturePrioritization
    case AutoDeferredPhotoDeliveryEnabledIfPossible(_) => AutoDeferredPhotoDelivery
  }

  function ApplyLegacy(c: Configuration, m: LegacyModifier): (r: Configuration)
    ensures m.StabilizationModeSetting? ==>
      r.stabilizationMode == m.mode && forall f :: Get(r, f) == Get(c, f)
    ensures !m.StabilizationModeSetting? ==>
      Get(r, WrittenFlag(m)) == m.enabled && KeepsAllBut(c, r, {WrittenFlag(m)})
  {
    match m
    case StabilizationModeSetting(mode) => c.(stabilizationMode := mode)
    case _ => Set(c, WrittenFlag(m), m.enabled)
  }

  /** Two older modifiers write the same field. */
  predicate SameField(m1: LegacyModifier, m2: LegacyModifier) {
    if m1.StabilizationModeSetting? || m2.StabilizationModeSetting? then
      m1.StabilizationModeSetting? && m2.StabilizationModeSetting?
    else
      WrittenFlag(m1) == WrittenFlag(m2)
  }

  /** The older fast-prioritisation modifier leaves responsive capture alone. */
  lemma LegacyFastPrioritizationKeepsResponsive(c: Configuration, enabled: bool)
    ensures ApplyLegacy(c, FastCapturePrioritizationEnabledIfPossible(enabled)).responsiveCapture
            == c.responsiveCapture
  {
  }

  /** Applying the same older modifier twice is the same as once. */
  lemma {:induction false} LegacyIdempotent(c: Configuration, m: LegacyModifier)
    ensures ApplyLegacy(ApplyLegacy(c, m), m) == ApplyLegacy(c, m)
  {
    var once := ApplyLegacy(c, m);
    var twice := ApplyLegacy(once, m);
    if !m.StabilizationModeSetting? {
      assert KeepsAllBut(once, twice, {WrittenFlag(m)});
      assert forall f :: Get(twice, f) == Get(once, f);
    }
    EqualityIsFieldWise(twice, once);
  }

  /** What one flag reads after an older modifier. */
  lemma FlagAfterLegacy(c: Configuration, m: LegacyModifier, f: Flag)
    ensures Get(ApplyLegacy(c, m), f) ==
      if !m.StabilizationModeSetting? && f == WrittenFlag(m) then m.enabled else Get(c, f)
  {
  }

  function StabilizationAfterLegacy(c: Configuration, m: LegacyModifier): StabilizationMode {
    if m.StabilizationModeSetting? then m.mode else c.stabilizationMode
  }

  /** Older modifiers that write different fields commute. */
  lemma {:induction false} LegacyCommute(c: Configuration, m1: LegacyModifier, m2: LegacyModifier)
    requires !SameField(m1, m2)
    ensures ApplyLegacy(ApplyLegacy(c, m1), m2) == ApplyLegacy(ApplyLegacy(c, m2), m1)
  {
    var c1, c2 := ApplyLegacy(c, m1), ApplyLegacy(c, m2);
    var a, b := ApplyLegacy(c1, m2), ApplyLegacy(c2, m1);
    forall f
      ensures Get(a, f) == Get(b, f)
    {
      FlagAfterLegacy(c, m1, f);
      FlagAfterLegacy(c, m2, f);
      FlagAfterLegacy(c1, m2, f);
      FlagAfterLegacy(c2, m1, f);
    }
    assert a.stabilizationMode == StabilizationAfterLegacy(c1, m2);
    assert b.stabilizationMode == StabilizationAfterLegacy(c2, m1);
    EqualityIsFieldWise(a, b);
  }
}

/**
 * The flash-light indicator: the button's mode cycle, its accessibility
 * text, its visibility, the two-way sync between the stored preference and
 * the camera's flash mode, and the fallback when a photo is taken with a
 * mode the photo output does not support.
 */
module Flash {

  import opened Optional

  datatype FlashMode = Off | On | Auto

  /** A press of the indicator: off turns to auto, anything else to off. */
  function Press(m: FlashMode): (r: FlashMode)
    ensures r != On
    ensures r != m
    ensures m != Off ==> r == Off
  {
    match m
    case Off => Auto
    case _ => Off
  }

  /** From off, two presses come back to off; after the first press the
      button only alternates between off and auto. */
  lemma PressCycle(m: FlashMode)
    ensures Press(Press(Off)) == Off
    ensures Press(Press(Press(m))) == Press(m)
    ensures Press(m) == Off || Press(m) == Auto
  {
  }

  const AccessibilityPrefix := "Flash Light "

  /** The indicator's label, one per mode. */
  function AccessibilityText(m: FlashMode): (t: string)
    ensures |t| > |AccessibilityPrefix| && t[..|AccessibilityPrefix|] == AccessibilityPrefix
  {
    match m
    case Off => "Flash Light off"
    case On => "Flash Light on"
    case Auto => "Flash Light auto"
  }

  /** The label tells the modes apart. */
  lemma AccessibilityTextDistinct(m1: FlashMode, m2: FlashMode)
    requires m1 != m2
    ensures AccessibilityText(m1) != AccessibilityText(m2)
  {
    assert AccessibilityText(m1)[12] != AccessibilityText(m2)[12]
        || AccessibilityText(m1)[13] != AccessibilityText(m2)[13];
  }

  /** `currentDeviceHasFlash`: always on the simulator, otherwise whatever
      the current video device reports, and false without a device. */
  function CurrentDeviceHasFlash(simulator: bool, deviceHasFlash: Option<bool>): (b: bool)
    ensures b <==> simulator || deviceHasFlash == Some(true)
  {
    simulator || deviceHasFlash.GetOr(false)
  }

  /** The stored preference and the camera's flash mode. */
  datatype FlashSync = FlashSync(preference: FlashMode, cameraFlashMode: FlashMode)

  datatype FlashEvent =
    | Appear                              // the indicator's task first runs
    | ButtonPressed                       // the user taps the indicator
    | CameraFlashModeChanged(mode: FlashMode)  // the camera changed its mode itself

  /** One event. The indicator only exists when the device has a flash: the
      button cannot be pressed otherwise and nothing is copied either way.
      The indicator's `.task` body pushes every new preference to the camera; a change of the
      camera's mode is copied back to the preference. */
  function Step(s: FlashSync, e: FlashEvent, hasFlash: bool): (r: FlashSync)
    ensures hasFlash ==> r.preference == r.cameraFlashMode
    ensures !hasFlash ==> r.preference == s.preference
    ensures e.ButtonPressed? && hasFlash ==> r.preference == Press(s.preference)
    ensures e.CameraFlashModeChanged? ==> r.cameraFlashMode == e.mode
    ensures e.Appear? && hasFlash ==> r.preference == s.preference
  {
    match e
    case Appear =>
      if hasFlash then s.(cameraFlashMode := s.preference) else s
    case ButtonPressed =>
      if hasFlash then
        var p := Press(s.preference);
        FlashSync(p, p)
      else s
    case CameraFlashModeChanged(m) =>
      if hasFlash then FlashSync(m, m) else s.(cameraFlashMode := m)
  }

  /** Without the camera changing its own mode, the preference reachable
      from the button is never `On` once it has been pressed. */
  lemma {:induction false} PressesNeverTurnFlashOn(s: FlashSync, events: seq<FlashEvent>)
    requires s.preference != On
    requires forall i :: 0 <= i < |events| ==> !events[i].CameraFlashModeChanged?
    ensures Run(s, events, true).preference != On
    decreases |events|
  {
    if |events| > 0 {
      PressesNeverTurnFlashOn(Step(s, events[0], true), events[1..]);
    }
  }

  function Run(s: FlashSync, events: seq<FlashEvent>, hasFlash: bool): FlashSync
    decreases |events|
  {
    if |events| == 0 then s else Run(Step(s, events[0], hasFlash), events[1..], hasFlash)
  }

  datatype PhotoSettingsFlash = PhotoSettingsFlash(settingsFlashMode: FlashMode, cameraFlashMode: FlashMode)

  /** The flash part of `createPhotoSettings`. A supported mode goes into the
      settings; otherwise the settings keep their default (off) and the
      camera's own mode is reset to off. */
  function CreatePhotoSettings(cameraFlashMode: FlashMode, supportedFlashModes: set<FlashMode>): (r: PhotoSettingsFlash)
    ensures cameraFlashMode in supportedFlashModes ==>
      r.settingsFlashMode == cameraFlashMode && r.cameraFlashMode == cameraFlashMode
    ensures cameraFlashMode !in supportedFlashModes ==>
      r.settingsFlashMode == Off && r.cameraFlashMode == Off
    ensures r.settingsFlashMode in supportedFlashModes + {Off}
  {
    if cameraFlashMode in supportedFlashModes then
      PhotoSettingsFlash(cameraFlashMode, cameraFlashMode)
    else
      PhotoSettingsFlash(Off, Off)
  }

  /** After a capture with an unsupported mode, the indicator shows off: the
      reset of the camera's mode reaches the stored preference. */
  lemma {:induction false} UnsupportedFlashResetsPreference(s: FlashSync, supported: set<FlashMode>)
    requires s.cameraFlashMode !in supported
    ensures
      var taken := CreatePhotoSettings(s.cameraFlashMode, supported);
      Step(s, CameraFlashModeChanged(taken.cameraFlashMode), true).preference == Off
  {
    var taken := CreatePhotoSettings(s.cameraFlashMode, supported);
    assert taken.cameraFlashMode == Off;
  }
}

# MegaX camera, orientation and window logic in Dafny

MegaX is a SwiftUI package. It offers a camera view built on AVFoundation, orientation locking and counter-rotation helpers, and a floating auxiliary menu window for macOS. This project models the decision logic inside those pieces as pure Dafny functions over immutable records. The capture device and session become records of capabilities and settings: support flags, switch-over zoom factors and maximum photo dimensions. Angles are integer degrees and zoom factors are `real`. The timed gestures become sequences of discrete events.

The package holds two generations of the camera model:

- `Camera.swift`, the current one;
- `CameraModel.swift`, with `CameraView+modifiers.swift` and `Camera/FlashLightIndicator.swift`, the older one.

Both generations share one definition per operation. Where they differ, the model has both variants:

- `CaptureDevice.SetManualFocusLegacy` is the older `setManualFocus`, which does not reset the exposure bias.
- `CaptureConfiguration.ApplyLegacy` holds the older configuration modifiers, whose fast-capture switch does not touch responsive capture.
- `CaptureDevice.ConfigurePreferredStabilizationMode` takes an `iOS` flag for the current copy's platform condition. With the flag set, it is also the older copy's unconditional loop (CameraModel.swift:450-455).

The older copies are covered by these rows:

- `toggle` at CameraModel.swift:30-32.
- `setInterfaceRotationAngle` at CameraModel.swift:361-397.
- The optical-zoom configuration at CameraModel.swift:399-442.
- `configurePhotoOutput` at CameraModel.swift:313-331.
- The default zoom on toggle at CameraModel.swift:129-131.

Modules follow the source files:

- `InterfaceRotation`: rotation of the on-screen controls.
- `CaptureConfiguration`: the configuration record and its view modifiers.
- `CaptureDevice`: device and photo-output settings.
- `OpticalZoom`: optical zoom options and default zooms.
- `ZoomOptions`: the zoom buttons.
- `ZoomGesture`: the pinch gesture.
- `Camera`: camera state, toggling, zoom and session start.
- `Flash`: the flash button.
- `Readiness`: the readiness flags.
- `FocusGesture`: tap and hold to focus.
- `Orientation`: orientation conventions.
- `OrientationLock`: the app delegate's orientation lock.
- `CounterRotation`: the counter-rotation angle.
- `DeviceTypes`: the device idiom.
- `AuxiliaryWindows`: the window's target registry and placement.
- `AuxiliaryMenus`: the control side of the auxiliary menu.
- `Optional`: the option type.

## Model

| member | source | states |
|---|---|---|
| InterfaceRotation.TargetRotationAngle | Sources/MegaX/Camera/Model/Camera.swift:428-433 | The target plus the capture angle points to 90 degrees (mod 360); for capture angles in [0, 360) the target lies in (-90, 270]; right angles give right angles |
| InterfaceRotation.NormalizeAngle | Sources/MegaX/Camera/Model/Camera.swift:436-440 | The normalisation loop terminates with an angle in [0, 360] that points the same way as the input, leaves angles already in [0, 360] alone, and agrees with a closed-form reference |
| InterfaceRotation.ShortestTurn | Sources/MegaX/Camera/Model/Camera.swift:444-461 | When current and target are at most a full turn apart, the new angle points at the target and is reached by a turn in (-180, 180]; an exact half turn goes clockwise (the angle grows) |
| InterfaceRotation.SetInterfaceRotationAngle | Sources/MegaX/Camera/Model/Camera.swift:426-462 | For right-angle capture angles the controls end up pointing at the portrait-relative target, reached by a turn of at most half a circle from the normalised current angle |
| CaptureConfiguration.Set | Sources/MegaX/Camera/Modifiers.swift:11-58 | Writing one flag gives it the new value and changes no other field |
| CaptureConfiguration.EqualityIsFieldWise | Sources/MegaX/Camera/Model/CameraCaptureConfiguration.swift:10-17 | Two configurations are equal exactly when every field agrees, so the view reconfigures only on a real change |
| CaptureConfiguration.DefaultConfiguration | Sources/MegaX/Camera/Model/CameraCaptureConfiguration.swift:11-17 | Multitasking capture and auto-deferred delivery start off; lens switching, zero shutter lag, responsive capture and fast prioritisation start on; stabilisation starts automatic |
| CaptureConfiguration.AutoDeferredPhotoDeliveryEnabled | Sources/MegaX/Camera/Modifiers.swift:11-15 | Sets auto-deferred delivery and nothing else |
| CaptureConfiguration.ZeroShutterLagEnabled | Sources/MegaX/Camera/Modifiers.swift:19-23 | Sets zero shutter lag and nothing else |
| CaptureConfiguration.ResponsiveCaptureEnabled | Sources/MegaX/Camera/Modifiers.swift:27-31 | Sets responsive capture and nothing else |
| CaptureConfiguration.FastCapturePrioritizationEnabled | Sources/MegaX/Camera/Modifiers.swift:35-42 | Sets fast prioritisation; switching it on also switches responsive capture on, switching it off leaves responsive capture as it was; nothing else changes |
| CaptureConfiguration.AutoSwitchingLensEnabled | Sources/MegaX/Camera/Modifiers.swift:46-50 | Sets automatic lens switching and nothing else |
| CaptureConfiguration.CaptureWhenMultiTaskingEnabled | Sources/MegaX/Camera/Modifiers.swift:54-58 | Sets multitasking capture and nothing else |
| CaptureConfiguration.CameraStabilizationMode | Sources/MegaX/Camera/Modifiers.swift:63-69 | On iOS and tvOS the stabilisation mode takes the new value and no flag changes; elsewhere the configuration is unchanged |
| CaptureConfiguration.CameraConstantColorEnabled | Sources/MegaX/Camera/Modifiers.swift:73-78 | Constant colour and its fallback delivery both take `enabled`; nothing else changes |
| CaptureConfiguration.ConstantColorIgnoresFallbackArgument | Sources/MegaX/Camera/Modifiers.swift:73-78 | The `fallbackDeliveryEnabled` argument has no effect on the result |
| CaptureConfiguration.DefaultArgumentsAgreeWithDefaults | Sources/MegaX/Camera/Modifiers.swift:11-58 | Each modifier with its default argument (`true`) leaves the default configuration alone exactly for the flags that default to on |
| CaptureConfiguration.ApplyLegacy | Sources/MegaX/Camera/CameraView+modifiers.swift:12-52 | Each older modifier writes exactly its own field (stabilisation, or one flag) and leaves the rest unchanged |
| CaptureConfiguration.LegacyFastPrioritizationKeepsResponsive | Sources/MegaX/Camera/CameraView+modifiers.swift:36-40 | The older fast-prioritisation modifier never touches responsive capture |
| CaptureConfiguration.LegacyIdempotent | Sources/MegaX/Camera/CameraView+modifiers.swift:12-52 | Applying the same older modifier twice equals applying it once |
| CaptureConfiguration.FlagAfterLegacy | Sources/MegaX/Camera/CameraView+modifiers.swift:12-52 | Reading a flag after an older modifier gives the written value for its own flag and the old value for every other |
| CaptureConfiguration.LegacyCommute | Sources/MegaX/Camera/CameraView+modifiers.swift:12-52 | Older modifiers that write different fields commute |
| CaptureDevice.AnyExceeds | Sources/MegaX/Camera/Model/Camera.swift:478-483 | True exactly when some maximum photo dimension has more pixels than the threshold |
| CaptureDevice.SetManualFocus | Sources/MegaX/Camera/Model/Camera.swift:237-259 | Without point-of-interest support nothing changes; otherwise both points move, each mode is taken only if supported, the bias resets, and subject-area monitoring is on exactly when neither mode is locked |
| CaptureDevice.SetManualFocusLegacy | Sources/MegaX/Camera/Model/CameraModel.swift:193-214 | The older copy keeps the exposure bias and otherwise agrees with the current one |
| CaptureDevice.ResetToContinuous | Sources/MegaX/Camera/Focus/CameraFocusable.swift:48-53 | A subject-area change returns to continuous focus and exposure, with no bias and monitoring off, and keeps the points of interest |
| CaptureDevice.ConfigurePhotoOutput | Sources/MegaX/Camera/Model/Camera.swift:370-388 | Quality prioritisation and the largest dimensions are set; each feature flag follows the configuration only when the output supports it, and fast prioritisation only when responsive capture is supported too |
| CaptureDevice.ConfigurePhotoOutputIdempotent | Sources/MegaX/Camera/Model/Camera.swift:370-388 | Configuring the photo output a second time changes nothing |
| CaptureDevice.ConfigureMultitaskAccess | Sources/MegaX/Camera/Model/Camera.swift:509-513 | Multitasking access follows the configuration when the session supports it and is left alone otherwise |
| CaptureDevice.ConfigurePreferredStabilizationMode | Sources/MegaX/Camera/Model/Camera.swift:515-522 | On iOS every connection that supports stabilisation gets the configured mode and the others are untouched; elsewhere nothing changes |
| OpticalZoom.BackDefaultZoomFactor | Sources/MegaX/Camera/Model/Camera.swift:474 | The back default zoom is the first switch-over factor, or 1 when there is none |
| OpticalZoom.BackOpticalZoomFactors | Sources/MegaX/Camera/Model/Camera.swift:470-490 | Without a 48 MP sensor the options are the switch-over factors; with one, exactly one entry worth twice the default is added, at index 1 (index 0 when the list is empty), and removing it gives back the factors |
| OpticalZoom.CropKeepsOrder | Sources/MegaX/Camera/Model/Camera.swift:484-489 | The added 2x entry keeps increasing factors increasing when the next lens lies beyond twice the main one |
| OpticalZoom.ConfigureZoomFactors | Sources/MegaX/Camera/Model/Camera.swift:464-506 | A missing back camera keeps the back fields; the front default becomes 1.3 exactly when some front format exceeds 12 MP or it already was 1.3, and otherwise keeps its old value |
| OpticalZoom.CropOptionPresent | Sources/MegaX/Camera/Model/Camera.swift:484-489 | On a 48 MP sensor the options contain twice the default zoom |
| OpticalZoom.DefaultIsFirstOption | Sources/MegaX/Camera/Model/Camera.swift:474-489 | With lenses to switch between, the default zoom stays the first option after the insertion |
| ZoomOptions.ShowDefault | Sources/MegaX/Camera/Zoom/CameraOpticalZoomOptionsBox.swift:21-23 | The buttons show the default selection exactly while the session is not running |
| ZoomOptions.BackButtons | Sources/MegaX/Camera/Zoom/CameraOpticalZoomOptionsBox.swift:46-67 | A 1x button plus one per option; each range starts at its button's factor and ends where the next begins; the 1x range ends at 5 without options; the last is unbounded; the default flag marks the buttons whose factor is the back default |
| ZoomOptions.IsActive | Sources/MegaX/Camera/Zoom/CameraOpticalZoomOptionsBox.swift:92-107 | While showing the default, a button is lit exactly when it is the default selection; otherwise exactly when its range holds the zoom |
| ZoomOptions.Locate | Sources/MegaX/Camera/Zoom/CameraOpticalZoomOptionsBox.swift:46-59 | Finds the last range start not above the zoom, which is below the next start |
| ZoomOptions.RangesPartition | Sources/MegaX/Camera/Zoom/CameraOpticalZoomOptionsBox.swift:46-59 | With increasing factors above 1, every zoom of at least 1 lies in exactly one button's range; with no factors (a single-lens camera) this holds for zooms in [1, 5), the only range there being [1, 5) |
| ZoomOptions.ExactlyOneActive | Sources/MegaX/Camera/Zoom/CameraOpticalZoomOptionsBox.swift:102-107 | Once the session runs, exactly one button is lit for any zoom of at least 1 over increasing factors above 1, and for any zoom in [1, 5) on a single-lens camera |
| ZoomOptions.SingleLensMaximumLightsNothing | Sources/MegaX/Camera/Zoom/CameraOpticalZoomOptionsBox.swift:46-49 | On a single-lens camera the pinch maximum is 5, where the 1x range ends, so at that zoom or beyond no button is lit once the session runs |
| ZoomOptions.SingleDefaultButton | Sources/MegaX/Camera/Zoom/CameraOpticalZoomOptionsBox.swift:49-63 | Over increasing factors exactly one button carries the default flag |
| ZoomOptions.OnlyDefaultHighlighted | Sources/MegaX/Camera/Zoom/CameraOpticalZoomOptionsBox.swift:102-105 | While showing the default, the one lit button is the default one |
| ZoomOptions.BackOptionsShape | Sources/MegaX/Camera/Model/Camera.swift:470-490 | A back camera's options are increasing, and its default is either 1 below all of them or the first of them |
| ZoomOptions.DefaultHighlightedBeforeRunning | Sources/MegaX/Camera/Zoom/CameraOpticalZoomOptionsBox.swift:46-107 | Before the session runs, exactly one back button is lit, the one for the back default zoom |
| ZoomOptions.FirstOptionInDefaultRange | Sources/MegaX/Camera/Zoom/CameraOpticalZoomOptionsBox.swift:54-63 | At the first option's zoom, the range that holds it is exactly the default button's |
| ZoomOptions.StartedSessionHighlightsDefault | Sources/MegaX/Camera/Model/Camera.swift:355-368 | A first start on a multi-lens camera, whose input the session adds and whose device can be locked, zooms to the default, so the lit button is the default one, as before the start |
| ZoomOptions.TappedButtonBecomesActive | Sources/MegaX/Camera/Zoom/CameraOpticalZoomOptionsBox.swift:120-121 | Tapping a button zooms into its own range, so that button becomes the lit one |
| ZoomOptions.DisplayZoomFactor | Sources/MegaX/Camera/Zoom/CameraOpticalZoomOptionsBox.swift:108-117 | The displayed factor times the back default gives the actual zoom |
| ZoomOptions.DefaultButtonReadsOne | Sources/MegaX/Camera/Zoom/CameraOpticalZoomOptionsBox.swift:96-116 | The default button reads 1x, both as its label and while the default is shown; the crop option reads 2x |
| ZoomOptions.ZoomControlShown | Sources/MegaX/Camera/Zoom/CameraOpticalZoomOptionsBox.swift:13-19 | The back camera always gets the button row; the front gets its toggle exactly when its default zoom is not 1 |
| ZoomOptions.FrontToggleTapped | Sources/MegaX/Camera/Zoom/CameraOpticalZoomOptionsBox.swift:28 | The front toggle goes to 1 exactly when the zoom is above 1, and to 1.3 otherwise |
| ZoomOptions.FrontToggleAlternates | Sources/MegaX/Camera/Zoom/CameraOpticalZoomOptionsBox.swift:28 | Successive taps alternate between the two framings |
| ZoomGesture.MinZoomFactor | Sources/MegaX/Camera/Zoom/CameraZoom.swift:21-23 | The device's minimum zoom, or 1 without a device |
| ZoomGesture.MaxZoomFactor | Sources/MegaX/Camera/Zoom/CameraZoom.swift:24-26 | Five times the last switch-over factor, or 5 when there is none |
| ZoomGesture.Clamp | Sources/MegaX/Camera/Zoom/CameraZoom.swift:56 | The result is never above the maximum, is within the bounds when they are ordered, and is the input itself when the input is within them |
| ZoomGesture.ClampMonotone | Sources/MegaX/Camera/Zoom/CameraZoom.swift:56 | Clamping preserves order |
| ZoomGesture.PinchZoomMonotone | Sources/MegaX/Camera/Zoom/CameraZoom.swift:56 | For a fixed starting zoom that is not negative, a larger magnification never gives a smaller zoom |
| ZoomGesture.CaptureInitialFactor | Sources/MegaX/Camera/Zoom/CameraZoom.swift:37-45 | The starting zoom is the device's after a successful lock, 1 without a device, and nothing when the lock fails |
| ZoomGesture.OnChanged | Sources/MegaX/Camera/Zoom/CameraZoom.swift:36-58 | The starting zoom is captured only once; with none captured nothing happens; without a device, or with one that cannot be locked, the zoom is not written; otherwise the front camera zooms to 1.3 or 1 by the direction of the pinch and the back camera to the clamped scaled zoom; only the zoom changes |
| ZoomGesture.OnEnded | Sources/MegaX/Camera/Zoom/CameraZoom.swift:59-62 | The end of a pinch forgets the starting zoom |
| ZoomGesture.PinchFollowsLatestMagnification | Sources/MegaX/Camera/Zoom/CameraZoom.swift:45-57 | On the back camera, with a device that can be configured, a whole pinch ends on the clamped zoom for its last magnification, whatever came before, and keeps its starting zoom |
| ZoomGesture.FrontIgnoresStartingZoom | Sources/MegaX/Camera/Zoom/CameraZoom.swift:48-54 | On the front camera the starting zoom has no effect |
| ZoomGesture.FailedLockChangesNothing | Sources/MegaX/Camera/Zoom/CameraZoom.swift:38-45 | When the device cannot be locked, a pinch changes neither the zoom nor the gesture state |
| Camera.ToggleTwice | Sources/MegaX/Camera/Model/Camera.swift:111-113 | Toggling the camera side twice restores it (and each toggle changes it) |
| Camera.ToggleCamera | Sources/MegaX/Camera/Model/Camera.swift:120-126 | A toggle disables the shutter, commits the session, dims the preview to 0.2 and flips the side, and changes nothing else |
| Camera.ToggleCameraTwice | Sources/MegaX/Camera/Model/Camera.swift:120-126 | Two quick toggles land on the original side with the shutter still disabled |
| Camera.SetZoomFactor | Sources/MegaX/Camera/Model/Camera.swift:213-232 | The zoom is recorded only when the device can be configured, and nothing else changes |
| Camera.DefaultZoomFactor | Sources/MegaX/Camera/Model/Camera.swift:164-166 | A side's starting zoom is that side's default |
| Camera.CompleteToggle | Sources/MegaX/Camera/Model/Camera.swift:140-205 | A failed device lookup or input creation changes nothing; otherwise the session runs again, undimmed, with the shutter enabled, and only a switched configurable device moves to the side's default zoom |
| Camera.FailedLookupKeepsShutterDisabled | Sources/MegaX/Camera/Model/Camera.swift:144-151 | A toggle whose device lookup fails leaves the shutter disabled and the session committing |
| Camera.SwitchLandsOnDefaultZoom | Sources/MegaX/Camera/Model/Camera.swift:164-166 | A successful switch lands on the new side's default zoom |
| Camera.StartSession | Sources/MegaX/Camera/Model/Camera.swift:68-368 | Nothing changes while the capture session already runs; otherwise the session ends up running, a missing back camera or failed input creation leaves zoom and zoom options as they were, and the options are recomputed otherwise; only an added input on a lockable multi-lens camera moves the zoom to the back default |
| Camera.RestartKeepsZoom | Sources/MegaX/Camera/Model/Camera.swift:320-343 | A restart whose earlier input is still in the session keeps the zoom the user left, and the session runs again |
| Flash.Press | Sources/MegaX/Camera/Component/FlashLightIndicator.swift:34-37 | A press never selects on and always changes the mode; any mode other than off goes to off |
| Flash.PressCycle | Sources/MegaX/Camera/Component/FlashLightIndicator.swift:34-37 | From off two presses return to off; after the first press the button alternates between off and auto |
| Flash.AccessibilityText | Sources/MegaX/Camera/Component/FlashLightIndicator.swift:10-17 | Every mode has a label starting with "Flash Light " |
| Flash.AccessibilityTextDistinct | Sources/MegaX/Camera/Component/FlashLightIndicator.swift:10-17 | Different modes have different labels |
| Flash.CurrentDeviceHasFlash | Sources/MegaX/Camera/Model/Camera.swift:46-50 | The control shows on the simulator, and on a device exactly when it has a flash |
| Flash.Step | Sources/MegaX/Camera/Component/FlashLightIndicator.swift:32-99 | With the control present, the preference and the camera's mode agree after every event; presses cycle the preference; camera changes are copied back |
| Flash.PressesNeverTurnFlashOn | Sources/MegaX/Camera/Component/FlashLightIndicator.swift:34-37 | Without outside changes to the camera's mode, no sequence of presses reaches on |
| Flash.CreatePhotoSettings | Sources/MegaX/Camera/Model/Camera.swift:393-397 | A supported mode goes into the settings; an unsupported one resets the camera's mode to off |
| Flash.UnsupportedFlashResetsPreference | Sources/MegaX/Camera/Model/Camera.swift:393-397 | An unsupported mode reset to off at capture is copied back into the button's preference |
| Readiness.ReadinessDidChange | Sources/MegaX/Camera/Model/CameraModel+ReadinessCoordinator.swift:11-14 | The shutter is disabled exactly when not ready, busy exactly while waiting for processing, busy implies disabled, ready clears both |
| Readiness.LatestReadinessWins | Sources/MegaX/Camera/Model/CameraModel+ReadinessCoordinator.swift:11-14 | Only the latest readiness matters, so repeating it changes nothing |
| FocusGesture.Configure | Sources/MegaX/Camera/Model/Camera.swift:288-297 | A device change takes effect only when the device can be locked |
| FocusGesture.FocusRequestsSetMonitoring | Sources/MegaX/Camera/Focus/CameraFocusable.swift:106-131 | The automatic request watches the subject area and takes auto focus and exposure; the locking request stops watching and takes locked focus and exposure |
| FocusGesture.Step | Sources/MegaX/Camera/Focus/CameraFocusable.swift:42-100 | A tap unlocks and focuses there; touching down only records the touch; lifting the finger completes a lock in progress only; a held first delay starts locking; the second delay locks if held and falls back otherwise; a subject-area change resets to continuous and shows the rectangle, which its time-out hides; committing clears the rectangle; each event leaves every other field unchanged |
| FocusGesture.RunAppend | Sources/MegaX/Camera/Focus/CameraFocusable.swift:42-100 | Running two event sequences one after the other equals running them joined, so a gesture can be split at any event |
| FocusGesture.HoldLocksFocus | Sources/MegaX/Camera/Focus/CameraFocusable.swift:80-103 | A hold outlasting both delays locks focus and exposure at the point, stops monitoring, and shows the locked rectangle once lifted |
| FocusGesture.ShortHoldStaysAutomatic | Sources/MegaX/Camera/Focus/CameraFocusable.swift:93-98 | A hold released between the delays stays unlocked and automatic, with the subject area watched |
| FocusGesture.RunKeepsCapabilities | Sources/MegaX/Camera/Focus/CameraFocusable.swift:42-131 | No sequence of events changes what the device supports |
| Orientation.TargetTransitionAngle | Sources/MegaX/Orientation/InterfaceOrientationConvention.swift:5-12 | A right angle between -90 and 180, zero exactly for portrait |
| Orientation.ReverseTransitionAngle | Sources/MegaX/Orientation/InterfaceOrientationConvention.swift:15-17 | The reverse angle and the target angle always sum to zero |
| Orientation.TransitionAngleInjective | Sources/MegaX/Orientation/InterfaceOrientationConvention.swift:5-17 | Each angle identifies its orientation |
| Orientation.ToUIKit | Sources/MegaX/Orientation/InterfaceOrientationConvention.swift:21-29 | Converting to UIKit swaps the landscape cases, keeps the portrait cases, and never gives unknown |
| Orientation.FromUIKit | Sources/MegaX/Orientation/InterfaceOrientationConvention.swift:32-39 | An unknown UIKit orientation reads as portrait |
| Orientation.UIKitRoundTrip | Sources/MegaX/Orientation/InterfaceOrientationConvention.swift:21-39 | The conversions are inverse on the four known orientations; unknown comes back as portrait |
| Orientation.FromRawValue | Sources/MegaX/Orientation/AppOrientationDelegate.swift:88 | A raw value gives an orientation exactly when it is in 0..4, and that orientation has the raw value |
| Orientation.RawValueRoundTrip | Sources/MegaX/Orientation/AppOrientationDelegate.swift:88 | Reading a raw value back gives the orientation it came from |
| Orientation.DeviceToInterface | Sources/MegaX/Orientation/AppOrientationDelegate.swift:79-89 | Never fails and never unknown; upside down and the two landscape cases keep their names; everything else is portrait |
| OrientationLock.FallbackOrientation | Sources/MegaX/Orientation/AppOrientationDelegate.swift:102-120 | A single-orientation mask gives its orientation; all gives the current one; all-but-upside-down gives the current one but never upside down; any other mask gives a landscape orientation, the current one if landscape |
| OrientationLock.FallbackWithinNamedMask | Sources/MegaX/Orientation/AppOrientationDelegate.swift:102-120 | For every mask UIKit names, the forced orientation is one the mask allows |
| OrientationLock.SupportedOrientations | Sources/MegaX/Orientation/AppOrientationDelegate.swift:11-13 | The delegate reports the current lock |
| OrientationLock.UpdateOrientation | Sources/MegaX/Orientation/AppOrientationDelegate.swift:91-125 | The lock becomes the requested mask and the default is untouched; iOS 16 asks for a refresh, earlier systems are forced into the fallback orientation |
| OrientationLock.DeviceOrientationDisappeared | Sources/MegaX/Orientation/AppOrientationDelegate.swift:52-54 | Leaving the screen returns the lock to the default mask |
| OrientationLock.LockReleasedOnDisappear | Sources/MegaX/Orientation/AppOrientationDelegate.swift:43-54 | A lock taken on appearing is released on leaving, back to the state before |
| OrientationLock.DefaultMaskChanged | Sources/MegaX/Orientation/AppOrientationDelegate.swift:62-69 | The default is always recorded; the orientation is re-applied exactly when the new default equals the lock, and the lock itself never changes |
| OrientationLock.DefaultMaskPreference | Sources/MegaX/Orientation/AppOrientationDelegate.swift:19 | Upside down is allowed by default exactly on an iPad, and the other three always |
| OrientationLock.ReducePreference | Sources/MegaX/Orientation/AppOrientationDelegate.swift:21-23 | The preference set last wins; with none set the default stays |
| CounterRotation.CounterAngle | Sources/MegaX/Orientation/CounterRotationEffect.swift:58 | The counter angle is the turn from the scene's orientation back to the target's, through the landscape-swapping conversion, and is zero exactly when they match |
| CounterRotation.NoCounterRotationWhenAligned | Sources/MegaX/Orientation/CounterRotationEffect.swift:71 | A scene already in the target orientation needs no counter rotation |
| CounterRotation.Appear | Sources/MegaX/Orientation/CounterRotationEffect.swift:63-73 | Appearing with a known scene orientation makes the angle consistent with it; without one nothing changes |
| CounterRotation.SetOrientation | Sources/MegaX/Orientation/CounterRotationEffect.swift:96-102 | A new target adds the difference of the angles to the bound angle |
| CounterRotation.SetOrientationKeepsConsistent | Sources/MegaX/Orientation/CounterRotationEffect.swift:96-102 | Updating the target keeps the angle consistent with the scene |
| CounterRotation.RetargetKeepsConsistent | Sources/MegaX/Orientation/CounterRotationEffect.swift:96-102 | Any number of target updates keep the angle consistent |
| CounterRotation.RetargetLands | Sources/MegaX/Orientation/CounterRotationEffect.swift:90-92 | After several updates the target is the last one given |
| CounterRotation.RetargetMatchesFreshAppearance | Sources/MegaX/Orientation/CounterRotationEffect.swift:58-102 | After any sequence of target updates the angle is what a fresh appearance with the last target computes |
| DeviceTypes.RawValue | Sources/MegaX/Environment/DeviceType.swift:4-22 | Raw values lie in 0..8 |
| DeviceTypes.FromRawValue | Sources/MegaX/Environment/DeviceType.swift:4-22 | A raw value gives a device type exactly when it is in 0..8, with that raw value |
| DeviceTypes.RawValueRoundTrip | Sources/MegaX/Environment/DeviceType.swift:4-22 | Each case reads back as itself, so distinct cases have distinct raw values |
| DeviceTypes.FromIdiom | Sources/MegaX/Environment/DeviceType.swift:25-36 | Never mac or watch; phone, pad, tv, CarPlay and vision keep their names; the mac idiom means Catalyst; unspecified and unknown idioms are unspecified |
| AuxiliaryWindows.FirstIndexOf | Sources/MegaX/Scene/AuxiliaryWindow.swift:152 | Finds the first target with the id, or reports that none has it |
| AuxiliaryWindows.FindTarget | Sources/MegaX/Scene/AuxiliaryWindow.swift:151-159 | Hands out a target with the id; an existing id leaves the registry unchanged; an unknown id appends exactly one new empty target |
| AuxiliaryWindows.FindTargetIdempotent | Sources/MegaX/Scene/AuxiliaryWindow.swift:151-159 | A second lookup of the same id hands out the same target and adds nothing |
| AuxiliaryWindows.FindTargetKeepsIdsDistinct | Sources/MegaX/Scene/AuxiliaryWindow.swift:151-159 | Ids in the registry stay pairwise distinct |
| AuxiliaryWindows.UpdateMenu | Sources/MegaX/Scene/AuxiliaryWindow.swift:175-181 | The target takes the new frame and content; other targets are untouched |
| AuxiliaryWindows.Dismiss | Sources/MegaX/Scene/AuxiliaryWindow.swift:183-186 | The target goes back to a zero frame and empty content; other targets are untouched |
| AuxiliaryWindows.EditsKeepLookups | Sources/MegaX/Scene/AuxiliaryWindow.swift:175-186 | Updating or dismissing a target does not change which target a lookup finds |
| AuxiliaryWindows.FirstIndexOfDependsOnIds | Sources/MegaX/Scene/AuxiliaryWindow.swift:152 | A lookup depends only on the ids in the registry |
| AuxiliaryWindows.ShowsAtBottom | Sources/MegaX/Scene/AuxiliaryWindow.swift:31-35 | Outside macOS, or with no known screen, the menu goes below; on macOS it goes below exactly when it fits above the bottom of the visible screen |
| AuxiliaryWindows.AnchorsSwap | Sources/MegaX/Scene/AuxiliaryWindow.swift:41-72 | The placeholder and menu anchors always differ; the menu hangs from its top exactly when it shows below |
| AuxiliaryMenus.Appear | Sources/MegaX/Modifiers/AuxiliaryMenu.swift:102-105 | On appearing, a control binds to a registry target with its window id; the registry only grows |
| AuxiliaryMenus.UpdateMenu | Sources/MegaX/Modifiers/AuxiliaryMenu.swift:113-126 | The window opens exactly when the control is focused and presented, and the target then takes its frame and content; otherwise it closes exactly when the target still shows this control's frame |
| AuxiliaryMenus.OtherControlsMenuStays | Sources/MegaX/Modifiers/AuxiliaryMenu.swift:122-124 | A control never closes a menu the target shows for another frame |
| AuxiliaryMenus.PresentThenDismiss | Sources/MegaX/Modifiers/AuxiliaryMenu.swift:117-124 | After presenting, the same control losing focus or presentation closes the window |
| AuxiliaryMenus.TargetFrameChanged | Sources/MegaX/Modifiers/AuxiliaryMenu.swift:106-132 | The handler acts only on a real change of the frame; the first change is ignored; afterwards presentation is cleared exactly when the frame changes to zero |
| AuxiliaryMenus.WindowDismissalClearsPresentation | Sources/MegaX/Modifiers/AuxiliaryMenu.swift:106-132 | When the window dismisses a target that was showing a menu (a non-zero frame), every bound control stops presenting |
| AuxiliaryMenus.DismissalOfEmptyTargetKeepsPresentation | Sources/MegaX/Modifiers/AuxiliaryMenu.swift:106-110 | Dismissing a target whose frame is already zero changes no frame, so a control still marked as presented stays presented |

## Left out

- AVFoundation plumbing is not modelled. That covers session begin and commit, input and output management, device discovery, key-value observation, and the rotation and readiness coordinator objects. Each outcome that matters to the modelled logic becomes a parameter: whether a device was found, whether it could be locked, what it supports, the outcome of a camera switch, and the readiness value.
- Concurrency and timing are events, not clocks. This covers the dispatch queue, `Task.sleep`, cancellation, the toggle delay, the focus-hold delays, the auxiliary menu's debounce, and the auto-focus rectangle timeout. The bound counter-rotation angle is updated at once rather than on the main actor later.
- Views, animations, symbols and layout are left out, as are the simulator-only values for the zoom display (4.4 and 2.2) and the simulator skip in the focus requests.
- The `viewWillTransition` rotation in the counter-rotation controller is left out. It is float affine-transform geometry over UIKit.
- Floating point is not modelled: angles are integer degrees, and zoom factors and frames are exact reals.
- The point conversion from preview-layer coordinates to device coordinates is a UIKit call. Each focus event carries both points.
- CaptureConfiguration.DefaultConfiguration: the constant-colour fields are not declared in the configuration record's source, so their defaults are taken as off.
- ZoomOptions.BackButtons: Swift traps when a range has an upper bound below its lower bound. The model builds such ranges without trapping, and the partition lemmas assume increasing factors above 1.
- ZoomOptions.RangesPartition: on a single-lens camera the only range is [1, 5), so the partition is stated for zooms below 5 there. A pinch can reach 5, where no range holds the zoom, as SingleLensMaximumLightsNothing shows.
- ZoomOptions.ExactlyOneActive: for the same reason, on a single-lens camera exactly one button is lit only for zooms below 5. At the pinch maximum of 5, none is lit, as written.
- CaptureDevice.ConfigurePhotoOutput: requires a non-empty list of supported maximum photo dimensions. The source takes its last element with `last!`, which traps on an empty list; the model does not represent the trap.
- CaptureDevice.AnyExceeds: the source multiplies width and height as 32-bit integers, which traps on overflow. The model multiplies unbounded naturals. Real sensor dimensions stay far below the overflow.
- Camera.StartSession: whether the capture session already runs is a parameter. It is not the published `sessionState`, which is updated later on the main actor and reads committing during a camera switch.
- AuxiliaryWindows.Target: the source also records the key window when a target is created and on every menu update. Its notifications (losing key status, moving, resizing, closing) trigger the dismissal. Window objects and notifications are not modelled; a dismissal is an explicit call.
- AuxiliaryMenus.WindowDismissalClearsPresentation: holds only when the target frame was non-zero. A control that is unfocused but still presented while the frame is zero keeps `isPresented` through a dismissal, as DismissalOfEmptyTargetKeepsPresentation states.
- ZoomOptions.DisplayZoomFactor: requires a non-zero back default. The source would divide by zero; its default is never zero.
- InterfaceRotation.SetInterfaceRotationAngle: the pointing and shortest-turn guarantees are stated for right-angle capture angles only. Those are the angles the rotation coordinator reports. For other capture angles, the normalised current angle and the target can be more than a full turn apart, which is outside ShortestTurn's contract.
- OrientationLock.FallbackWithinNamedMask: holds for the masks UIKit names. A custom mask without landscape, such as portrait plus upside down, is forced into landscape left, outside the mask, exactly as written.
- Camera.CompleteToggle: a failed device lookup or input creation returns before the session is committed. The shutter stays disabled and the state stays committing, as written.
- The older `FlashLightIndicator` gates on a `flashLightCapable` member that the older camera model does not declare. It is modelled with the same gate as the current one.
- UIKit's raw values for interface orientations (unknown 0, portrait 1, upside down 2, landscape right 3, landscape left 4) are UIKit's own, not part of this repository.

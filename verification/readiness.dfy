/**
 * The readiness coordinator delegate: the capture readiness reported by the
 * photo output decides whether the shutter is disabled and whether the
 * busy indicator is shown.
 */
module Readiness {

  datatype CaptureReadiness =
    | SessionNotRunning
    | Ready
    | NotReadyMomentarily
    | NotReadyWaitingForCapture
    | NotReadyWaitingForProcessing

  datatype ShutterFlags = ShutterFlags(shutterDisabled: bool, isBusyProcessing: bool)

  /** `captureReadinessDidChange`: the shutter is usable only when ready;
      the spinner shows only while a photo is being processed. */
  function ReadinessDidChange(flags: ShutterFlags, readiness: CaptureReadiness): (r: ShutterFlags)
    ensures r.shutterDisabled <==> readiness != Ready
    ensures r.isBusyProcessing <==> readiness == NotReadyWaitingForProcessing
    ensures r.isBusyProcessing ==> r.shutterDisabled
    ensures readiness == Ready ==> !r.shutterDisabled && !r.isBusyProcessing
  {
    flags.(shutterDisabled := readiness != Ready,
           isBusyProcessing := readiness == NotReadyWaitingForProcessing)
  }

  /** Only the latest report matters: earlier flags and reports are
      overwritten, so repeating a report changes nothing. */
  lemma LatestReadinessWins(flags: ShutterFlags, earlier: CaptureReadiness, latest: CaptureReadiness)
    ensures ReadinessDidChange(ReadinessDidChange(flags, earlier), latest)
            == ReadinessDidChange(flags, latest)
    ensures ReadinessDidChange(ReadinessDidChange(flags, latest), latest)
            == ReadinessDidChange(flags, latest)
  {
  }
}

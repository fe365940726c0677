/** The measurement record the detection server publishes and the
    backend-driven page polls, and the page's status banner. */
module Metrics {

  /** 'Normal', 'Warning' (eyes closing, not yet long enough), 'Drowsy', 'No Face'. */
  datatype EyeStatus = EyeNormal | EyeWarning | Drowsy | EyeNoFace

  /** 'Normal', 'Yawning', 'No Face'. */
  datatype YawnStatus = YawnNormal | Yawning | YawnNoFace

  /** `current_metrics`: the last eye aspect ratio and lip distance measured,
      the two statuses and whether the last frame had a face. */
  datatype Metrics = Metrics(
    ear: real,
    yawnDistance: real,
    eyeStatus: EyeStatus,
    yawnStatus: YawnStatus,
    faceDetected: bool)

  const InitialMetrics: Metrics := Metrics(0.0, 0.0, EyeNormal, YawnNormal, false)

  /** The look of the status indicator: 'ready', 'active', 'warning', 'danger'. */
  datatype Level = Ready | Active | Caution | Alarm

  datatype Banner = Banner(level: Level, text: string)

  const ReadyBanner: Banner := Banner(Ready, "System Ready")
  const ActiveBanner: Banner := Banner(Active, "Detection Active")
  const NoFaceBanner: Banner := Banner(Caution, "No Face Detected")
  const DrowsyBanner: Banner := Banner(Alarm, "Drowsiness Alert!")
  const YawnBanner: Banner := Banner(Caution, "Yawning Detected")
}

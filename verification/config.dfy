/** The configuration values the core reads, with the defaults of
    checador/config.py. Loading and saving the TOML file is not modelled. */
module Config {

  /** `[fingerprint]`: identification threshold and enrollment quality gate. */
  datatype FingerprintConfig = FingerprintConfig(
    matchThreshold: int,
    enrollmentSamples: int,
    minQualityScore: int)

  const DefaultFingerprint := FingerprintConfig(40, 3, 20)

  /** `[server]`: sync switch, endpoint and retry/backoff parameters. */
  datatype ServerConfig = ServerConfig(
    enabled: bool,
    url: string,
    apiKey: string,
    syncIntervalSeconds: int,
    retryMaxAttempts: int,
    retryBackoffBase: int)

  const DefaultServer := ServerConfig(false, "", "", 300, 5, 2)

  /** `[camera]`: device, capture size and region of interest. */
  datatype CameraConfig = CameraConfig(
    device: string,
    width: int,
    height: int,
    fps: int,
    roiX: int,
    roiY: int,
    roiWidth: int,
    roiHeight: int)

  const DefaultCamera := CameraConfig("/dev/video0", 640, 480, 30, 0, 0, 640, 480)

  /** `[app] device_id`. */
  const DefaultDeviceId := "CHECADOR-001"
}

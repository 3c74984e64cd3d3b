/**
 * The configuration record of the linux-wave loader: four sections of
 * scalar fields, the built-in defaults and the two well-known file paths.
 * Configurations are values: copying one (`result := *base` in the loader)
 * is plain assignment here, and no operation can disturb its inputs.
 */
module ConfigSchema {

  datatype ServiceConfig = ServiceConfig(
    timeout: int,          // seconds an authentication may take
    retryAttempts: int,    // maximum number of retries
    socketPath: string)    // Unix domain socket of the service

  datatype LoggingConfig = LoggingConfig(
    level: string,         // DEBUG, INFO, WARN or ERROR, in any case
    format: string)        // json or text, in any case

  datatype AudioConfig = AudioConfig(
    enabled: bool,
    volume: int,                  // percent
    customSoundSuccess: string,   // empty: the built-in sound
    customSoundFailure: string)   // empty: the built-in sound

  datatype SecurityConfig = SecurityConfig(
    livenessRequired: bool,
    matchThreshold: real,         // confidence cutoff, a float64 in the program
    maxAuthAttempts: int,
    lockoutDuration: int)         // seconds

  datatype Config = Config(
    service: ServiceConfig,
    logging: LoggingConfig,
    audio: AudioConfig,
    security: SecurityConfig)

  /** The system-wide configuration file. */
  const SystemConfigPath: string := "/etc/linux-wave/config.yaml"

  /** The user configuration file, relative to the home directory. */
  const UserConfigRelPath: string := ".config/linux-wave/config.yaml"

  /** Go's zero value `Config{}`: every number 0, every string empty, every flag false. */
  function ZeroConfig(): Config {
    Config(
      ServiceConfig(0, 0, ""),
      LoggingConfig("", ""),
      AudioConfig(false, 0, "", ""),
      SecurityConfig(false, 0.0, 0, 0))
  }

  /** The built-in defaults, as the program ships them (log format "test"). */
  function DefaultConfig(): (r: Config)
    ensures 1 <= r.service.timeout <= 60 && 1 <= r.service.retryAttempts <= 10
    ensures r.service.socketPath != "" && r.service.socketPath[0] == '/'
    ensures 0 <= r.audio.volume <= 100 && r.audio.customSoundSuccess == "" && r.audio.customSoundFailure == ""
    ensures 0.0 <= r.security.matchThreshold <= 1.0 && 1 <= r.security.maxAuthAttempts <= 20
    ensures 0 <= r.security.lockoutDuration <= 3600
    ensures r.audio.enabled && r.security.livenessRequired
    ensures r.logging.format == "test"
  {
    Config(
      ServiceConfig(10, 3, "/run/linux-wave/auth.sock"),
      LoggingConfig("INFO", "test"),
      AudioConfig(true, 50, "", ""),
      SecurityConfig(true, 0.85, 3, 300))
  }

  /**
   * The defaults with the log format the comment beside it describes
   * ("human-readable"), that is "text".
   */
  function IntendedDefaultConfig(): Config {
    DefaultConfig().(logging := DefaultConfig().logging.(format := "text"))
  }
}

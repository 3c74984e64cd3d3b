/**
 * Overlaying one configuration on another, field by field. Numbers and
 * strings (and the threshold) use zero-means-unset: the override's value
 * wins unless it is the zero value. The two flags use a different test:
 * the override's value is taken when it differs from the base's.
 */
module ConfigMerge {
  import opened Wrappers
  import opened ConfigSchema
  import opened ConfigDocument

  function OverlayInt(base: int, over: int): int {
    if over != 0 then over else base
  }

  function OverlayString(base: string, over: string): string {
    if over != "" then over else base
  }

  function OverlayReal(base: real, over: real): real {
    if over != 0.0 then over else base
  }

  function OverlayBool(base: bool, over: bool): bool {
    if over != base then over else base
  }

  function MergedService(base: ServiceConfig, override: ServiceConfig): ServiceConfig {
    ServiceConfig(
      OverlayInt(base.timeout, override.timeout),
      OverlayInt(base.retryAttempts, override.retryAttempts),
      OverlayString(base.socketPath, override.socketPath))
  }

  function MergedLogging(base: LoggingConfig, override: LoggingConfig): LoggingConfig {
    LoggingConfig(
      OverlayString(base.level, override.level),
      OverlayString(base.format, override.format))
  }

  function MergedAudio(base: AudioConfig, override: AudioConfig): AudioConfig {
    AudioConfig(
      OverlayBool(base.enabled, override.enabled),
      OverlayInt(base.volume, override.volume),
      OverlayString(base.customSoundSuccess, override.customSoundSuccess),
      OverlayString(base.customSoundFailure, override.customSoundFailure))
  }

  function MergedSecurity(base: SecurityConfig, override: SecurityConfig): SecurityConfig {
    SecurityConfig(
      OverlayBool(base.livenessRequired, override.livenessRequired),
      OverlayReal(base.matchThreshold, override.matchThreshold),
      OverlayInt(base.maxAuthAttempts, override.maxAuthAttempts),
      OverlayInt(base.lockoutDuration, override.lockoutDuration))
  }

  /** The configuration `mergeConfigs(base, override)` returns. */
  function Merged(base: Config, override: Config): Config {
    Config(
      MergedService(base.service, override.service),
      MergedLogging(base.logging, override.logging),
      MergedAudio(base.audio, override.audio),
      MergedSecurity(base.security, override.security))
  }

  /**
   * `mergeConfigs`: start from a copy of `base`, then overlay its sections
   * one after the other, in the program's order.
   */
  method MergeConfigs(base: Config, override: Config) returns (result: Config)
    ensures result == Merged(base, override)
  {
    result := base;
    var service := MergeServiceSettings(result.service, override.service);
    result := result.(service := service);
    var logging := MergeLoggingSettings(result.logging, override.logging);
    result := result.(logging := logging);
    var audio := MergeAudioSettings(result.audio, override.audio);
    result := result.(audio := audio);
    var security := MergeSecuritySettings(result.security, override.security);
    result := result.(security := security);
  }

  /** The service block of `mergeConfigs`: assign each field the override sets. */
  method MergeServiceSettings(base: ServiceConfig, override: ServiceConfig) returns (result: ServiceConfig)
    ensures result == MergedService(base, override)
  {
    result := base;
    if override.timeout != 0 {
      result := result.(timeout := override.timeout);
    }
    if override.retryAttempts != 0 {
      result := result.(retryAttempts := override.retryAttempts);
    }
    if override.socketPath != "" {
      result := result.(socketPath := override.socketPath);
    }
  }

  /** The logging block of `mergeConfigs`. */
  method MergeLoggingSettings(base: LoggingConfig, override: LoggingConfig) returns (result: LoggingConfig)
    ensures result == MergedLogging(base, override)
  {
    result := base;
    if override.level != "" {
      result := result.(level := override.level);
    }
    if override.format != "" {
      result := result.(format := override.format);
    }
  }

  /** The audio block of `mergeConfigs`; the flag is compared with the base's flag. */
  method MergeAudioSettings(base: AudioConfig, override: AudioConfig) returns (result: AudioConfig)
    ensures result == MergedAudio(base, override)
  {
    result := base;
    if override.enabled != base.enabled {
      result := result.(enabled := override.enabled);
    }
    if override.volume != 0 {
      result := result.(volume := override.volume);
    }
    if override.customSoundSuccess != "" {
      result := result.(customSoundSuccess := override.customSoundSuccess);
    }
    if override.customSoundFailure != "" {
      result := result.(customSoundFailure := override.customSoundFailure);
    }
  }

  /** The security block of `mergeConfigs`; the flag is compared with the base's flag. */
  method MergeSecuritySettings(base: SecurityConfig, override: SecurityConfig) returns (result: SecurityConfig)
    ensures result == MergedSecurity(base, override)
  {
    result := base;
    if override.livenessRequired != base.livenessRequired {
      result := result.(livenessRequired := override.livenessRequired);
    }
    if override.matchThreshold != 0.0 {
      result := result.(matchThreshold := override.matchThreshold);
    }
    if override.maxAuthAttempts != 0 {
      result := result.(maxAuthAttempts := override.maxAuthAttempts);
    }
    if override.lockoutDuration != 0 {
      result := result.(lockoutDuration := override.lockoutDuration);
    }
  }

  /**
   * Every number and string of the merge is the override's when that is
   * set (non-zero, non-empty) and the base's otherwise.
   */
  lemma MergeScalarRule(base: Config, override: Config)
    ensures var m := Merged(base, override);
      && m.service.timeout == (if override.service.timeout != 0 then override.service.timeout else base.service.timeout)
      && m.service.retryAttempts == (if override.service.retryAttempts != 0 then override.service.retryAttempts else base.service.retryAttempts)
      && m.service.socketPath == (if override.service.socketPath != "" then override.service.socketPath else base.service.socketPath)
      && m.logging.level == (if override.logging.level != "" then override.logging.level else base.logging.level)
      && m.logging.format == (if override.logging.format != "" then override.logging.format else base.logging.format)
      && m.audio.volume == (if override.audio.volume != 0 then override.audio.volume else base.audio.volume)
      && m.audio.customSoundSuccess == (if override.audio.customSoundSuccess != "" then override.audio.customSoundSuccess else base.audio.customSoundSuccess)
      && m.audio.customSoundFailure == (if override.audio.customSoundFailure != "" then override.audio.customSoundFailure else base.audio.customSoundFailure)
      && m.security.matchThreshold == (if override.security.matchThreshold != 0.0 then override.security.matchThreshold else base.security.matchThreshold)
      && m.security.maxAuthAttempts == (if override.security.maxAuthAttempts != 0 then override.security.maxAuthAttempts else base.security.maxAuthAttempts)
      && m.security.lockoutDuration == (if override.security.lockoutDuration != 0 then override.security.lockoutDuration else base.security.lockoutDuration)
  {
  }

  /** Whatever the base holds, the merged flags are the override's flags. */
  lemma MergeFlagsFollowOverride(base: Config, override: Config)
    ensures Merged(base, override).audio.enabled == override.audio.enabled
    ensures Merged(base, override).security.livenessRequired == override.security.livenessRequired
  {
  }

  /** Merging a configuration with itself gives it back. */
  lemma MergeIdempotent(c: Config)
    ensures Merged(c, c) == c
  {
  }

  /** Merging onto the zero configuration gives the override back. */
  lemma MergeOntoZero(c: Config)
    ensures Merged(ZeroConfig(), c) == c
  {
  }

  /**
   * Merging the zero configuration keeps every number and string of the
   * base but switches both flags off.
   */
  lemma MergeZeroOverlay(c: Config)
    ensures Merged(c, ZeroConfig()) ==
      c.(audio := c.audio.(enabled := false),
         security := c.security.(livenessRequired := false))
  {
  }

  /** Two overlays in a row are one overlay of their merge: the later layer wins. */
  lemma MergeAssociative(a: Config, b: Config, c: Config)
    ensures Merged(Merged(a, b), c) == Merged(a, Merged(b, c))
  {
  }

  /**
   * An overlay read from a file, decoded into a fresh zero configuration,
   * contributes exactly the keys it sets to values other than zero; a key
   * set to zero or left out keeps the base's value; and each flag becomes
   * the document's value, or false when the document leaves it out, so a
   * file without `audio.enabled` turns audio off.
   */
  lemma MergeDocumentOverlay(base: Config, doc: Document)
    ensures var m := Merged(base, DecodeOnto(doc, ZeroConfig()));
      && m.service.timeout == (if doc.service.timeout.GetOr(0) != 0 then doc.service.timeout.value else base.service.timeout)
      && m.service.retryAttempts == (if doc.service.retryAttempts.GetOr(0) != 0 then doc.service.retryAttempts.value else base.service.retryAttempts)
      && m.service.socketPath == (if doc.service.socketPath.GetOr("") != "" then doc.service.socketPath.value else base.service.socketPath)
      && m.logging.level == (if doc.logging.level.GetOr("") != "" then doc.logging.level.value else base.logging.level)
      && m.logging.format == (if doc.logging.format.GetOr("") != "" then doc.logging.format.value else base.logging.format)
      && m.audio.enabled == doc.audio.enabled.GetOr(false)
      && m.audio.volume == (if doc.audio.volume.GetOr(0) != 0 then doc.audio.volume.value else base.audio.volume)
      && m.audio.customSoundSuccess == (if doc.audio.customSoundSuccess.GetOr("") != "" then doc.audio.customSoundSuccess.value else base.audio.customSoundSuccess)
      && m.audio.customSoundFailure == (if doc.audio.customSoundFailure.GetOr("") != "" then doc.audio.customSoundFailure.value else base.audio.customSoundFailure)
      && m.security.livenessRequired == doc.security.livenessRequired.GetOr(false)
      && m.security.matchThreshold == (if doc.security.matchThreshold.GetOr(0.0) != 0.0 then doc.security.matchThreshold.value else base.security.matchThreshold)
      && m.security.maxAuthAttempts == (if doc.security.maxAuthAttempts.GetOr(0) != 0 then doc.security.maxAuthAttempts.value else base.security.maxAuthAttempts)
      && m.security.lockoutDuration == (if doc.security.lockoutDuration.GetOr(0) != 0 then doc.security.lockoutDuration.value else base.security.lockoutDuration)
  {
  }

  /** Every number and string of `c` is set, so none of them reads as "unset" to the merge. */
  predicate AllScalarsSet(c: Config) {
    && c.service.timeout != 0 && c.service.retryAttempts != 0 && c.service.socketPath != ""
    && c.logging.level != "" && c.logging.format != ""
    && c.audio.volume != 0 && c.audio.customSoundSuccess != "" && c.audio.customSoundFailure != ""
    && c.security.matchThreshold != 0.0 && c.security.maxAuthAttempts != 0 && c.security.lockoutDuration != 0
  }

  /**
   * A file that writes out every key of `c`, loaded as an overlay and
   * merged over any base, gives `c` back when all of its numbers and
   * strings are set.
   */
  lemma OverlayRoundTrip(base: Config, c: Config)
    requires AllScalarsSet(c)
    ensures Merged(base, DecodeOnto(EncodeDocument(c), ZeroConfig())) == c
  {
    DecodeEncodeRoundTrip(c, ZeroConfig());
  }

  /**
   * An explicit zero in an overlay file is indistinguishable from a
   * missing key: `audio.volume: 0`, valid on its own, leaves the base's
   * volume in place.
   */
  lemma ExplicitZeroVolumeIgnored(base: Config, c: Config)
    requires c.audio.volume == 0
    ensures Merged(base, DecodeOnto(EncodeDocument(c), ZeroConfig())).audio.volume == base.audio.volume
  {
    DecodeEncodeRoundTrip(c, ZeroConfig());
  }
}

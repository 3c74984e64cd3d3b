/**
 * A configuration file after parsing, abstracted from its YAML text: for
 * each key of the document, the value it sets or `None` when the key is
 * absent. Decoding a document onto a destination configuration sets the
 * keys the document has and leaves every other field as it was.
 */
module ConfigDocument {
  import opened Wrappers
  import opened ConfigSchema

  datatype ServiceDoc = ServiceDoc(
    timeout: Option<int>,          // service.timeout
    retryAttempts: Option<int>,    // service.retry_attempts
    socketPath: Option<string>)    // service.socket_path

  datatype LoggingDoc = LoggingDoc(
    level: Option<string>,         // logging.level
    format: Option<string>)        // logging.format

  datatype AudioDoc = AudioDoc(
    enabled: Option<bool>,                // audio.enabled
    volume: Option<int>,                  // audio.volume
    customSoundSuccess: Option<string>,   // audio.custom_sound_success
    customSoundFailure: Option<string>)   // audio.custom_sound_failure

  datatype SecurityDoc = SecurityDoc(
    livenessRequired: Option<bool>,       // security.liveness_required
    matchThreshold: Option<real>,         // security.match_threshold
    maxAuthAttempts: Option<int>,         // security.max_auth_attempts
    lockoutDuration: Option<int>)         // security.lockout_duration

  datatype Document = Document(
    service: ServiceDoc,
    logging: LoggingDoc,
    audio: AudioDoc,
    security: SecurityDoc)

  /** A document that sets no key at all. */
  function EmptyDocument(): Document {
    Document(
      ServiceDoc(None, None, None),
      LoggingDoc(None, None),
      AudioDoc(None, None, None, None),
      SecurityDoc(None, None, None, None))
  }

  /** Decoding `doc` into the existing configuration `dest`. */
  function DecodeOnto(doc: Document, dest: Config): (r: Config)
    ensures doc == EmptyDocument() ==> r == dest
  {
    Config(
      ServiceConfig(
        doc.service.timeout.GetOr(dest.service.timeout),
        doc.service.retryAttempts.GetOr(dest.service.retryAttempts),
        doc.service.socketPath.GetOr(dest.service.socketPath)),
      LoggingConfig(
        doc.logging.level.GetOr(dest.logging.level),
        doc.logging.format.GetOr(dest.logging.format)),
      AudioConfig(
        doc.audio.enabled.GetOr(dest.audio.enabled),
        doc.audio.volume.GetOr(dest.audio.volume),
        doc.audio.customSoundSuccess.GetOr(dest.audio.customSoundSuccess),
        doc.audio.customSoundFailure.GetOr(dest.audio.customSoundFailure)),
      SecurityConfig(
        doc.security.livenessRequired.GetOr(dest.security.livenessRequired),
        doc.security.matchThreshold.GetOr(dest.security.matchThreshold),
        doc.security.maxAuthAttempts.GetOr(dest.security.maxAuthAttempts),
        doc.security.lockoutDuration.GetOr(dest.security.lockoutDuration)))
  }

  /** Decoding the same document twice is decoding it once. */
  lemma DecodeOntoLaws(doc: Document, dest: Config)
    ensures DecodeOnto(doc, DecodeOnto(doc, dest)) == DecodeOnto(doc, dest)
  {
  }

  /** The document a file would hold if it wrote out every key of `c`. */
  function EncodeDocument(c: Config): Document {
    Document(
      ServiceDoc(Some(c.service.timeout), Some(c.service.retryAttempts), Some(c.service.socketPath)),
      LoggingDoc(Some(c.logging.level), Some(c.logging.format)),
      AudioDoc(Some(c.audio.enabled), Some(c.audio.volume), Some(c.audio.customSoundSuccess), Some(c.audio.customSoundFailure)),
      SecurityDoc(Some(c.security.livenessRequired), Some(c.security.matchThreshold),
                  Some(c.security.maxAuthAttempts), Some(c.security.lockoutDuration)))
  }

  /** Decoding a document that writes out every key of `c` gives `c`, whatever the destination held. */
  lemma DecodeEncodeRoundTrip(c: Config, dest: Config)
    ensures DecodeOnto(EncodeDocument(c), dest) == c
  {
  }
}

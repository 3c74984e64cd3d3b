/**
 * The loader: `Load` layers the defaults, the optional system file and the
 * optional user file and validates the result; `LoadFromPath` decodes one
 * explicit file onto the defaults and validates it. The filesystem is a
 * parameter `fs` that tells, for each path, whether `os.Stat` fails on it,
 * whether reading it fails, whether its YAML is malformed, or which
 * document it holds.
 */
module ConfigLoad {
  import opened Wrappers
  import opened ConfigSchema
  import opened ConfigDocument
  import opened ConfigMerge
  import opened ConfigValidate
  import opened ValidationLaws
  import opened ConfigPaths
  import opened FilePath

  /** What the filesystem holds at one path. */
  datatype FileState =
    | Absent                 // os.Stat fails: the file is skipped by Load
    | Unreadable             // os.Stat succeeds, os.ReadFile fails
    | Malformed              // the file reads, yaml.Unmarshal fails
    | Present(doc: Document) // the file reads and parses to `doc`

  /** `os.Stat(path)` succeeds. */
  predicate StatSucceeds(fs: string -> FileState, path: string) {
    !fs(path).Absent?
  }

  /** File existence as the validator asks it of the sound paths. */
  function ExistsOn(fs: string -> FileState): string -> bool {
    path => StatSucceeds(fs, path)
  }

  datatype FileError = ReadFailed | ParseFailed

  /** Why loading stopped; `ValidationFailed` carries every violation, in program order. */
  datatype LoadError =
    | SystemFileError(fileError: FileError)
    | UserPathError(pathError: PathError)
    | UserFileError(fileError: FileError)
    | ExplicitPathError(pathError: PathError)
    | ExplicitFileError(fileError: FileError)
    | ValidationFailed(violations: seq<Check>)

  /**
   * `loadFromPath`: read the file and decode it onto `dest`. A missing or
   * unreadable file is a read error, bad YAML a parse error.
   */
  function ReadConfig(fs: string -> FileState, path: string, dest: Config): (r: Result<Config, FileError>)
    ensures r.Ok? <==> fs(path).Present?
    ensures r == Err(ParseFailed) <==> fs(path).Malformed?
    ensures r.Ok? ==> r.value == DecodeOnto(fs(path).doc, dest)
  {
    match fs(path)
    case Absent => Err(ReadFailed)
    case Unreadable => Err(ReadFailed)
    case Malformed => Err(ParseFailed)
    case Present(doc) => Ok(DecodeOnto(doc, dest))
  }

  /**
   * The overlay a file contributes to `Load`, decoded into a fresh zero
   * configuration; `None` when the file is skipped.
   */
  function Overlay(fs: string -> FileState, path: string): Option<Config> {
    if fs(path).Present? then Some(DecodeOnto(fs(path).doc, ZeroConfig())) else None
  }

  /**
   * One optional layer of `Load`: a file that does not exist leaves `cfg`
   * alone; one that exists must read and parse, and is then merged over
   * `cfg`.
   */
  function ApplyLayer(cfg: Config, fs: string -> FileState, path: string): (r: Result<Config, FileError>)
    ensures fs(path).Absent? ==> r == Ok(cfg)
    ensures fs(path).Present? ==> r == Ok(Merged(cfg, Overlay(fs, path).value))
    ensures fs(path).Unreadable? ==> r == Err(ReadFailed)
    ensures fs(path).Malformed? ==> r == Err(ParseFailed)
  {
    if StatSucceeds(fs, path) then
      match ReadConfig(fs, path, ZeroConfig())
      case Err(e) => Err(e)
      case Ok(overlay) => Ok(Merged(cfg, overlay))
    else
      Ok(cfg)
  }

  /** The validation gate: the configuration itself, or every violation it has. */
  function Validated(c: Config, fs: string -> FileState): (r: Result<Config, LoadError>)
    ensures r.Ok? <==> SatisfiesAllChecks(c, ExistsOn(fs))
    ensures r.Ok? ==> r.value == c
    ensures r.Err? ==> r.error == ValidationFailed(Violations(c, ExistsOn(fs))) && r.error.violations != []
  {
    ValidIffNoViolations(c, ExistsOn(fs));
    var v := Violations(c, ExistsOn(fs));
    if v == [] then Ok(c) else Err(ValidationFailed(v))
  }

  /** Where `Load` looks for the user file: `expandPath(filepath.Join("~", userConfigRelPath))`. */
  function UserConfigPath(home: Option<string>, env: map<string, string>): (r: Result<string, PathError>)
    ensures r.Err? <==> home.None?
  {
    UserConfigPathUnexpanded();
    ExpandPath(Join("~", UserConfigRelPath), home, env)
  }

  /**
   * What `Load` returns, starting from `defaults`: the system layer, then
   * the user path, then the user layer, then validation; the first error
   * ends the pipeline.
   */
  function LoadOutcome(defaults: Config, fs: string -> FileState, home: Option<string>, env: map<string, string>): Result<Config, LoadError> {
    match ApplyLayer(defaults, fs, SystemConfigPath)
    case Err(e) => Err(SystemFileError(e))
    case Ok(afterSystem) =>
      match UserConfigPath(home, env)
      case Err(e) => Err(UserPathError(e))
      case Ok(userPath) =>
        match ApplyLayer(afterSystem, fs, userPath)
        case Err(e) => Err(UserFileError(e))
        case Ok(merged) => Validated(merged, fs)
  }

  /** `Load`, stage by stage, reassigning `cfg` as the program does. */
  method Load(fs: string -> FileState, home: Option<string>, env: map<string, string>) returns (r: Result<Config, LoadError>)
    ensures r == LoadOutcome(DefaultConfig(), fs, home, env)
  {
    var cfg := DefaultConfig();
    if StatSucceeds(fs, SystemConfigPath) {
      var systemCfg := ReadConfig(fs, SystemConfigPath, ZeroConfig());
      if systemCfg.Err? {
        return Err(SystemFileError(systemCfg.error));
      }
      cfg := MergeConfigs(cfg, systemCfg.value);
    }
    var userPath := UserConfigPath(home, env);
    if userPath.Err? {
      return Err(UserPathError(userPath.error));
    }
    if StatSucceeds(fs, userPath.value) {
      var userCfg := ReadConfig(fs, userPath.value, ZeroConfig());
      if userCfg.Err? {
        return Err(UserFileError(userCfg.error));
      }
      cfg := MergeConfigs(cfg, userCfg.value);
    }
    var errs := Validate(cfg, ExistsOn(fs));
    if errs != [] {
      return Err(ValidationFailed(errs));
    }
    ValidIffNoViolations(cfg, ExistsOn(fs));
    return Ok(cfg);
  }

  /**
   * What `LoadFromPath` returns, starting from `defaults`: expand the path,
   * decode the file directly onto the defaults (there is no existence
   * test, so a missing file is an error), then validate.
   */
  function LoadFromPathOutcome(defaults: Config, path: string, fs: string -> FileState, home: Option<string>, env: map<string, string>): Result<Config, LoadError> {
    match ExpandPath(path, home, env)
    case Err(e) => Err(ExplicitPathError(e))
    case Ok(expanded) =>
      match ReadConfig(fs, expanded, defaults)
      case Err(e) => Err(ExplicitFileError(e))
      case Ok(cfg) => Validated(cfg, fs)
  }

  /** `LoadFromPath`, stage by stage. */
  method LoadFromPath(path: string, fs: string -> FileState, home: Option<string>, env: map<string, string>) returns (r: Result<Config, LoadError>)
    ensures r == LoadFromPathOutcome(DefaultConfig(), path, fs, home, env)
  {
    var cfg := DefaultConfig();
    var expandedPath := ExpandPath(path, home, env);
    if expandedPath.Err? {
      return Err(ExplicitPathError(expandedPath.error));
    }
    var loaded := ReadConfig(fs, expandedPath.value, cfg);
    if loaded.Err? {
      return Err(ExplicitFileError(loaded.error));
    }
    cfg := loaded.value;
    var errs := Validate(cfg, ExistsOn(fs));
    if errs != [] {
      return Err(ValidationFailed(errs));
    }
    ValidIffNoViolations(cfg, ExistsOn(fs));
    return Ok(cfg);
  }
}

/** What the two loaders promise, stated over their outcome functions. */
module LoadLaws {
  import opened Wrappers
  import opened ConfigSchema
  import opened ConfigDocument
  import opened ConfigMerge
  import opened ConfigValidate
  import opened ValidationLaws
  import opened ConfigPaths
  import opened ConfigLoad
  import opened FilePath
  import opened Ascii

  /** Whatever `Load` returns as a configuration passes every check. */
  lemma LoadSucceedsOnlyWhenValid(defaults: Config, path: string, fs: string -> FileState, home: Option<string>, env: map<string, string>)
    ensures LoadOutcome(defaults, fs, home, env).Ok? ==> SatisfiesAllChecks(LoadOutcome(defaults, fs, home, env).value, ExistsOn(fs))
    ensures LoadFromPathOutcome(defaults, path, fs, home, env).Ok? ==>
      SatisfiesAllChecks(LoadFromPathOutcome(defaults, path, fs, home, env).value, ExistsOn(fs))
  {
  }

  /** A system file that exists but cannot be read or parsed aborts `Load`, whatever else holds. */
  lemma SystemFileFailureAborts(defaults: Config, fs: string -> FileState, home: Option<string>, env: map<string, string>)
    requires fs(SystemConfigPath).Unreadable? || fs(SystemConfigPath).Malformed?
    ensures LoadOutcome(defaults, fs, home, env).Err? && LoadOutcome(defaults, fs, home, env).error.SystemFileError?
    ensures LoadOutcome(defaults, fs, home, env).error.fileError == (if fs(SystemConfigPath).Malformed? then ParseFailed else ReadFailed)
  {
  }

  /**
   * Once the system file has not failed, a user file that exists but
   * cannot be read or parsed aborts `Load` with that error.
   */
  lemma UserFileFailureAborts(defaults: Config, fs: string -> FileState, home: Option<string>, env: map<string, string>, userPath: string)
    requires fs(SystemConfigPath).Absent? || fs(SystemConfigPath).Present?
    requires UserConfigPath(home, env) == Ok(userPath)
    requires fs(userPath).Unreadable? || fs(userPath).Malformed?
    ensures LoadOutcome(defaults, fs, home, env)
         == Err(UserFileError(if fs(userPath).Malformed? then ParseFailed else ReadFailed))
  {
  }

  /**
   * Without a home directory `Load` fails on the user path, even when no
   * user file would have been read, unless the system file failed first.
   */
  lemma HomeUnknownAborts(defaults: Config, fs: string -> FileState, env: map<string, string>)
    requires fs(SystemConfigPath).Absent? || fs(SystemConfigPath).Present?
    ensures LoadOutcome(defaults, fs, None, env) == Err(UserPathError(HomeDirUnknown))
  {
    UserConfigPathUnexpanded();
    assert StartsWithTilde(Join("~", UserConfigRelPath));
  }

  /**
   * The layering: once both files are read, `Load` validates the defaults
   * with the system overlay merged over them and the user overlay merged
   * over that, which is the defaults with one merged overlay of the two.
   */
  lemma LoadLayers(defaults: Config, fs: string -> FileState, home: Option<string>, env: map<string, string>, userPath: string)
    requires fs(SystemConfigPath).Present?
    requires UserConfigPath(home, env) == Ok(userPath) && fs(userPath).Present?
    ensures var sys, user := Overlay(fs, SystemConfigPath).value, Overlay(fs, userPath).value;
      && LoadOutcome(defaults, fs, home, env) == Validated(Merged(Merged(defaults, sys), user), fs)
      && LoadOutcome(defaults, fs, home, env) == Validated(Merged(defaults, Merged(sys, user)), fs)
  {
    MergeAssociative(defaults, Overlay(fs, SystemConfigPath).value, Overlay(fs, userPath).value);
  }

  /** Files that do not exist are skipped: the outcome is the defaults, validated. */
  lemma MissingFilesSkipped(defaults: Config, fs: string -> FileState, home: Option<string>, env: map<string, string>, userPath: string)
    requires fs(SystemConfigPath).Absent?
    requires UserConfigPath(home, env) == Ok(userPath) && fs(userPath).Absent?
    ensures LoadOutcome(defaults, fs, home, env) == Validated(defaults, fs)
  {
  }

  /**
   * With no file anywhere, `Load` as shipped fails with the one log-format
   * violation; with the "text" default it returns the defaults.
   */
  lemma LoadWithoutFiles(fs: string -> FileState, home: string, env: map<string, string>)
    requires forall p :: fs(p).Absent?
    ensures LoadOutcome(DefaultConfig(), fs, Some(home), env) == Err(ValidationFailed([LogFormatUnknown]))
    ensures LoadOutcome(IntendedDefaultConfig(), fs, Some(home), env) == Ok(IntendedDefaultConfig())
  {
    var userPath := UserConfigPath(Some(home), env);
    UserConfigPathUnexpanded();
    assert StartsWithTilde(Join("~", UserConfigRelPath));
    assert userPath.Ok?;
    MissingFilesSkipped(DefaultConfig(), fs, Some(home), env, userPath.value);
    MissingFilesSkipped(IntendedDefaultConfig(), fs, Some(home), env, userPath.value);
    DefaultConfigViolations(ExistsOn(fs));
    IntendedDefaultsValid(ExistsOn(fs));
  }

  /**
   * A user file that leaves out `audio.enabled` or
   * `security.liveness_required` switches that flag off, even though the
   * defaults and the system file have it on.
   */
  lemma OmittedFlagSwitchesOff(defaults: Config, fs: string -> FileState, home: Option<string>, env: map<string, string>, userPath: string)
    requires UserConfigPath(home, env) == Ok(userPath) && fs(userPath).Present?
    ensures LoadOutcome(defaults, fs, home, env).Ok? && fs(userPath).doc.audio.enabled.None? ==>
      !LoadOutcome(defaults, fs, home, env).value.audio.enabled
    ensures LoadOutcome(defaults, fs, home, env).Ok? && fs(userPath).doc.security.livenessRequired.None? ==>
      !LoadOutcome(defaults, fs, home, env).value.security.livenessRequired
  {
    if LoadOutcome(defaults, fs, home, env).Ok? {
      var afterSystem := ApplyLayer(defaults, fs, SystemConfigPath).value;
      MergeDocumentOverlay(afterSystem, fs(userPath).doc);
    }
  }

  /**
   * `LoadFromPath` does not skip a missing file: it reports a read error.
   * A file that is there keeps every default it does not mention,
   * the flags included.
   */
  lemma LoadFromPathDecodesOntoDefaults(defaults: Config, path: string, fs: string -> FileState, home: Option<string>, env: map<string, string>, expanded: string)
    requires ExpandPath(path, home, env) == Ok(expanded)
    ensures fs(expanded).Absent? ==> LoadFromPathOutcome(defaults, path, fs, home, env) == Err(ExplicitFileError(ReadFailed))
    ensures fs(expanded).Present? ==>
      LoadFromPathOutcome(defaults, path, fs, home, env) == Validated(DecodeOnto(fs(expanded).doc, defaults), fs)
    ensures fs(expanded).Present? && fs(expanded).doc == EmptyDocument() ==>
      LoadFromPathOutcome(defaults, path, fs, home, env) == Validated(defaults, fs)
  {
    DecodeOntoLaws(EmptyDocument(), defaults);
  }

  /** A file that sets `security.match_threshold: 1.5` and nothing else. */
  function ThresholdOnlyDocument(): (doc: Document)
    ensures doc.security.matchThreshold == Some(1.5)
    ensures doc.(security := doc.security.(matchThreshold := None)) == EmptyDocument()
  {
    EmptyDocument().(security := EmptyDocument().security.(matchThreshold := Some(1.5)))
  }

  /**
   * `LoadFromPath` on a file that only sets `match_threshold: 1.5`: as
   * shipped, the log-format default fails too, ahead of the threshold.
   */
  lemma LoadFromPathThresholdAsShipped(path: string, fs: string -> FileState, home: Option<string>, env: map<string, string>, expanded: string)
    requires ExpandPath(path, home, env) == Ok(expanded) && fs(expanded) == Present(ThresholdOnlyDocument())
    ensures LoadFromPathOutcome(DefaultConfig(), path, fs, home, env)
         == Err(ValidationFailed([LogFormatUnknown, MatchThresholdRange]))
  {
    var d := DefaultConfig();
    var c := DecodeOnto(ThresholdOnlyDocument(), d);
    assert c == d.(security := d.security.(matchThreshold := 1.5));
    ThresholdAndFormatFail(c, ExistsOn(fs));
  }

  /** With the "text" default, the same file fails on the threshold alone. */
  lemma LoadFromPathThresholdIntended(path: string, fs: string -> FileState, home: Option<string>, env: map<string, string>, expanded: string)
    requires ExpandPath(path, home, env) == Ok(expanded) && fs(expanded) == Present(ThresholdOnlyDocument())
    ensures LoadFromPathOutcome(IntendedDefaultConfig(), path, fs, home, env)
         == Err(ValidationFailed([MatchThresholdRange]))
  {
    var d := IntendedDefaultConfig();
    var c := DecodeOnto(ThresholdOnlyDocument(), d);
    assert c == d.(security := d.security.(matchThreshold := 1.5));
    ThresholdAloneFails(c, ExistsOn(fs));
  }

  /**
   * A system file that only sets `match_threshold: 1.5`: with the "text"
   * default the sole violation is the threshold.
   */
  lemma ThresholdOutOfRange(fs: string -> FileState, home: Option<string>, env: map<string, string>, userPath: string)
    requires fs(SystemConfigPath) == Present(ThresholdOnlyDocument())
    requires UserConfigPath(home, env) == Ok(userPath) && fs(userPath).Absent?
    ensures LoadOutcome(IntendedDefaultConfig(), fs, home, env) == Err(ValidationFailed([MatchThresholdRange]))
  {
    var d := IntendedDefaultConfig();
    var m := Merged(d, Overlay(fs, SystemConfigPath).value);
    MergeDocumentOverlay(d, fs(SystemConfigPath).doc);
    assert m == d.(audio := d.audio.(enabled := false),
                   security := d.security.(livenessRequired := false, matchThreshold := 1.5));
    assert LoadOutcome(d, fs, home, env) == Validated(m, fs);
    ThresholdAloneFails(m, ExistsOn(fs));
  }
}

/**
 * The validator. Every check is made, none short-circuits another, and
 * each failing one contributes its tag to the report, in program order.
 * Whether a file exists is asked of `fileExists`, which stands for
 * `os.Stat` succeeding.
 */
module ConfigValidate {
  import opened ConfigSchema
  import opened Ascii
  import opened FilePath

  /** One tag per check, each naming the field it is about. */
  datatype Check =
    | TimeoutRange            // timeout must be between 1 and 60 seconds
    | RetryAttemptsRange      // retry_attempts must be between 1 and 10
    | SocketPathEmpty         // socket_path must not be empty
    | SocketPathRelative      // socket_path must be an absolute path
    | LogLevelUnknown         // log_level must be DEBUG, INFO, WARN, or ERROR
    | LogFormatUnknown        // log_format must be 'json' or 'text'
    | VolumeRange             // audio_volume must be between 0 and 100
    | SuccessSoundMissing     // custom_sound_success file not found
    | FailureSoundMissing     // custom_sound_failure file not found
    | MatchThresholdRange     // match_threshold must be between 0.0 and 1.0
    | MaxAuthAttemptsRange    // max_auth_attempts must be between 1 and 20
    | LockoutDurationRange    // lockout_duration must be between 0 and 3600

  const ServiceChecks: seq<Check> := [TimeoutRange, RetryAttemptsRange, SocketPathEmpty, SocketPathRelative]
  const LoggingChecks: seq<Check> := [LogLevelUnknown, LogFormatUnknown]
  const AudioChecks: seq<Check> := [VolumeRange, SuccessSoundMissing, FailureSoundMissing]
  const SecurityChecks: seq<Check> := [MatchThresholdRange, MaxAuthAttemptsRange, LockoutDurationRange]

  /** All checks, in the order the validator makes them. */
  const CheckOrder: seq<Check> := ServiceChecks + LoggingChecks + AudioChecks + SecurityChecks

  /** The position of a check in `CheckOrder`. */
  function Rank(k: Check): nat {
    match k
    case TimeoutRange => 0
    case RetryAttemptsRange => 1
    case SocketPathEmpty => 2
    case SocketPathRelative => 3
    case LogLevelUnknown => 4
    case LogFormatUnknown => 5
    case VolumeRange => 6
    case SuccessSoundMissing => 7
    case FailureSoundMissing => 8
    case MatchThresholdRange => 9
    case MaxAuthAttemptsRange => 10
    case LockoutDurationRange => 11
  }

  const LogLevels: set<string> := {"DEBUG", "INFO", "WARN", "ERROR"}
  const LogFormats: set<string> := {"json", "text"}

  /** When check `k` fails on `c`, stated as the range or membership it enforces. */
  predicate Fails(k: Check, c: Config, fileExists: string -> bool) {
    match k
    case TimeoutRange => !(1 <= c.service.timeout <= 60)
    case RetryAttemptsRange => !(1 <= c.service.retryAttempts <= 10)
    case SocketPathEmpty => c.service.socketPath == ""
    case SocketPathRelative => c.service.socketPath != "" && !IsAbs(c.service.socketPath)
    case LogLevelUnknown => ToUpper(c.logging.level) !in LogLevels
    case LogFormatUnknown => ToLower(c.logging.format) !in LogFormats
    case VolumeRange => !(0 <= c.audio.volume <= 100)
    case SuccessSoundMissing => c.audio.customSoundSuccess != "" && !fileExists(c.audio.customSoundSuccess)
    case FailureSoundMissing => c.audio.customSoundFailure != "" && !fileExists(c.audio.customSoundFailure)
    case MatchThresholdRange => !(0.0 <= c.security.matchThreshold <= 1.0)
    case MaxAuthAttemptsRange => !(1 <= c.security.maxAuthAttempts <= 20)
    case LockoutDurationRange => !(0 <= c.security.lockoutDuration <= 3600)
  }

  /** What check `k` adds to the report: its tag when it fails, nothing otherwise. */
  function Outcome(k: Check, c: Config, fileExists: string -> bool): seq<Check> {
    if Fails(k, c, fileExists) then [k] else []
  }

  /** The checks of `ks` that fail on `c`, in the order of `ks`. */
  function FailingIn(ks: seq<Check>, c: Config, fileExists: string -> bool): seq<Check> {
    if ks == [] then [] else Outcome(ks[0], c, fileExists) + FailingIn(ks[1..], c, fileExists)
  }

  /** The report `Validate` produces: every failing check, in program order. */
  function Violations(c: Config, fileExists: string -> bool): seq<Check> {
    FailingIn(CheckOrder, c, fileExists)
  }

  /** Every constraint on a configuration, as a conjunction. */
  predicate SatisfiesAllChecks(c: Config, fileExists: string -> bool) {
    && 1 <= c.service.timeout <= 60
    && 1 <= c.service.retryAttempts <= 10
    && c.service.socketPath != "" && IsAbs(c.service.socketPath)
    && ToUpper(c.logging.level) in LogLevels
    && ToLower(c.logging.format) in LogFormats
    && 0 <= c.audio.volume <= 100
    && (c.audio.customSoundSuccess == "" || fileExists(c.audio.customSoundSuccess))
    && (c.audio.customSoundFailure == "" || fileExists(c.audio.customSoundFailure))
    && 0.0 <= c.security.matchThreshold <= 1.0
    && 1 <= c.security.maxAuthAttempts <= 20
    && 0 <= c.security.lockoutDuration <= 3600
  }

  /**
   * `Validate`: start from an empty list and append a tag for each check
   * that fails, section by section. An empty result is the program's nil.
   */
  method Validate(c: Config, fileExists: string -> bool) returns (errs: seq<Check>)
    ensures errs == Violations(c, fileExists)
  {
    errs := [];
    errs := ValidateService(c, fileExists, errs);
    errs := ValidateLogging(c, fileExists, errs);
    errs := ValidateAudio(c, fileExists, errs);
    errs := ValidateSecurity(c, fileExists, errs);
    FailingInAppend(ServiceChecks, LoggingChecks, c, fileExists);
    FailingInAppend(ServiceChecks + LoggingChecks, AudioChecks, c, fileExists);
    FailingInAppend(ServiceChecks + LoggingChecks + AudioChecks, SecurityChecks, c, fileExists);
  }

  /** The service checks; the two socket-path checks exclude each other. */
  method ValidateService(c: Config, fileExists: string -> bool, errs: seq<Check>) returns (out: seq<Check>)
    ensures out == errs + FailingIn(ServiceChecks, c, fileExists)
  {
    out := errs;
    if c.service.timeout <= 0 || c.service.timeout > 60 {
      out := out + [TimeoutRange];
    }
    assert out == errs + Outcome(TimeoutRange, c, fileExists);
    if c.service.retryAttempts < 1 || c.service.retryAttempts > 10 {
      out := out + [RetryAttemptsRange];
    }
    assert out == errs + Outcome(TimeoutRange, c, fileExists) + Outcome(RetryAttemptsRange, c, fileExists);
    if c.service.socketPath == "" {
      out := out + [SocketPathEmpty];
    } else if !IsAbs(c.service.socketPath) {
      out := out + [SocketPathRelative];
    }
    ServiceFailing(c, fileExists);
  }

  /** The logging checks: case-insensitive membership in the two enumerations. */
  method ValidateLogging(c: Config, fileExists: string -> bool, errs: seq<Check>) returns (out: seq<Check>)
    ensures out == errs + FailingIn(LoggingChecks, c, fileExists)
  {
    out := errs;
    if ToUpper(c.logging.level) !in LogLevels {
      out := out + [LogLevelUnknown];
    }
    assert out == errs + Outcome(LogLevelUnknown, c, fileExists);
    if ToLower(c.logging.format) !in LogFormats {
      out := out + [LogFormatUnknown];
    }
    LoggingFailing(c, fileExists);
  }

  /** The audio checks; a custom sound path is only looked up when it is set. */
  method ValidateAudio(c: Config, fileExists: string -> bool, errs: seq<Check>) returns (out: seq<Check>)
    ensures out == errs + FailingIn(AudioChecks, c, fileExists)
  {
    out := errs;
    if c.audio.volume < 0 || c.audio.volume > 100 {
      out := out + [VolumeRange];
    }
    assert out == errs + Outcome(VolumeRange, c, fileExists);
    if c.audio.customSoundSuccess != "" {
      if !fileExists(c.audio.customSoundSuccess) {
        out := out + [SuccessSoundMissing];
      }
    }
    assert out == errs + Outcome(VolumeRange, c, fileExists) + Outcome(SuccessSoundMissing, c, fileExists);
    if c.audio.customSoundFailure != "" {
      if !fileExists(c.audio.customSoundFailure) {
        out := out + [FailureSoundMissing];
      }
    }
    AudioFailing(c, fileExists);
  }

  /** The security checks. */
  method ValidateSecurity(c: Config, fileExists: string -> bool, errs: seq<Check>) returns (out: seq<Check>)
    ensures out == errs + FailingIn(SecurityChecks, c, fileExists)
  {
    out := errs;
    if c.security.matchThreshold < 0.0 || c.security.matchThreshold > 1.0 {
      out := out + [MatchThresholdRange];
    }
    assert out == errs + Outcome(MatchThresholdRange, c, fileExists);
    if c.security.maxAuthAttempts < 1 || c.security.maxAuthAttempts > 20 {
      out := out + [MaxAuthAttemptsRange];
    }
    assert out == errs + Outcome(MatchThresholdRange, c, fileExists) + Outcome(MaxAuthAttemptsRange, c, fileExists);
    if c.security.lockoutDuration < 0 || c.security.lockoutDuration > 3600 {
      out := out + [LockoutDurationRange];
    }
    SecurityFailing(c, fileExists);
  }

  lemma ServiceFailing(c: Config, fileExists: string -> bool)
    ensures FailingIn(ServiceChecks, c, fileExists)
         == Outcome(TimeoutRange, c, fileExists) + Outcome(RetryAttemptsRange, c, fileExists)
          + Outcome(SocketPathEmpty, c, fileExists) + Outcome(SocketPathRelative, c, fileExists)
  {
    var ks := ServiceChecks;
    assert FailingIn(ks[3..], c, fileExists) == Outcome(SocketPathRelative, c, fileExists) + FailingIn([], c, fileExists);
    assert FailingIn(ks[2..], c, fileExists) == Outcome(SocketPathEmpty, c, fileExists) + FailingIn(ks[3..], c, fileExists);
    assert FailingIn(ks[1..], c, fileExists) == Outcome(RetryAttemptsRange, c, fileExists) + FailingIn(ks[2..], c, fileExists);
  }

  lemma LoggingFailing(c: Config, fileExists: string -> bool)
    ensures FailingIn(LoggingChecks, c, fileExists)
         == Outcome(LogLevelUnknown, c, fileExists) + Outcome(LogFormatUnknown, c, fileExists)
  {
    var ks := LoggingChecks;
    assert FailingIn(ks[1..], c, fileExists) == Outcome(LogFormatUnknown, c, fileExists) + FailingIn([], c, fileExists);
  }

  lemma AudioFailing(c: Config, fileExists: string -> bool)
    ensures FailingIn(AudioChecks, c, fileExists)
         == Outcome(VolumeRange, c, fileExists) + Outcome(SuccessSoundMissing, c, fileExists)
          + Outcome(FailureSoundMissing, c, fileExists)
  {
    var ks := AudioChecks;
    assert FailingIn(ks[2..], c, fileExists) == Outcome(FailureSoundMissing, c, fileExists) + FailingIn([], c, fileExists);
    assert FailingIn(ks[1..], c, fileExists) == Outcome(SuccessSoundMissing, c, fileExists) + FailingIn(ks[2..], c, fileExists);
  }

  lemma SecurityFailing(c: Config, fileExists: string -> bool)
    ensures FailingIn(SecurityChecks, c, fileExists)
         == Outcome(MatchThresholdRange, c, fileExists) + Outcome(MaxAuthAttemptsRange, c, fileExists)
          + Outcome(LockoutDurationRange, c, fileExists)
  {
    var ks := SecurityChecks;
    assert FailingIn(ks[2..], c, fileExists) == Outcome(LockoutDurationRange, c, fileExists) + FailingIn([], c, fileExists);
    assert FailingIn(ks[1..], c, fileExists) == Outcome(MaxAuthAttemptsRange, c, fileExists) + FailingIn(ks[2..], c, fileExists);
  }

  /** Filtering a concatenation is concatenating the filtered parts. */
  lemma {:induction false} FailingInAppend(ks: seq<Check>, ls: seq<Check>, c: Config, fileExists: string -> bool)
    ensures FailingIn(ks + ls, c, fileExists) == FailingIn(ks, c, fileExists) + FailingIn(ls, c, fileExists)
  {
    if ks == [] {
      assert ks + ls == ls;
    } else {
      assert (ks + ls)[0] == ks[0] && (ks + ls)[1..] == ks[1..] + ls;
      FailingInAppend(ks[1..], ls, c, fileExists);
    }
  }
}

/** What the validator's report means. */
module ValidationLaws {
  import opened ConfigSchema
  import opened Ascii
  import opened FilePath
  import opened ConfigValidate

  /** Ranks strictly increase along `ks`: the checks appear in program order, each at most once. */
  predicate InProgramOrder(ks: seq<Check>) {
    forall i, j :: 0 <= i < j < |ks| ==> Rank(ks[i]) < Rank(ks[j])
  }

  /** The check order lists every check exactly once, at its rank. */
  lemma CheckOrderComplete(k: Check)
    ensures |CheckOrder| == 12 && CheckOrder[Rank(k)] == k
    ensures InProgramOrder(CheckOrder)
  {
    assert CheckOrder == [TimeoutRange, RetryAttemptsRange, SocketPathEmpty, SocketPathRelative,
                          LogLevelUnknown, LogFormatUnknown, VolumeRange, SuccessSoundMissing,
                          FailureSoundMissing, MatchThresholdRange, MaxAuthAttemptsRange, LockoutDurationRange];
    forall i | 0 <= i < |CheckOrder| ensures Rank(CheckOrder[i]) == i {
    }
  }

  /** A check is in the filtered list exactly when it is in `ks` and fails. */
  lemma {:induction false} FailingInMembers(ks: seq<Check>, c: Config, fileExists: string -> bool)
    ensures forall k :: k in FailingIn(ks, c, fileExists) <==> k in ks && Fails(k, c, fileExists)
  {
    if ks != [] {
      FailingInMembers(ks[1..], c, fileExists);
      assert forall k :: k in ks <==> k == ks[0] || k in ks[1..];
    }
  }

  /** Filtering keeps the order of the list it filters. */
  lemma {:induction false} FailingInKeepsOrder(ks: seq<Check>, c: Config, fileExists: string -> bool)
    requires InProgramOrder(ks)
    ensures InProgramOrder(FailingIn(ks, c, fileExists))
  {
    if ks != [] {
      var rest := FailingIn(ks[1..], c, fileExists);
      FailingInKeepsOrder(ks[1..], c, fileExists);
      FailingInMembers(ks[1..], c, fileExists);
      forall k | k in rest ensures Rank(ks[0]) < Rank(k) {
        var j :| 0 <= j < |ks[1..]| && ks[1..][j] == k;
        assert ks[j + 1] == k;
      }
      var out := Outcome(ks[0], c, fileExists) + rest;
      forall i, j | 0 <= i < j < |out| ensures Rank(out[i]) < Rank(out[j]) {
        if Fails(ks[0], c, fileExists) && i == 0 {
          assert out[j] in rest;
        }
      }
    }
  }

  /**
   * The report holds exactly the checks that fail, each once, in program
   * order.
   */
  lemma ViolationsExact(c: Config, fileExists: string -> bool)
    ensures forall k :: k in Violations(c, fileExists) <==> Fails(k, c, fileExists)
    ensures InProgramOrder(Violations(c, fileExists))
  {
    FailingInMembers(CheckOrder, c, fileExists);
    forall k ensures k in CheckOrder {
      CheckOrderComplete(k);
    }
    CheckOrderComplete(TimeoutRange);
    FailingInKeepsOrder(CheckOrder, c, fileExists);
  }

  /** A list in program order has as many elements as it has distinct ones. */
  lemma {:induction false} OrderedIsDistinct(ks: seq<Check>)
    requires InProgramOrder(ks)
    ensures |set k | k in ks| == |ks|
  {
    if ks != [] {
      OrderedIsDistinct(ks[1..]);
      forall j | 0 <= j < |ks[1..]| ensures ks[1..][j] != ks[0] {
        assert Rank(ks[0]) < Rank(ks[j + 1]);
      }
      assert (set k | k in ks) == {ks[0]} + (set k | k in ks[1..]);
    }
  }

  /** The number of reported violations is the number of failing checks. */
  lemma ViolationCount(c: Config, fileExists: string -> bool)
    ensures |Violations(c, fileExists)| == |set k | k in CheckOrder && Fails(k, c, fileExists)|
  {
    var v := Violations(c, fileExists);
    ViolationsExact(c, fileExists);
    FailingInMembers(CheckOrder, c, fileExists);
    OrderedIsDistinct(v);
    assert (set k | k in v) == (set k | k in CheckOrder && Fails(k, c, fileExists));
  }

  /** The conjunction of constraints says the same as "no check fails". */
  lemma AllChecksMeaning(c: Config, fileExists: string -> bool)
    ensures SatisfiesAllChecks(c, fileExists) <==> forall k :: !Fails(k, c, fileExists)
  {
    if forall k :: !Fails(k, c, fileExists) {
      assert !Fails(TimeoutRange, c, fileExists) && !Fails(RetryAttemptsRange, c, fileExists);
      assert !Fails(SocketPathEmpty, c, fileExists) && !Fails(SocketPathRelative, c, fileExists);
      assert !Fails(LogLevelUnknown, c, fileExists) && !Fails(LogFormatUnknown, c, fileExists);
      assert !Fails(VolumeRange, c, fileExists) && !Fails(SuccessSoundMissing, c, fileExists);
      assert !Fails(FailureSoundMissing, c, fileExists) && !Fails(MatchThresholdRange, c, fileExists);
      assert !Fails(MaxAuthAttemptsRange, c, fileExists) && !Fails(LockoutDurationRange, c, fileExists);
    }
  }

  /** Validation succeeds exactly when every constraint holds. */
  lemma ValidIffNoViolations(c: Config, fileExists: string -> bool)
    ensures Violations(c, fileExists) == [] <==> SatisfiesAllChecks(c, fileExists)
  {
    var v := Violations(c, fileExists);
    ViolationsExact(c, fileExists);
    AllChecksMeaning(c, fileExists);
    assert v != [] ==> v[0] in v;
  }

  /** A list in program order whose only member is `k` is `[k]`. */
  lemma OrderedSingleton(ks: seq<Check>, k: Check)
    requires InProgramOrder(ks)
    requires forall x :: x in ks <==> x == k
    ensures ks == [k]
  {
    OrderedIsDistinct(ks);
    assert (set x | x in ks) == {k};
    assert ks[0] in ks;
  }

  /** A list in program order whose members are exactly `a` and `b`, `a` ranked first, is `[a, b]`. */
  lemma OrderedPair(ks: seq<Check>, a: Check, b: Check)
    requires InProgramOrder(ks) && Rank(a) < Rank(b)
    requires forall x :: x in ks <==> x == a || x == b
    ensures ks == [a, b]
  {
    OrderedIsDistinct(ks);
    assert (set x | x in ks) == {a, b};
    assert |{a, b}| == 2;
    assert ks[0] in ks && ks[1] in ks;
  }

  /** The socket path contributes at most one violation. */
  lemma SocketPathAtMostOnce(c: Config, fileExists: string -> bool)
    ensures !(SocketPathEmpty in Violations(c, fileExists) && SocketPathRelative in Violations(c, fileExists))
  {
    ViolationsExact(c, fileExists);
  }

  /**
   * Volume 0 and lockout 0 are accepted; timeout 0, retry attempts 0 and
   * maximum attempts 0 are each rejected.
   */
  lemma BoundaryValues(c: Config, fileExists: string -> bool)
    ensures c.audio.volume == 0 ==> VolumeRange !in Violations(c, fileExists)
    ensures c.security.lockoutDuration == 0 ==> LockoutDurationRange !in Violations(c, fileExists)
    ensures c.service.timeout == 0 ==> TimeoutRange in Violations(c, fileExists)
    ensures c.service.retryAttempts == 0 ==> RetryAttemptsRange in Violations(c, fileExists)
    ensures c.security.maxAuthAttempts == 0 ==> MaxAuthAttemptsRange in Violations(c, fileExists)
  {
    ViolationsExact(c, fileExists);
  }

  /** The log level is matched without regard to case. */
  lemma LogLevelIgnoresCase(level: string)
    ensures ToUpper(level) in LogLevels <==> exists name :: name in LogLevels && EqualFold(level, name)
  {
    ToUpperMatchesIff(level, "DEBUG");
    ToUpperMatchesIff(level, "INFO");
    ToUpperMatchesIff(level, "WARN");
    ToUpperMatchesIff(level, "ERROR");
  }

  /** The log format is matched without regard to case. */
  lemma LogFormatIgnoresCase(format: string)
    ensures ToLower(format) in LogFormats <==> exists name :: name in LogFormats && EqualFold(format, name)
  {
    ToLowerMatchesIff(format, "json");
    ToLowerMatchesIff(format, "text");
  }

  /** The report is the concatenation of the four sections' reports. */
  lemma ViolationsBySection(c: Config, fileExists: string -> bool)
    ensures Violations(c, fileExists)
         == FailingIn(ServiceChecks, c, fileExists) + FailingIn(LoggingChecks, c, fileExists)
          + FailingIn(AudioChecks, c, fileExists) + FailingIn(SecurityChecks, c, fileExists)
  {
    FailingInAppend(ServiceChecks, LoggingChecks, c, fileExists);
    FailingInAppend(ServiceChecks + LoggingChecks, AudioChecks, c, fileExists);
    FailingInAppend(ServiceChecks + LoggingChecks + AudioChecks, SecurityChecks, c, fileExists);
  }

  /**
   * The shipped defaults fail exactly one check, the log format, because
   * the default format is "test".
   */
  lemma DefaultConfigViolations(fileExists: string -> bool)
    ensures Violations(DefaultConfig(), fileExists) == [LogFormatUnknown]
  {
    var d := DefaultConfig();
    ToUpperKeepsUpper("INFO");
    ToLowerKeepsLower("test");
    assert IsAbs(d.service.socketPath);
    forall k ensures Fails(k, d, fileExists) <==> k == LogFormatUnknown {
    }
    ViolationsExact(d, fileExists);
    OrderedSingleton(Violations(d, fileExists), LogFormatUnknown);
  }

  /** With the log format "text", the defaults pass every check. */
  lemma IntendedDefaultsValid(fileExists: string -> bool)
    ensures Violations(IntendedDefaultConfig(), fileExists) == []
    ensures SatisfiesAllChecks(IntendedDefaultConfig(), fileExists)
  {
    var d := IntendedDefaultConfig();
    ToUpperKeepsUpper("INFO");
    ToLowerKeepsLower("text");
    assert IsAbs(d.service.socketPath);
    ValidIffNoViolations(d, fileExists);
  }

  /**
   * The "text" defaults with a match threshold of 1.5 fail the threshold
   * check alone, whatever the two flags hold.
   */
  lemma ThresholdAloneFails(c: Config, fileExists: string -> bool)
    requires c.service == IntendedDefaultConfig().service && c.logging == IntendedDefaultConfig().logging
    requires c.audio == IntendedDefaultConfig().audio.(enabled := c.audio.enabled)
    requires c.security == IntendedDefaultConfig().security.(livenessRequired := c.security.livenessRequired, matchThreshold := 1.5)
    ensures Violations(c, fileExists) == [MatchThresholdRange]
  {
    ToUpperKeepsUpper("INFO");
    ToLowerKeepsLower("text");
    assert IsAbs(c.service.socketPath);
    forall k ensures Fails(k, c, fileExists) <==> k == MatchThresholdRange {
    }
    ViolationsExact(c, fileExists);
    OrderedSingleton(Violations(c, fileExists), MatchThresholdRange);
  }

  /**
   * The shipped defaults with a match threshold of 1.5 fail two checks:
   * the log format, then the threshold.
   */
  lemma ThresholdAndFormatFail(c: Config, fileExists: string -> bool)
    requires c == DefaultConfig().(security := DefaultConfig().security.(matchThreshold := 1.5))
    ensures Violations(c, fileExists) == [LogFormatUnknown, MatchThresholdRange]
  {
    ToUpperKeepsUpper("INFO");
    ToLowerKeepsLower("test");
    assert IsAbs(c.service.socketPath);
    forall k ensures Fails(k, c, fileExists) <==> k == LogFormatUnknown || k == MatchThresholdRange {
    }
    ViolationsExact(c, fileExists);
    OrderedPair(Violations(c, fileExists), LogFormatUnknown, MatchThresholdRange);
  }

  /** Violations from different sections are all reported: timeout 0 and volume 150 both appear. */
  lemma ViolationsAggregate(c: Config, fileExists: string -> bool)
    requires c.service.timeout == 0 && c.audio.volume == 150
    ensures TimeoutRange in Violations(c, fileExists) && VolumeRange in Violations(c, fileExists)
    ensures |Violations(c, fileExists)| >= 2
  {
    var v := Violations(c, fileExists);
    ViolationsExact(c, fileExists);
    assert Fails(TimeoutRange, c, fileExists) && Fails(VolumeRange, c, fileExists);
    OrderedIsDistinct(v);
    assert {TimeoutRange, VolumeRange} <= set k | k in v;
  }
}

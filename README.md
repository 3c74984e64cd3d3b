# linux-wave configuration loader, modelled in Dafny

This project models the configuration package of linux-wave
(`internal/config/config.go`), the face-authentication service's layered
loader:

- the configuration record, four flat sections of scalars, and the built-in
  defaults (`DefaultConfig`);
- `mergeConfigs`, which overlays one configuration on another field by
  field (numbers and strings follow "zero means unset"; the two flags follow
  "the override wins when it differs", so the flag is always the
  override's);
- `Validate`, which runs every range, enumeration, absolute-path and
  file-existence check without short-circuiting and reports each failure
  in program order;
- `expandPath` (a leading `~` joined onto the home directory, then
  environment variables expanded as Go's `os.ExpandEnv` does) and
  `sanitizePath`;
- `Load` (defaults, then the optional system file
  `/etc/linux-wave/config.yaml`, then the optional user file
  `~/.config/linux-wave/config.yaml`, then validation) and `LoadFromPath`
  (one explicit file decoded straight onto the defaults, then validation),
  together with their helper `loadFromPath`.

The parts that change a value step by step in the program are methods here:
`ConfigMerge.MergeConfigs` (copy the base, then assign fields one by one),
`ConfigValidate.Validate` (append to an error list), `ConfigLoad.Load` and
`ConfigLoad.LoadFromPath` (reassign `cfg` stage by stage). Each is proved
equal to a specification function (`Merged`, `Violations`, `LoadOutcome`,
`LoadFromPathOutcome`), and the promises of the program are lemmas about
those functions. The rest is pure functions.

The outside world is parameters:

- the filesystem is `fs: string -> FileState`: for each path, whether
  `os.Stat` fails (`Absent`), whether reading fails (`Unreadable`), whether
  the YAML is malformed (`Malformed`), or which parsed document the file
  holds (`Present(doc)`);
- a parsed YAML document is a `ConfigDocument.Document`, one `Option` per
  key; decoding it onto a configuration sets the keys it has and keeps
  every other field (`DecodeOnto`);
- the home directory (`os.UserHomeDir`) is an `Option<string>`;
- the environment is a `map<string, string>`.

Files: `wrappers.dfy` (Option, Result), `ascii.dfy` (case mapping),
`filepath.dfy` (`IsAbs`, `Join`), `osenv.dfy` (`os.ExpandEnv`),
`config_schema.dfy` (records, constants, defaults), `config_document.dfy`
(parsed documents), `config_merge.dfy`, `config_validate.dfy` (the
validator and its laws), `config_paths.dfy`, `config_load.dfy` (the loaders
and their laws).

The shipped default log format is `"test"`, which the validator rejects, so
`Load` as written fails whenever neither file sets `logging.format`. The
model keeps the shipped value in `DefaultConfig` and `Load`; the outcome
functions take the defaults as a parameter, so the same pipeline is also
proved with `IntendedDefaultConfig` (format `"text"`). See "## Findings".
The program's own comments point at "text": the `Format` field is
documented as "json (structured) or text (human-readable)"
(`internal/config/config.go` line 35), and the default carries the comment
"Human-readable format is better for system logs by default" (line 82). The
model follows the code and ships "test".

Writing a configuration's values into a file and loading it back gives
different results through the two loaders. Through `Load` every value other
than zero and the empty string comes back (`ConfigMerge.OverlayRoundTrip`),
but an explicit zero is taken for "unset" by the merge, so `audio.volume: 0`
or `lockout_duration: 0` in a file leaves the earlier value in place
(`ConfigMerge.ExplicitZeroVolumeIgnored`). `LoadFromPath` decodes straight
onto the defaults and keeps every value (`ConfigDocument.DecodeEncodeRoundTrip`).
The program's own comment on the flag rule (`internal/config/config.go`
lines 207-208) accepts that a flag left out of a file reads as false.

## Model

| member | source | states |
|---|---|---|
| ValidationLaws.DefaultConfigViolations | internal/config/config.go:73-97 | the shipped defaults fail exactly one check, the log format: the report is `[LogFormatUnknown]` whatever files exist |
| ValidationLaws.IntendedDefaultsValid | internal/config/config.go:82 | with the format "text" the defaults pass every check and the report is empty |
| ConfigSchema.DefaultConfig | internal/config/config.go:73-97 | the defaults keep every number in its validated range, an absolute socket path, no sound files, both flags on, and the log format "test"; `ValidationLaws.DefaultConfigViolations` gives their validation outcome |
| ConfigDocument.DecodeOnto | internal/config/config.go:174 | decoding a document with no keys leaves the destination unchanged; `DecodeOntoLaws` and `DecodeEncodeRoundTrip` give the rest of its meaning |
| ConfigDocument.DecodeOntoLaws | internal/config/config.go:174 | decoding the same document twice is decoding it once |
| ConfigDocument.DecodeEncodeRoundTrip | internal/config/config.go:174 | a document that writes out every key of a configuration decodes back to that configuration, whatever the destination held |
| ConfigMerge.MergeConfigs | internal/config/config.go:184-237 | the merged configuration equals `Merged(base, override)`, computed by copying the base and overwriting field by field |
| ConfigMerge.MergeServiceSettings | internal/config/config.go:186-195 | the service section of the merge: each field is the override's when non-zero or non-empty |
| ConfigMerge.MergeLoggingSettings | internal/config/config.go:197-203 | the logging section of the merge: level and format are the override's when non-empty |
| ConfigMerge.MergeAudioSettings | internal/config/config.go:205-219 | the audio section of the merge: the flag is taken when it differs from the base, the rest when set |
| ConfigMerge.MergeSecuritySettings | internal/config/config.go:221-234 | the security section of the merge, threshold included under "zero means unset" |
| ConfigMerge.MergeScalarRule | internal/config/config.go:186-234 | every number, string and the threshold of the merge is the override's when set and the base's otherwise |
| ConfigMerge.MergeFlagsFollowOverride | internal/config/config.go:207-225 | both merged flags equal the override's flags whatever the base holds |
| ConfigMerge.MergeIdempotent | internal/config/config.go:184-237 | merging a configuration with itself returns it |
| ConfigMerge.MergeOntoZero | internal/config/config.go:184-237 | merging over the zero configuration returns the override |
| ConfigMerge.MergeZeroOverlay | internal/config/config.go:207-225 | merging the zero configuration keeps every number and string of the base and turns both flags off |
| ConfigMerge.MergeAssociative | internal/config/config.go:121-135 | two overlays in a row equal one overlay of their merge |
| ConfigMerge.OverlayRoundTrip | internal/config/config.go:117-135 | a file writing out every key of a configuration whose numbers and strings are all set, merged as an overlay over any base, gives that configuration back |
| ConfigMerge.ExplicitZeroVolumeIgnored | internal/config/config.go:212-214 | an overlay's explicit `audio.volume: 0` is treated as unset: the base's volume stays |
| ConfigMerge.MergeDocumentOverlay | internal/config/config.go:117-121 | an overlay decoded into a zero configuration contributes the keys it sets to non-zero values, and each flag becomes the document's value or false when the key is missing |
| ConfigValidate.Validate | internal/config/config.go:242-300 | the returned list is `Violations(c)`: the failing checks, in program order |
| ConfigValidate.ValidateService | internal/config/config.go:246-256 | appends the failing service checks; the socket checks are an if / else-if |
| ConfigValidate.ValidateLogging | internal/config/config.go:259-266 | appends the failing level and format checks |
| ConfigValidate.ValidateAudio | internal/config/config.go:269-282 | appends the volume check and the two sound-file checks, a file being checked only when its path is set |
| ConfigValidate.ValidateSecurity | internal/config/config.go:285-293 | appends the failing threshold, attempts and lockout checks |
| ConfigValidate.FailingInAppend | internal/config/config.go:243-297 | checking two lists in a row reports the failures of the first, then those of the second |
| ValidationLaws.ViolationsExact | internal/config/config.go:243-297 | a check is reported exactly when it fails, and the report is in program order with no check twice |
| ValidationLaws.ViolationCount | internal/config/config.go:243-297 | the number of reported violations is the number of failing checks |
| ValidationLaws.ViolationsAggregate | internal/config/config.go:246-271 | failures in different sections are all reported: timeout 0 and volume 150 give at least two errors, both present |
| ValidationLaws.ViolationsBySection | internal/config/config.go:243-293 | the report is the service, logging, audio and security reports concatenated |
| ValidationLaws.AllChecksMeaning | internal/config/config.go:242-300 | the conjunction of all constraints holds exactly when no check fails |
| ValidationLaws.ValidIffNoViolations | internal/config/config.go:295-299 | validation succeeds (empty report) if and only if timeout is 1..60, retries 1..10, the socket path non-empty and absolute, the level and format known, volume 0..100, each sound empty or existing, threshold in [0, 1], attempts 1..20 and lockout 0..3600 |
| ValidationLaws.SocketPathAtMostOnce | internal/config/config.go:252-256 | the socket path never yields both of its errors |
| ValidationLaws.BoundaryValues | internal/config/config.go:246-291 | volume 0 and lockout 0 are accepted; timeout 0, retries 0 and maximum attempts 0 are each rejected |
| ValidationLaws.LogLevelIgnoresCase | internal/config/config.go:259-262 | the upper-cased level is known exactly when the level equals a known name ignoring case |
| ValidationLaws.LogFormatIgnoresCase | internal/config/config.go:263-266 | the lower-cased format is known exactly when the format equals "json" or "text" ignoring case |
| ValidationLaws.OrderedPair | internal/config/config.go:243-297 | a report in program order that holds exactly two checks is those two in rank order |
| ValidationLaws.ThresholdAndFormatFail | internal/config/config.go:263-287 | the shipped defaults with threshold 1.5 report the log format, then the threshold |
| ValidationLaws.ThresholdAloneFails | internal/config/config.go:285-287 | the "text" defaults with threshold 1.5 report the threshold alone |
| Ascii.ToUpper | internal/config/config.go:260 | upper-casing keeps the length; `ToUpperKeepsUpper` and `ToUpperMatchesIff` give its meaning for the level check |
| Ascii.ToLower | internal/config/config.go:264 | lower-casing keeps the length; `ToLowerKeepsLower` and `ToLowerMatchesIff` give its meaning for the format check |
| Ascii.ToUpperMatchesIff | internal/config/config.go:260 | upper-casing a string gives an upper-case name exactly when the two agree ignoring case |
| Ascii.ToLowerMatchesIff | internal/config/config.go:264 | lower-casing a string gives a lower-case name exactly when the two agree ignoring case |
| Ascii.ToUpperKeepsUpper | internal/config/config.go:260 | a string without lower-case letters is unchanged by upper-casing |
| Ascii.ToLowerKeepsLower | internal/config/config.go:264 | a string without upper-case letters is unchanged by lower-casing |
| FilePath.Join | internal/config/config.go:309 | joining onto an empty directory gives the element, joining an empty element gives the directory, and at most one separator is added; `JoinKeepsAbsolute` and `JoinCharacters` give the rest |
| FilePath.JoinKeepsAbsolute | internal/config/config.go:309 | joining onto an absolute directory gives an absolute path |
| FilePath.JoinCharacters | internal/config/config.go:309 | a join introduces no character but '/' |
| OsEnv.ExpandEnv | internal/config/config.go:311 | with an empty environment expansion never lengthens a string; `ExpandEnvWithoutDollar`, `ExpandEnvPlainPrefix`, `ExpandEnvVariable` and `UnsetVariableExpandsToEmpty` give its meaning |
| OsEnv.ExpandEnvWithoutDollar | internal/config/config.go:311 | a string without '$' is not changed by expansion |
| OsEnv.ExpandEnvPlainPrefix | internal/config/config.go:311 | expansion passes a prefix without '$' through unchanged |
| OsEnv.ExpandEnvVariable | internal/config/config.go:311 | `$NAME` followed by a non-name character becomes the variable's value |
| OsEnv.UnsetVariableExpandsToEmpty | internal/config/config.go:311 | an unset variable expands to the empty string |
| ConfigPaths.ExpandPath | internal/config/config.go:303-312 | expansion fails exactly when the path starts with '~' and the home directory is unknown |
| ConfigPaths.ExpandPathIgnoresHome | internal/config/config.go:304-311 | a path without a leading '~' always expands, independently of the home directory |
| ConfigPaths.TildePathIsAbsolute | internal/config/config.go:304-311 | with an absolute home, a '~' path expands to an absolute path whatever the environment |
| ConfigPaths.TildeReplacedByHome | internal/config/config.go:304-311 | without '$', a '~' path expands to the home directory joined with the rest |
| ConfigPaths.TildeNameUsesOwnHome | internal/config/config.go:304-309 | "~foo" is not another user's home: with home "/h" it expands to "/h/foo" |
| ConfigPaths.EnvironmentExpanded | internal/config/config.go:303-312 | "$FOO/x" expands to "/x" without a home when FOO is unset; "~/x" without a home fails |
| ConfigPaths.UserConfigPathUnexpanded | internal/config/config.go:125 | the user path before expansion is "~/" followed by `.config/linux-wave/config.yaml` |
| ConfigPaths.UserConfigPathExpanded | internal/config/config.go:125 | the user file is the home directory joined with the relative path; for a home without a trailing slash, home + "/" + relative path |
| ConfigPaths.SanitizePath | internal/config/config.go:340-345 | the displayed path is never empty: an unset path shows as "<not set>", any other path as itself |
| ConfigLoad.UserConfigPath | internal/config/config.go:125 | the user path fails exactly when the home directory is unknown; `ConfigPaths.UserConfigPathExpanded` gives the path itself |
| ConfigLoad.ReadConfig | internal/config/config.go:168-179 | reading succeeds exactly when the file reads and parses; bad YAML is a parse error; the result is the document decoded onto the destination |
| ConfigLoad.ApplyLayer | internal/config/config.go:116-122 | a missing file leaves the configuration alone; a present one is merged over it; an unreadable or malformed one is an error |
| ConfigLoad.Validated | internal/config/config.go:139-143 | the gate returns the configuration exactly when every constraint holds, and otherwise the non-empty report |
| ConfigLoad.Load | internal/config/config.go:111-144 | the result equals `LoadOutcome` from the shipped defaults |
| ConfigLoad.LoadFromPath | internal/config/config.go:148-165 | the result equals `LoadFromPathOutcome` from the shipped defaults |
| LoadLaws.LoadSucceedsOnlyWhenValid | internal/config/config.go:139-143 | a configuration returned by either loader satisfies every check |
| LoadLaws.SystemFileFailureAborts | internal/config/config.go:116-120 | an existing system file that cannot be read or parsed aborts `Load` with that error |
| LoadLaws.UserFileFailureAborts | internal/config/config.go:125-135 | once the system file has not failed, an existing user file that cannot be read or parsed aborts `Load` with that error |
| LoadLaws.HomeUnknownAborts | internal/config/config.go:125-128 | without a home directory `Load` fails on the user path, unless the system file failed first |
| LoadLaws.LoadLayers | internal/config/config.go:111-144 | with both files read, the outcome is the validated defaults merged with the system overlay and then the user overlay, which equals one merge of the two overlays |
| LoadLaws.MissingFilesSkipped | internal/config/config.go:116-136 | files that do not exist are skipped: the outcome is the defaults, validated |
| LoadLaws.LoadWithoutFiles | internal/config/config.go:111-144 | with no file anywhere `Load` fails with the single log-format violation; with the "text" default it returns the defaults |
| LoadLaws.OmittedFlagSwitchesOff | internal/config/config.go:130-135 | a user file that leaves out `audio.enabled` or `security.liveness_required` turns that flag off in the loaded configuration |
| LoadLaws.LoadFromPathDecodesOntoDefaults | internal/config/config.go:148-158 | a missing explicit file is a read error; a present one yields the defaults with its keys decoded on top, validated |
| LoadLaws.ThresholdOnlyDocument | internal/config/config.go:168-179 | the document sets `security.match_threshold` to 1.5 and no other key |
| LoadLaws.LoadFromPathThresholdAsShipped | internal/config/config.go:148-165 | `LoadFromPath` on a file setting only `match_threshold: 1.5` fails with the log-format and threshold violations, in that order |
| LoadLaws.LoadFromPathThresholdIntended | internal/config/config.go:148-165 | with the "text" default the same file fails with the threshold violation alone |
| LoadLaws.ThresholdOutOfRange | internal/config/config.go:111-144 | a system file setting only `match_threshold: 1.5` makes the "text"-default `Load` fail with the threshold violation alone |

## Left out

- YAML decoding (`yaml.Unmarshal`) is not modelled: a parsed file is a `Document` with one optional value per key, and a malformed file is a `FileState`. Type errors inside a document and partial decoding before an error are not represented.
- `os.Stat`, `os.ReadFile` and `os.UserHomeDir` are the parameters `fs` and `home`; `os.UserHomeDir` reads `$HOME` on Linux, and the model does not tie `home` to the `env` map.
- `FilePath.Join` trims the slashes where the two parts meet but does not perform the rest of `filepath.Clean` (`.`/`..` segments, doubled slashes inside a part, the trailing slash of a lone directory).
- `FilePath.IsAbs` is the Unix rule: a path is absolute when it starts with '/'.
- `Ascii.ToUpper` / `Ascii.ToLower` map ASCII letters only; Go's `strings.ToUpper` / `ToLower` also map other Unicode letters.
- `OsEnv.ExpandEnv` works on characters where Go works on bytes.
- The match threshold is a `real`: IEEE floating point (NaN, rounding of 0.85) is not modelled.
- Integers are unbounded; Go's `int` is 64 bits, which no check here reaches.
- Error message text and `%w` wrapping are not modelled: errors are tags, and the validator's report is the list of failing checks in order (`errors.Join` of their messages in the program).
- `Config.String` and its `fmt.Sprintf` rendering are not modelled; only its helper `sanitizePath` is.
- `mergeConfigs` returns the address of a fresh copy (`&result`); the model returns a value, so the "neither input is changed" promise holds by construction rather than by proof.
- `cmd/*/main.go` only print banners and `internal/version_test.go` tests constants of a file that is not part of this model; none is modelled.

## Findings

| source | as written | input that shows it | evidently intended | confidence | as-written member | corrected member |
|---|---|---|---|---|---|---|
| internal/config/config.go:82 | the default log format is "test", which `Validate` rejects (lines 263-266), so `Load` fails whenever no file sets `logging.format` | no system or user file, home known: `Load` returns the log-format validation error | the default format "text" (the comment beside it asks for a human-readable format), under which the defaults are valid and `Load` with no files returns them | high, not executed | ValidationLaws.DefaultConfigViolations | ValidationLaws.IntendedDefaultsValid |

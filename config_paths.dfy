/**
 * The two path helpers: `expandPath`, which replaces a leading '~' by the
 * home directory and then expands environment variables, and
 * `sanitizePath`, which shows an unset path as a placeholder. The home
 * directory (what `os.UserHomeDir` reports) and the environment are
 * parameters.
 */
module ConfigPaths {
  import opened Wrappers
  import opened FilePath
  import opened OsEnv
  import opened ConfigSchema

  datatype PathError = HomeDirUnknown

  /** The path string starts with '~' (`strings.HasPrefix(path, "~")`). */
  predicate StartsWithTilde(path: string) {
    |path| > 0 && path[0] == '~'
  }

  /**
   * `expandPath`: a leading '~' (as in "~/x", and also "~foo") is replaced
   * by joining the home directory with the rest of the path; then
   * environment variables are expanded. The only failure is a '~' path
   * when the home directory is unknown.
   */
  function ExpandPath(path: string, home: Option<string>, env: map<string, string>): (r: Result<string, PathError>)
    ensures r.Err? <==> StartsWithTilde(path) && home.None?
    ensures r.Err? ==> r.error == HomeDirUnknown
  {
    if StartsWithTilde(path) then
      if home.None? then Err(HomeDirUnknown) else Ok(ExpandEnv(Join(home.value, path[1..]), env))
    else
      Ok(ExpandEnv(path, env))
  }

  /** A path without a leading '~' does not depend on the home directory at all. */
  lemma ExpandPathIgnoresHome(path: string, home: Option<string>, env: map<string, string>)
    requires !StartsWithTilde(path)
    ensures ExpandPath(path, home, env) == ExpandPath(path, None, env)
    ensures ExpandPath(path, home, env).Ok?
  {
  }

  /**
   * With an absolute home directory, a '~' path expands to an absolute
   * path, whatever the environment holds.
   */
  lemma TildePathIsAbsolute(rest: string, home: string, env: map<string, string>)
    requires IsAbs(home)
    ensures ExpandPath("~" + rest, Some(home), env).Ok?
    ensures IsAbs(ExpandPath("~" + rest, Some(home), env).value)
  {
    var joined := Join(home, rest);
    JoinKeepsAbsolute(home, rest);
    assert ("~" + rest)[1..] == rest;
    assert joined == "/" + joined[1..];
    ExpandEnvPlainPrefix("/", joined[1..], env);
  }

  /**
   * Without '$' in the home directory or the path, expansion is exactly the
   * join of the home directory with what follows the '~'.
   */
  lemma TildeReplacedByHome(rest: string, home: string, env: map<string, string>)
    requires '$' !in home && '$' !in rest
    ensures ExpandPath("~" + rest, Some(home), env) == Ok(Join(home, rest))
  {
    assert ("~" + rest)[1..] == rest;
    JoinCharacters(home, rest);
    ExpandEnvWithoutDollar(Join(home, rest), env);
  }

  /** The user configuration path `filepath.Join("~", userConfigRelPath)` is "~/" followed by the relative path. */
  lemma UserConfigPathUnexpanded()
    ensures Join("~", UserConfigRelPath) == "~/" + UserConfigRelPath
  {
    assert UserConfigRelPath[0] == '.';
    assert TrimLeadingSlashes(UserConfigRelPath) == UserConfigRelPath;
    assert TrimTrailingSlashes("~") == "~";
  }

  /**
   * The user configuration file lies under the home directory: for a home
   * such as "/home/alice" it is "/home/alice/" followed by the relative path.
   */
  lemma UserConfigPathExpanded(home: string, env: map<string, string>)
    requires '$' !in home
    ensures ExpandPath(Join("~", UserConfigRelPath), Some(home), env)
         == Ok(Join(home, "/" + UserConfigRelPath))
    ensures home != "" && home[|home| - 1] != '/' ==>
      ExpandPath(Join("~", UserConfigRelPath), Some(home), env) == Ok(home + "/" + UserConfigRelPath)
  {
    UserConfigPathUnexpanded();
    var rest := "/" + UserConfigRelPath;
    assert '$' !in rest;
    assert "~/" + UserConfigRelPath == "~" + rest;
    TildeReplacedByHome(rest, home, env);
    assert rest[1..] == UserConfigRelPath;
    assert TrimLeadingSlashes(UserConfigRelPath) == UserConfigRelPath by {
      assert UserConfigRelPath[0] == '.';
    }
    assert TrimLeadingSlashes(rest) == UserConfigRelPath;
  }

  /** "~foo" is not another user's home: the '~' alone is replaced, giving "/h/foo" for home "/h". */
  lemma TildeNameUsesOwnHome(env: map<string, string>)
    ensures ExpandPath("~foo", Some("/h"), env) == Ok("/h/foo")
  {
    assert "~foo" == "~" + "foo" && "~foo"[1..] == "foo";
    assert '$' !in "/h" && '$' !in "foo";
    TildeReplacedByHome("foo", "/h", env);
    assert TrimTrailingSlashes("/h") == "/h";
    assert TrimLeadingSlashes("foo") == "foo";
    assert Join("/h", "foo") == "/h" + "/" + "foo" == "/h/foo";
    assert ExpandPath("~" + "foo", Some("/h"), env) == Ok("/h/foo");
  }

  /** Variables are expanded without a home directory; unset ones become empty. */
  lemma EnvironmentExpanded(env: map<string, string>)
    requires "FOO" !in env
    ensures ExpandPath("$FOO/x", None, env) == Ok("/x")
    ensures ExpandPath("~/x", None, env) == Err(HomeDirUnknown)
  {
    UnsetVariableExpandsToEmpty(env);
  }

  const NotSet: string := "<not set>"

  /** `sanitizePath`: the path for display, never blank; an unset path shows as "<not set>". */
  function SanitizePath(path: string): (r: string)
    ensures r != ""
    ensures path != "" ==> r == path
    ensures path == "" ==> r == NotSet
  {
    if path == "" then NotSet else path
  }
}

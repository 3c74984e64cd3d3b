/**
 * Go's `os.ExpandEnv`: `$name` and `${name}` references are replaced by
 * the variable's value, an unset variable by the empty string. The
 * environment is a map given by the caller.
 */
module OsEnv {

  /** The one-character names `$*`, `$#`, `$$`, `$@`, `$!`, `$?`, `$-`, `$0` .. `$9`. */
  predicate IsShellSpecialVar(ch: char) {
    ch in "*#$@!?-0123456789"
  }

  predicate IsAlphaNum(ch: char) {
    ch == '_' || '0' <= ch <= '9' || 'a' <= ch <= 'z' || 'A' <= ch <= 'Z'
  }

  /** The length of the longest prefix of `s` made of name characters. */
  function NamePrefixLength(s: string): (n: nat)
    ensures n <= |s|
    ensures forall i :: 0 <= i < n ==> IsAlphaNum(s[i])
    ensures n < |s| ==> !IsAlphaNum(s[n])
  {
    if s == [] || !IsAlphaNum(s[0]) then 0 else 1 + NamePrefixLength(s[1..])
  }

  /** The position of the first '}' at or after `i`, or `|s|` when there is none. */
  function CloseBrace(s: string, i: nat): (j: nat)
    requires i <= |s|
    ensures i <= j <= |s|
    ensures forall k :: i <= k < j ==> s[k] != '}'
    ensures j < |s| ==> s[j] == '}'
    decreases |s| - i
  {
    if i == |s| then |s| else if s[i] == '}' then i else CloseBrace(s, i + 1)
  }

  /**
   * The variable name at the start of `s` (the text after a '$') and the
   * number of characters it occupies. An empty name with a non-zero width
   * is bad syntax, whose characters are dropped; an empty name of width 0
   * leaves the '$' in place.
   */
  function ShellName(s: string): (r: (string, nat))
    requires |s| > 0
    ensures r.1 <= |s|
    ensures r.0 != [] ==> r.1 > 0
  {
    if s[0] == '{' then
      if |s| > 2 && IsShellSpecialVar(s[1]) && s[2] == '}' then (s[1..2], 3)
      else
        var j := CloseBrace(s, 1);
        if j == |s| then ("", 1)
        else if j == 1 then ("", 2)
        else (s[1..j], j + 1)
    else if IsShellSpecialVar(s[0]) then (s[0..1], 1)
    else
      var n := NamePrefixLength(s);
      (s[..n], n)
  }

  function Getenv(env: map<string, string>, name: string): string {
    if name in env then env[name] else ""
  }

  /**
   * `os.ExpandEnv(s)` over the environment `env`. With an empty
   * environment every reference expands to nothing, so the result is never
   * longer than `s`.
   */
  function ExpandEnv(s: string, env: map<string, string>): (r: string)
    ensures env == map[] ==> |r| <= |s|
    decreases |s|
  {
    if |s| == 0 then ""
    else if s[0] == '$' && |s| > 1 then
      var (name, w) := ShellName(s[1..]);
      if name == "" && w > 0 then ExpandEnv(s[1 + w..], env)
      else if name == "" then "$" + ExpandEnv(s[1..], env)
      else Getenv(env, name) + ExpandEnv(s[1 + w..], env)
    else [s[0]] + ExpandEnv(s[1..], env)
  }

  /** A string without '$' is left exactly as it is. */
  lemma {:induction false} ExpandEnvWithoutDollar(s: string, env: map<string, string>)
    requires '$' !in s
    ensures ExpandEnv(s, env) == s
  {
    if s != [] {
      assert '$' !in s[1..];
      ExpandEnvWithoutDollar(s[1..], env);
    }
  }

  /** Expansion distributes over a prefix without '$'. */
  lemma {:induction false} ExpandEnvPlainPrefix(p: string, s: string, env: map<string, string>)
    requires '$' !in p
    ensures ExpandEnv(p + s, env) == p + ExpandEnv(s, env)
  {
    if p != [] {
      assert (p + s)[0] == p[0] && (p + s)[1..] == p[1..] + s;
      assert p[0] != '$' && '$' !in p[1..];
      ExpandEnvPlainPrefix(p[1..], s, env);
      calc {
        ExpandEnv(p + s, env);
        [p[0]] + ExpandEnv(p[1..] + s, env);
        [p[0]] + (p[1..] + ExpandEnv(s, env));
        { assert p == [p[0]] + p[1..]; }
        p + ExpandEnv(s, env);
      }
    } else {
      assert p + s == s;
    }
  }

  /** `$NAME` followed by a non-name character is replaced by the variable's value. */
  lemma ExpandEnvVariable(name: string, rest: string, env: map<string, string>)
    requires name != [] && forall i :: 0 <= i < |name| ==> IsAlphaNum(name[i])
    requires !IsShellSpecialVar(name[0])
    requires rest == [] || !IsAlphaNum(rest[0])
    ensures ExpandEnv("$" + name + rest, env) == Getenv(env, name) + ExpandEnv(rest, env)
  {
    var s := "$" + name + rest;
    assert s[1..] == name + rest;
    NamePrefixIsName(name, rest);
    assert s[1..][..|name|] == name;
    assert ShellName(s[1..]) == (name, |name|);
    assert s[1 + |name|..] == rest;
  }

  lemma {:induction false} NamePrefixIsName(name: string, rest: string)
    requires forall i :: 0 <= i < |name| ==> IsAlphaNum(name[i])
    requires rest == [] || !IsAlphaNum(rest[0])
    ensures NamePrefixLength(name + rest) == |name|
  {
    if name != [] {
      assert (name + rest)[1..] == name[1..] + rest;
      NamePrefixIsName(name[1..], rest);
    } else {
      assert name + rest == rest;
    }
  }

  /** An unset variable expands to the empty string: `$FOO/x` with FOO unset is `/x`. */
  lemma UnsetVariableExpandsToEmpty(env: map<string, string>)
    requires "FOO" !in env
    ensures ExpandEnv("$FOO/x", env) == "/x"
  {
    assert "$FOO/x" == "$" + "FOO" + "/x";
    ExpandEnvVariable("FOO", "/x", env);
    ExpandEnvWithoutDollar("/x", env);
  }
}

/**
 * The two `path/filepath` operations the loader uses, for Unix paths:
 * `IsAbs` and a two-element `Join`.
 */
module FilePath {

  predicate IsAbs(p: string) {
    |p| > 0 && p[0] == '/'
  }

  /** `s` without the slashes at its end: a prefix of `s` that does not end in '/'. */
  function TrimTrailingSlashes(s: string): (r: string)
    ensures r <= s
    ensures r == [] || r[|r| - 1] != '/'
    ensures forall i :: |r| <= i < |s| ==> s[i] == '/'
  {
    if s != [] && s[|s| - 1] == '/' then TrimTrailingSlashes(s[..|s| - 1]) else s
  }

  /** `s` without the slashes at its start: a suffix of `s` that does not start with '/'. */
  function TrimLeadingSlashes(s: string): (r: string)
    ensures |r| <= |s| && r == s[|s| - |r|..]
    ensures r == [] || r[0] != '/'
    ensures forall i :: 0 <= i < |s| - |r| ==> s[i] == '/'
  {
    if s != [] && s[0] == '/' then TrimLeadingSlashes(s[1..]) else s
  }

  /**
   * `filepath.Join(dir, elem)`: empty elements are ignored and the two
   * parts meet at exactly one slash.
   */
  function Join(dir: string, elem: string): (r: string)
    ensures dir == "" ==> r == elem
    ensures elem == "" ==> r == dir
    ensures |r| <= |dir| + |elem| + 1
  {
    if dir == "" then elem
    else if elem == "" then dir
    else TrimTrailingSlashes(dir) + "/" + TrimLeadingSlashes(elem)
  }

  /** Joining anything onto an absolute directory stays absolute. */
  lemma JoinKeepsAbsolute(dir: string, elem: string)
    requires IsAbs(dir)
    ensures IsAbs(Join(dir, elem))
  {
  }

  /** Joining adds no character but the separator: every character of the result comes from a part or is '/'. */
  lemma JoinCharacters(dir: string, elem: string)
    ensures forall ch :: ch in Join(dir, elem) ==> ch in dir || ch in elem || ch == '/'
  {
    if dir != "" && elem != "" {
      var d, e := TrimTrailingSlashes(dir), TrimLeadingSlashes(elem);
      forall ch | ch in d ensures ch in dir {
        var i :| 0 <= i < |d| && d[i] == ch;
        assert dir[i] == ch;
      }
      forall ch | ch in e ensures ch in elem {
        var i :| 0 <= i < |e| && e[i] == ch;
        assert elem[|elem| - |e| + i] == ch;
      }
      assert Join(dir, elem) == d + "/" + e;
    }
  }
}

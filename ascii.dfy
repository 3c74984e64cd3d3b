/**
 * ASCII case folding, the part of Go's `strings.ToUpper` and
 * `strings.ToLower` that the validator depends on.
 */
module Ascii {

  function UpperChar(ch: char): char {
    if 'a' <= ch <= 'z' then (ch as int - 32) as char else ch
  }

  function LowerChar(ch: char): char {
    if 'A' <= ch <= 'Z' then (ch as int + 32) as char else ch
  }

  function ToUpper(s: string): (r: string)
    ensures |r| == |s|
  {
    if s == [] then [] else [UpperChar(s[0])] + ToUpper(s[1..])
  }

  function ToLower(s: string): (r: string)
    ensures |r| == |s|
  {
    if s == [] then [] else [LowerChar(s[0])] + ToLower(s[1..])
  }

  /** Case-insensitive equality of two strings (ASCII letters only). */
  predicate EqualFold(a: string, b: string) {
    |a| == |b| && forall i :: 0 <= i < |a| ==> UpperChar(a[i]) == UpperChar(b[i])
  }

  predicate NoLowerLetter(t: string) {
    forall i :: 0 <= i < |t| ==> !('a' <= t[i] <= 'z')
  }

  predicate NoUpperLetter(t: string) {
    forall i :: 0 <= i < |t| ==> !('A' <= t[i] <= 'Z')
  }

  /** Upper-casing works character by character and keeps the length. */
  lemma {:induction false} ToUpperPointwise(s: string)
    ensures |ToUpper(s)| == |s|
    ensures forall i :: 0 <= i < |s| ==> ToUpper(s)[i] == UpperChar(s[i])
  {
    if s != [] {
      ToUpperPointwise(s[1..]);
      assert forall i :: 1 <= i < |s| ==> ToUpper(s)[i] == ToUpper(s[1..])[i - 1];
    }
  }

  /** Lower-casing works character by character and keeps the length. */
  lemma {:induction false} ToLowerPointwise(s: string)
    ensures |ToLower(s)| == |s|
    ensures forall i :: 0 <= i < |s| ==> ToLower(s)[i] == LowerChar(s[i])
  {
    if s != [] {
      ToLowerPointwise(s[1..]);
      assert forall i :: 1 <= i < |s| ==> ToLower(s)[i] == ToLower(s[1..])[i - 1];
    }
  }

  /** A string with no lower-case letter is its own upper-case form. */
  lemma {:induction false} ToUpperKeepsUpper(s: string)
    requires NoLowerLetter(s)
    ensures ToUpper(s) == s
  {
    if s != [] {
      assert NoLowerLetter(s[1..]) by {
        forall i | 0 <= i < |s[1..]| ensures !('a' <= s[1..][i] <= 'z') {
          assert s[1..][i] == s[i + 1];
        }
      }
      ToUpperKeepsUpper(s[1..]);
      assert !('a' <= s[0] <= 'z');
    }
  }

  /** A string with no upper-case letter is its own lower-case form. */
  lemma {:induction false} ToLowerKeepsLower(s: string)
    requires NoUpperLetter(s)
    ensures ToLower(s) == s
  {
    if s != [] {
      assert NoUpperLetter(s[1..]) by {
        forall i | 0 <= i < |s[1..]| ensures !('A' <= s[1..][i] <= 'Z') {
          assert s[1..][i] == s[i + 1];
        }
      }
      ToLowerKeepsLower(s[1..]);
      assert !('A' <= s[0] <= 'Z');
    }
  }

  /** Against a target with no lower-case letter, `ToUpper(s) == t` is case-insensitive equality. */
  lemma ToUpperMatchesIff(s: string, t: string)
    requires NoLowerLetter(t)
    ensures ToUpper(s) == t <==> EqualFold(s, t)
  {
    ToUpperPointwise(s);
    if EqualFold(s, t) {
      forall i | 0 <= i < |s| ensures ToUpper(s)[i] == t[i] {
        assert UpperChar(t[i]) == t[i];
      }
    }
  }

  /** Against a target with no upper-case letter, `ToLower(s) == t` is case-insensitive equality. */
  lemma ToLowerMatchesIff(s: string, t: string)
    requires NoUpperLetter(t)
    ensures ToLower(s) == t <==> EqualFold(s, t)
  {
    ToLowerPointwise(s);
    if ToLower(s) == t {
      forall i | 0 <= i < |s| ensures UpperChar(s[i]) == UpperChar(t[i]) {
        assert LowerChar(s[i]) == t[i];
      }
    }
    if EqualFold(s, t) {
      forall i | 0 <= i < |s| ensures ToLower(s)[i] == t[i] {
        assert UpperChar(s[i]) == UpperChar(t[i]);
      }
    }
  }
}

/**
 * ASCII upper-casing of parameter names: the `toUpperCase` that the
 * normaliser applies to every key. Only the letters 'a'..'z' change; every
 * other character is kept as it is.
 */
module Ascii {

  predicate IsLower(c: char) { 'a' <= c <= 'z' }

  /** The upper-case form of one character. */
  function UpperChar(c: char): (u: char)
    ensures IsLower(c) ==> u as int == c as int - 32
    ensures !IsLower(c) ==> u == c
    ensures !IsLower(u)
  {
    if IsLower(c) then (c as int - 32) as char else c
  }

  /** A string is upper-case when it holds no lower-case letter. */
  predicate IsUpper(s: string) {
    forall i :: 0 <= i < |s| ==> !IsLower(s[i])
  }

  /** Upper-cases every character of `s`, giving a new string. */
  function ToUpper(s: string): (r: string)
    ensures |r| == |s|
    ensures IsUpper(r)
  {
    seq(|s|, i requires 0 <= i < |s| => UpperChar(s[i]))
  }

  /** The string that matches `s` upper-cased character by character is `ToUpper(s)`. */
  lemma ToUpperPointwise(s: string, t: string)
    requires |s| == |t|
    requires forall i :: 0 <= i < |s| ==> t[i] == UpperChar(s[i])
    ensures ToUpper(s) == t
  {
    assert forall i :: 0 <= i < |s| ==> ToUpper(s)[i] == t[i];
  }

  /** An upper-case string is its own upper-case form. */
  lemma UpperFixed(s: string)
    requires IsUpper(s)
    ensures ToUpper(s) == s
  {
    assert forall i :: 0 <= i < |s| ==> ToUpper(s)[i] == s[i];
  }

  /** Upper-casing twice is upper-casing once. */
  lemma ToUpperIdempotent(s: string)
    ensures ToUpper(ToUpper(s)) == ToUpper(s)
  {
    UpperFixed(ToUpper(s));
  }
}

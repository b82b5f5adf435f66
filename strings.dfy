/**
 * The ASCII part of Go's `strings.ToLower`, the one library string operation
 * the deploy tool relies on (it normalises the `--env` argument with it).
 * Characters outside 'A'..'Z' are left as they are.
 */
module Strings {

  predicate IsUpper(c: char) {
    'A' <= c <= 'Z'
  }

  /** True when no character of `s` is an upper-case ASCII letter. */
  predicate IsLower(s: string) {
    forall i :: 0 <= i < |s| ==> !IsUpper(s[i])
  }

  /** Maps an upper-case ASCII letter to the lower-case letter at the same
      position of the alphabet; every other character is its own image. */
  function LowerChar(c: char): (d: char)
    ensures !IsUpper(d)
    ensures IsUpper(c) ==> 'a' <= d <= 'z' && d as int - 'a' as int == c as int - 'A' as int
    ensures !IsUpper(c) ==> d == c
  {
    if IsUpper(c) then (c as int - 'A' as int + 'a' as int) as char else c
  }

  /** Lower-cases `s` character by character. */
  function ToLower(s: string): (r: string)
    ensures |r| == |s|
    ensures forall i :: 0 <= i < |s| ==> r[i] == LowerChar(s[i])
    ensures IsLower(r)
  {
    if s == [] then [] else [LowerChar(s[0])] + ToLower(s[1..])
  }

  /** Lower-casing twice is lower-casing once. */
  lemma ToLowerIdempotent(s: string)
    ensures ToLower(ToLower(s)) == ToLower(s)
  {
  }

  /** The strings `ToLower` leaves unchanged are exactly those without an
      upper-case ASCII letter. */
  lemma ToLowerFixesExactlyLower(s: string)
    ensures ToLower(s) == s <==> IsLower(s)
  {
  }

  /** Only the empty string lower-cases to the empty string. */
  lemma ToLowerEmpty(s: string)
    ensures ToLower(s) == "" <==> s == ""
  {
  }

  /** `s` and `t` spell the same word up to the case of ASCII letters. */
  predicate EqualIgnoringCase(s: string, t: string) {
    |s| == |t| && forall i :: 0 <= i < |s| ==> LowerChar(s[i]) == LowerChar(t[i])
  }

  /** `ToLower(s)` equals a lower-case key `k` exactly when `s` spells `k`
      in any mixture of upper and lower case. */
  lemma ToLowerMatches(s: string, k: string)
    requires IsLower(k)
    ensures ToLower(s) == k <==> EqualIgnoringCase(s, k)
  {
  }
}

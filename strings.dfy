/**
 * Upper-casing of strings as used by the certificate helpers
 * (`strings.ToUpper` on the algorithm label and the curve name).
 * Only the ASCII letters are mapped; see README for the limit.
 */
module Strings {

  predicate IsLowerAscii(c: char) {
    'a' <= c <= 'z'
  }

  /** The upper-case form of one character. */
  function UpperChar(c: char): (u: char)
    ensures !IsLowerAscii(u)
    ensures IsLowerAscii(c) || u == c
    ensures IsLowerAscii(c) ==> u as int + 32 == c as int
  {
    if IsLowerAscii(c) then (c as int - 32) as char else c
  }

  /** `strings.ToUpper`: every character is mapped on its own, nothing is dropped or added. */
  function Upper(s: string): (r: string)
    ensures |r| == |s|
    ensures forall i :: 0 <= i < |s| ==> r[i] == UpperChar(s[i])
  {
    if s == [] then [] else [UpperChar(s[0])] + Upper(s[1..])
  }

  /** A string with no lower-case ASCII letter is its own upper-case form. */
  lemma UpperOfUpperCase(s: string)
    requires forall i :: 0 <= i < |s| ==> !IsLowerAscii(s[i])
    ensures Upper(s) == s
  {
    assert forall i :: 0 <= i < |s| ==> Upper(s)[i] == s[i];
  }

  /** Upper-casing twice is upper-casing once. */
  lemma UpperIdempotent(s: string)
    ensures Upper(Upper(s)) == Upper(s)
  {
    UpperOfUpperCase(Upper(s));
  }
}

/** Characters and strings as the configuration code sees them: the
    Base16 alphabet and `String.prototype.toLowerCase` on ASCII text. */
module Strings {

  /** Lowercase of one character. Only ASCII letters change; every string this
      model lowercases is ASCII (a validated hex key, the seed e-mail address). */
  function LowerChar(c: char): (r: char)
    ensures 'A' <= c <= 'Z' ==> 'a' <= r <= 'z'
    ensures !('A' <= c <= 'Z') ==> r == c
  {
    if 'A' <= c <= 'Z' then (c as int - 'A' as int + 'a' as int) as char else c
  }

  /** Character-wise lowercase of a string. */
  function ToLower(s: string): (r: string)
    ensures |r| == |s|
    ensures forall i :: 0 <= i < |s| ==> r[i] == LowerChar(s[i])
  {
    if s == [] then [] else [LowerChar(s[0])] + ToLower(s[1..])
  }

  /** The case-insensitive Base16 alphabet of section 8 of RFC 4648: `[0-9a-fA-F]`. */
  predicate IsHexDigit(c: char) {
    '0' <= c <= '9' || 'a' <= c <= 'f' || 'A' <= c <= 'F'
  }

  /** The lower-case Base16 alphabet: `[0-9a-f]`. */
  predicate IsLowerHexDigit(c: char) {
    '0' <= c <= '9' || 'a' <= c <= 'f'
  }

  predicate IsHexString(s: string) {
    forall i :: 0 <= i < |s| ==> IsHexDigit(s[i])
  }

  predicate IsLowerHexString(s: string) {
    forall i :: 0 <= i < |s| ==> IsLowerHexDigit(s[i])
  }

  /** Lowercasing keeps a string in the hex alphabet and brings it into the lower-case one;
      conversely, a string whose lowercase is lower-case hex was hex to begin with. */
  lemma ToLowerHex(s: string)
    ensures IsHexString(s) <==> IsLowerHexString(ToLower(s))
  {
  }

  /** A string without upper-case ASCII letters is its own lowercase. */
  lemma ToLowerOfNoUpper(s: string)
    requires forall i :: 0 <= i < |s| ==> !('A' <= s[i] <= 'Z')
    ensures ToLower(s) == s
  {
  }

  /** A string already in the lower-case hex alphabet is its own lowercase. */
  lemma ToLowerOfLowerHex(s: string)
    requires IsLowerHexString(s)
    ensures ToLower(s) == s
  {
  }
}

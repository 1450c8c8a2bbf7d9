/** Character classes and string helpers, restricted to ASCII.
    Python's `\w` and `str.lower()` are Unicode-aware; this model assumes the
    text is ASCII, so a word character is a letter, a digit or `_`. */
module Text {

  predicate IsAsciiUpper(c: char) { 'A' <= c <= 'Z' }

  predicate IsAsciiLower(c: char) { 'a' <= c <= 'z' }

  predicate IsAsciiLetter(c: char) { IsAsciiUpper(c) || IsAsciiLower(c) }

  predicate IsDigit(c: char) { '0' <= c <= '9' }

  /** The characters of the regex class `\w` (ASCII reading). */
  predicate IsWordChar(c: char) { IsAsciiLetter(c) || IsDigit(c) || c == '_' }

  /** `str.lower()` on one ASCII character. */
  function LowerChar(c: char): (d: char)
    ensures !IsAsciiUpper(d)
    ensures IsAsciiLetter(d) <==> IsAsciiLetter(c)
    ensures IsWordChar(d) <==> IsWordChar(c)
    ensures !IsAsciiLetter(c) ==> d == c
  {
    if IsAsciiUpper(c) then (c as int - 'A' as int + 'a' as int) as char else c
  }

  /** `str.lower()`. */
  function Lower(s: string): string
  {
    seq(|s|, i requires 0 <= i < |s| => LowerChar(s[i]))
  }

  /** A string with no capital letter, i.e. one that `str.lower()` leaves alone. */
  predicate NoUpper(s: string)
  {
    forall i | 0 <= i < |s| :: !IsAsciiUpper(s[i])
  }

  lemma LowerIsLowercase(s: string)
    ensures NoUpper(Lower(s)) && |Lower(s)| == |s|
    ensures Lower(Lower(s)) == Lower(s)
  {
  }

  predicate EndsWith(s: string, suffix: string)
  {
    |suffix| <= |s| && s[|s| - |suffix|..] == suffix
  }

  /** `sub` occurs in `s` starting at index `i`. */
  predicate OccursAt(s: string, sub: string, i: int)
  {
    0 <= i <= |s| - |sub| && s[i..i + |sub|] == sub
  }

  /** `sub in s`. */
  predicate Contains(s: string, sub: string)
  {
    exists i | 0 <= i <= |s| - |sub| :: OccursAt(s, sub, i)
  }

  /** `sep.join(xs)`. */
  function Join(xs: seq<string>, sep: string): string
  {
    if |xs| == 0 then ""
    else if |xs| == 1 then xs[0]
    else xs[0] + sep + Join(xs[1..], sep)
  }
}

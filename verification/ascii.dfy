/**
 * Character classes and case mapping.
 *
 * The server calls Python's `str.islower`, `isupper`, `isdigit`, `isalnum`
 * and `lower`, which follow Unicode. This model uses their ASCII restriction:
 * a letter outside `a`-`z` / `A`-`Z` counts as a symbol here.
 */
module Ascii {

  predicate IsLower(c: char) { 'a' <= c <= 'z' }

  predicate IsUpper(c: char) { 'A' <= c <= 'Z' }

  predicate IsDigit(c: char) { '0' <= c <= '9' }

  predicate IsAlnum(c: char) { IsLower(c) || IsUpper(c) || IsDigit(c) }

  /** `c.lower()` for one character. */
  function ToLowerChar(c: char): (d: char)
    ensures !IsUpper(d)
    ensures IsLower(d) <==> IsLower(c) || IsUpper(c)
    ensures IsDigit(d) <==> IsDigit(c)
    ensures !IsUpper(c) ==> d == c
    ensures IsUpper(c) ==> d as int - 'a' as int == c as int - 'A' as int
  {
    if IsUpper(c) then (c as int + 32) as char else c
  }

  /** `s.lower()`: the same length, no upper-case letter left, everything else untouched. */
  function ToLower(s: string): (r: string)
    ensures |r| == |s|
    ensures forall i :: 0 <= i < |s| ==> r[i] == ToLowerChar(s[i])
    ensures forall i :: 0 <= i < |r| ==> !IsUpper(r[i])
  {
    seq(|s|, i requires 0 <= i < |s| => ToLowerChar(s[i]))
  }

  /** Python's `p in s` on two strings: `p` occurs contiguously in `s`. */
  predicate IsSubstring(p: string, s: string) {
    exists i | 0 <= i <= |s| - |p| :: OccursAt(p, s, i)
  }

  /** `p` occurs in `s` starting at index `i`. */
  predicate OccursAt(p: string, s: string, i: int) {
    0 <= i <= |s| - |p| && s[i..i + |p|] == p
  }
}

/**
 * The two string operations the flight filter relies on: upper-casing
 * (`String.prototype.toUpperCase`, restricted to ASCII letters) and substring
 * search (`String.prototype.includes`).
 */
module Strings {

  predicate IsLower(c: char) { 'a' <= c <= 'z' }

  /** Upper-case one character: ASCII lower-case letters map to their capital,
      every other character is left alone. */
  function UpperChar(c: char): (u: char)
    ensures !IsLower(u)
    ensures !IsLower(c) ==> u == c
    ensures IsLower(c) ==> 'A' <= u <= 'Z' && u as int - 'A' as int == c as int - 'a' as int
  {
    if IsLower(c) then (c as int - 'a' as int + 'A' as int) as char else c
  }

  /** Upper-case a whole string, character by character. */
  function Upper(s: string): (r: string)
    ensures |r| == |s|
    ensures forall i :: 0 <= i < |s| ==> r[i] == UpperChar(s[i])
  {
    if s == [] then [] else [UpperChar(s[0])] + Upper(s[1..])
  }

  /** Upper-casing twice is upper-casing once, and only the empty string
      upper-cases to the empty string. */
  lemma UpperIdempotent(s: string)
    ensures Upper(Upper(s)) == Upper(s)
    ensures Upper(s) == [] <==> s == []
  {
  }

  /** `sub` occurs in `s` starting at index `i`. */
  predicate OccursAt(s: string, sub: string, i: int) {
    0 <= i && i + |sub| <= |s| && s[i..i + |sub|] == sub
  }

  /** `s.includes(sub)`: `sub` occurs in `s` at some index. A string never
      contains a longer one, and contains one of its own length only when the
      two are equal. */
  function Contains(s: string, sub: string): (b: bool)
    ensures b ==> |sub| <= |s|
    ensures |sub| == |s| ==> (b <==> sub == s)
  {
    assert sub == s ==> OccursAt(s, sub, 0);
    exists i :: 0 <= i <= |s| - |sub| && OccursAt(s, sub, i)
  }

  /** A string that lacks one of the characters of `sub` does not contain
      `sub`. */
  lemma MissingCharNotContained(s: string, sub: string, k: nat)
    requires k < |sub| && sub[k] !in s
    ensures !Contains(s, sub)
  {
    forall i | 0 <= i && i + |sub| <= |s|
      ensures !OccursAt(s, sub, i)
    {
      assert s[i..i + |sub|][k] == s[i + k];
      assert s[i + k] in s;
    }
  }

  /** Every string contains the empty string. */
  lemma ContainsEmpty(s: string)
    ensures Contains(s, [])
  {
    assert OccursAt(s, [], 0);
  }
}

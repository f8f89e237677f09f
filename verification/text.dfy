/** The two string operations the keyword rules rely on: `toLowerCase`
    (ASCII letters only) and `includes`. */
module Text {

  function LowerChar(c: char): char {
    if 'A' <= c <= 'Z' then (c as int + 32) as char else c
  }

  /** `s.toLowerCase()`, letter by letter. */
  function Lower(s: string): (r: string)
    ensures |r| == |s|
    ensures forall i :: 0 <= i < |s| ==> r[i] == LowerChar(s[i])
  {
    if s == [] then [] else [LowerChar(s[0])] + Lower(s[1..])
  }

  /** Lower-casing twice is lower-casing once. */
  lemma LowerIdempotent(s: string)
    ensures Lower(Lower(s)) == Lower(s)
  {
  }

  /** `sub` occurs in `s` starting at position `i`. */
  predicate OccursAt(s: string, sub: string, i: nat) {
    i + |sub| <= |s| && s[i..i + |sub|] == sub
  }

  /** `s.includes(sub)`: `sub` occurs at some position of `s`. */
  predicate Includes(s: string, sub: string) {
    exists i: nat :: i <= |s| && OccursAt(s, sub, i)
  }

  /** Some word of `words` occurs in `s`: a chain of `includes` joined by `||`. */
  predicate IncludesAny(s: string, words: seq<string>) {
    exists k :: 0 <= k < |words| && Includes(s, words[k])
  }

  /** A word whose first letter does not occur in `s` is not included in it. */
  lemma FirstLetterAbsent(s: string, w: string)
    requires w != [] && w[0] !in s
    ensures !Includes(s, w)
  {
  }
}

/** The two string operations the list filters rely on: `toLowerCase` and
    `indexOf`, with JavaScript's meaning. */
module Strings {

  /** Lower-cases one character; only the ASCII letters A-Z are mapped. */
  function LowerChar(c: char): char
  {
    if 'A' <= c <= 'Z' then (c as int + 32) as char else c
  }

  /** `s.toLowerCase()`, restricted to ASCII letters: each upper-case ASCII
      letter becomes its lower-case letter, so none is left, and every other
      character is kept in place. */
  function Lower(s: string): (r: string)
    ensures |r| == |s|
    ensures forall i :: 0 <= i < |s| && 'A' <= s[i] <= 'Z' ==> r[i] == (s[i] as int + 32) as char
    ensures forall i :: 0 <= i < |r| ==> !('A' <= r[i] <= 'Z')
    ensures forall i :: 0 <= i < |s| && !('A' <= s[i] <= 'Z') ==> r[i] == s[i]
  {
    seq(|s|, i requires 0 <= i < |s| => LowerChar(s[i]))
  }

  /** Lower-casing twice is lower-casing once. */
  lemma LowerIdempotent(s: string)
    ensures Lower(Lower(s)) == Lower(s)
    ensures |Lower(s)| == |s|
  {
  }

  /** Does `t` occur in `s` starting at position `k`? */
  predicate OccursAt(s: string, t: string, k: int)
  {
    0 <= k && k + |t| <= |s| && s[k..k + |t|] == t
  }

  /** `s.indexOf(t, from)` for `from <= |s|`: the first position at or after
      `from` where `t` occurs in `s`, or -1 when there is none. (JavaScript
      clamps a larger `from` to `|s|`; `IndexOf` never passes one.) */
  function IndexFrom(s: string, t: string, from: nat): (r: int)
    decreases |s| + 1 - from
    ensures r == -1 || (from <= r && OccursAt(s, t, r))
    ensures forall k :: from <= k < (if r == -1 then |s| + 1 else r) ==> !OccursAt(s, t, k)
  {
    if from + |t| > |s| then -1
    else if s[from..from + |t|] == t then from
    else IndexFrom(s, t, from + 1)
  }

  /** `s.indexOf(t)`: the first occurrence of `t` in `s`, or -1. */
  function IndexOf(s: string, t: string): (r: int)
    ensures r == -1 || OccursAt(s, t, r)
    ensures forall k :: 0 <= k < (if r == -1 then |s| + 1 else r) ==> !OccursAt(s, t, k)
  {
    IndexFrom(s, t, 0)
  }

  /** The empty string is found at position 0 of every string. */
  lemma EmptyFoundFirst(s: string)
    ensures IndexOf(s, "") == 0
  {
    assert OccursAt(s, "", 0);
  }

  /** `indexOf` finds something exactly when there is an occurrence. */
  lemma IndexOfFinds(s: string, t: string)
    ensures IndexOf(s, t) > -1 <==> exists k :: OccursAt(s, t, k)
  {
    if IndexOf(s, t) == -1 {
      assert forall k :: OccursAt(s, t, k) ==> 0 <= k < |s| + 1;
    }
  }
}

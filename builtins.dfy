/**
 * The JavaScript built-ins src/fetch-please.js relies on: `String.prototype.toLowerCase`,
 * `String.prototype.indexOf` and `Array.prototype.indexOf`.
 */
module Builtins {

  /** `s` occurs in `t` starting at position `i`. */
  predicate OccursAt(t: string, s: string, i: nat) {
    i + |s| <= |t| && t[i..i + |s|] == s
  }

  /**
   * `t.indexOf(s, from)` for a start position within `t`: the first position at
   * or after `from` where `s` occurs, or -1. JavaScript clamps a start beyond the
   * end to `|t|`; the only call here starts at 0.
   */
  function IndexOfFrom(t: string, s: string, from: nat): (r: int)
    requires from <= |t|
    ensures r == -1 || (from <= r && OccursAt(t, s, r))
    ensures r == -1 <==> forall i :: from <= i ==> !OccursAt(t, s, i)
    ensures r != -1 ==> forall i :: from <= i < r ==> !OccursAt(t, s, i)
    decreases |t| - from
  {
    if from + |s| > |t| then -1
    else if OccursAt(t, s, from) then from
    else IndexOfFrom(t, s, from + 1)
  }

  /** `t.indexOf(s)` */
  function IndexOf(t: string, s: string): int {
    IndexOfFrom(t, s, 0)
  }

  /** `t.indexOf(s) !== -1`: `s` is a substring of `t`. */
  predicate Includes(t: string, s: string) {
    IndexOf(t, s) != -1
  }

  /** `Includes` holds exactly when `s` occurs somewhere in `t`. */
  lemma IncludesIff(t: string, s: string)
    ensures Includes(t, s) <==> exists i: nat :: OccursAt(t, s, i)
  {
    if Includes(t, s) {
      assert OccursAt(t, s, IndexOf(t, s) as nat);
    }
  }

  /** Lower-cases one character; only the ASCII letters A-Z change. */
  function LowerChar(c: char): char {
    if 'A' <= c <= 'Z' then (c as int + ('a' as int - 'A' as int)) as char else c
  }

  /** `s.toLowerCase()`, restricted to the ASCII letters. */
  function ToLower(s: string): (r: string)
    ensures |r| == |s|
    ensures forall i :: 0 <= i < |s| ==> r[i] == LowerChar(s[i])
  {
    seq(|s|, i requires 0 <= i < |s| => LowerChar(s[i]))
  }

  /** `a.indexOf(x)` for an array: the first position holding `x`, or -1. */
  function ArrayIndexOf<T(==)>(a: seq<T>, x: T): (r: int)
    ensures r == -1 <==> x !in a
    ensures r != -1 ==> 0 <= r < |a| && a[r] == x && x !in a[..r]
  {
    if a == [] then -1
    else if a[0] == x then 0
    else
      var k := ArrayIndexOf(a[1..], x);
      assert k != -1 ==> a[..k + 1] == [a[0]] + a[1..][..k];
      if k == -1 then -1 else k + 1
  }
}

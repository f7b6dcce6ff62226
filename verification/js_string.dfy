/**
 * The two JavaScript string and array built-ins the route handlers rely on:
 * `String.prototype.indexOf` (used to test a URL prefix and a content type)
 * and `Array.prototype.join` (used to build upstream paths).
 */
module JsString {

  /** `sub` occurs in `s` starting at index `i`. */
  predicate OccursAt(s: string, sub: string, i: int) {
    0 <= i && i + |sub| <= |s| && s[i..i + |sub|] == sub
  }

  /** The first index at or after `from` where `sub` occurs in `s`, or -1. */
  function IndexOfFrom(s: string, sub: string, from: nat): (r: int)
    decreases |s| - from
    ensures r == -1 || (from <= r && OccursAt(s, sub, r))
    ensures forall j :: from <= j && (r == -1 || j < r) ==> !OccursAt(s, sub, j)
  {
    if from + |sub| > |s| then -1
    else if s[from..from + |sub|] == sub then from
    else IndexOfFrom(s, sub, from + 1)
  }

  /**
   * `s.indexOf(sub)`: the least index at which `sub` occurs in `s`, or -1 when
   * it occurs nowhere. The empty string occurs at 0.
   */
  function IndexOf(s: string, sub: string): (r: int)
    ensures r == -1 || OccursAt(s, sub, r)
    ensures r == -1 <==> forall j :: !OccursAt(s, sub, j)
    ensures forall j :: 0 <= j < r ==> !OccursAt(s, sub, j)
  {
    IndexOfFrom(s, sub, 0)
  }

  /** `s.indexOf(sub) >= 0` holds exactly when `sub` is a substring of `s`. */
  predicate Contains(s: string, sub: string) {
    IndexOf(s, sub) >= 0
  }

  /**
   * `s.indexOf(prefix) === 0` holds exactly when `prefix` is a prefix of `s`:
   * the test the URL normaliser uses.
   */
  lemma IndexOfZeroIsPrefix(s: string, prefix: string)
    ensures IndexOf(s, prefix) == 0 <==> prefix <= s
  {
  }

  /** `parts.join(sep)`: the parts in order with `sep` between neighbours. */
  function Join(parts: seq<string>, sep: string): string {
    if |parts| == 0 then ""
    else if |parts| == 1 then parts[0]
    else parts[0] + sep + Join(parts[1..], sep)
  }
}

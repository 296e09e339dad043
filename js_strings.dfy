/**
 * The small part of JavaScript's value semantics the breadcrumb header relies on:
 * optional values (`undefined`), the truthiness of an optional string, and the
 * string methods `lastIndexOf` and `includes`.
 */
module JsStrings {

  /** An optional value: `None` stands for JavaScript's `undefined`. */
  datatype Option<+T> = None | Some(value: T)

  /** JavaScript truthiness of a string that may be `undefined`: both `undefined` and `""` are falsy. */
  predicate Truthy(s: Option<string>) {
    s.Some? && s.value != ""
  }

  /**
   * `s.lastIndexOf(c)` for a one-character search string: the largest index holding `c`,
   * or -1 when `c` does not occur in `s`.
   */
  function LastIndexOf(s: string, c: char): (r: int)
    ensures -1 <= r < |s|
    ensures r == -1 <==> c !in s
    ensures 0 <= r ==> s[r] == c && c !in s[r + 1..]
    decreases |s|
  {
    if |s| == 0 then -1
    else if s[|s| - 1] == c then |s| - 1
    else
      assert s == s[..|s| - 1] + [s[|s| - 1]];
      LastIndexOf(s[..|s| - 1], c)
  }

  /** `p` occurs in `s` starting at index `i`. */
  ghost predicate OccursAt(s: string, p: string, i: nat) {
    i + |p| <= |s| && s[i..i + |p|] == p
  }

  /** `p` occurs somewhere in `s`: the meaning of `s.includes(p)`. */
  ghost predicate Contains(s: string, p: string) {
    exists i: nat :: OccursAt(s, p, i)
  }

  /** An occurrence in `s[1..]` is an occurrence in `s`, one index later, and vice versa. */
  lemma OccursAtTail(s: string, p: string, i: nat)
    requires |s| > 0
    ensures OccursAt(s[1..], p, i) <==> OccursAt(s, p, i + 1)
  {
    if i + 1 + |p| <= |s| {
      assert s[1..][i..i + |p|] == s[i + 1..i + 1 + |p|];
    }
  }

  /** Without an occurrence at index 0, `p` occurs in `s` exactly when it occurs in `s[1..]`. */
  lemma {:induction false} ContainsTail(s: string, p: string)
    requires |s| > 0 && !OccursAt(s, p, 0)
    ensures Contains(s, p) <==> Contains(s[1..], p)
  {
    if Contains(s, p) {
      var i: nat :| OccursAt(s, p, i);
      OccursAtTail(s, p, i - 1);
    }
    if Contains(s[1..], p) {
      var i: nat :| OccursAt(s[1..], p, i);
      OccursAtTail(s, p, i);
    }
  }

  /** `s.includes(p)`: tries every start position from the left. */
  function Includes(s: string, p: string): (b: bool)
    ensures b <==> Contains(s, p)
    decreases |s|
  {
    if |p| <= |s| && s[..|p|] == p then
      assert OccursAt(s, p, 0);
      true
    else if |s| == 0 then
      assert forall i: nat :: !OccursAt(s, p, i);
      false
    else
      ContainsTail(s, p);
      Includes(s[1..], p)
  }

  /** Every character of a string that occurs in `s` is itself a character of `s`. */
  lemma {:induction false} ContainsKeepsChars(s: string, p: string, c: char)
    requires Contains(s, p) && c in p
    ensures c in s
  {
    var i: nat :| OccursAt(s, p, i);
    var k :| 0 <= k < |p| && p[k] == c;
    assert s[i..i + |p|][k] == s[i + k];
  }
}

/** The JavaScript string behaviour the extension's scripts rely on:
    optional fields, truthiness, `||` defaults, `includes`, a `^`-anchored
    prefix test and `toLowerCase` (on ASCII letters). */
module Strings {

  datatype Option<T> = None | Some(value: T)

  /** JavaScript truthiness of an optional string field. */
  function Truthy(o: Option<string>): (b: bool)
    ensures !b <==> o == None || o == Some("")
  {
    o.Some? && o.value != ""
  }

  /** `o || fallback` for an optional string field. */
  function Or(o: Option<string>, fallback: string): (r: string)
    ensures Truthy(o) ==> Some(r) == o
    ensures !Truthy(o) ==> r == fallback
    ensures fallback != "" ==> r != ""
  {
    if Truthy(o) then o.value else fallback
  }

  /** t occurs in s starting at index i. */
  predicate OccursAt(s: string, t: string, i: int) {
    0 <= i && i + |t| <= |s| && s[i..i + |t|] == t
  }

  /** `s.includes(t)`: t occurs somewhere in s. */
  function Contains(s: string, t: string): (b: bool)
    ensures b ==> |t| <= |s|
    ensures StartsWith(s, t) ==> b
  {
    assert StartsWith(s, t) ==> OccursAt(s, t, 0);
    exists i :: 0 <= i <= |s| - |t| && OccursAt(s, t, i)
  }

  /** A `^`-anchored prefix test: s starts with p. */
  predicate StartsWith(s: string, p: string) {
    |p| <= |s| && s[..|p|] == p
  }

  /** Appending text never removes an occurrence. */
  lemma ContainsAppend(s: string, u: string, t: string)
    requires Contains(s, t)
    ensures Contains(s + u, t)
  {
    var i :| 0 <= i <= |s| - |t| && OccursAt(s, t, i);
    assert (s + u)[i..i + |t|] == s[i..i + |t|];
    assert OccursAt(s + u, t, i);
  }

  /** Prepending text never removes an occurrence. */
  lemma ContainsPrepend(u: string, s: string, t: string)
    requires Contains(s, t)
    ensures Contains(u + s, t)
  {
    var i :| 0 <= i <= |s| - |t| && OccursAt(s, t, i);
    assert (u + s)[|u| + i..|u| + i + |t|] == s[i..i + |t|];
    assert OccursAt(u + s, t, |u| + i);
  }

  /** Containment is transitive. */
  lemma ContainsSub(s: string, t: string, u: string)
    requires Contains(s, t) && Contains(t, u)
    ensures Contains(s, u)
  {
    var i :| 0 <= i <= |s| - |t| && OccursAt(s, t, i);
    var j :| 0 <= j <= |t| - |u| && OccursAt(t, u, j);
    forall k | 0 <= k < |u|
      ensures s[i + j + k] == u[k]
    {
      assert s[i + j + k] == s[i..i + |t|][j + k];
      assert u[k] == t[j..j + |u|][k];
    }
    assert s[i + j..i + j + |u|] == u;
    assert OccursAt(s, u, i + j);
  }

  /** A text that lacks one of t's characters cannot contain t. */
  lemma MissingChar(s: string, t: string, c: char)
    requires c in t && c !in s
    ensures !Contains(s, t)
  {
    var k :| 0 <= k < |t| && t[k] == c;
    forall i | 0 <= i && i + |t| <= |s|
      ensures !OccursAt(s, t, i)
    {
      assert s[i..i + |t|][k] == s[i + k];
    }
  }

  /** `toLowerCase` on one character; only ASCII letters are folded. */
  function LowerChar(c: char): (r: char)
    ensures 'A' <= c <= 'Z' ==> 'a' <= r <= 'z'
    ensures !('A' <= c <= 'Z') ==> r == c
  {
    if 'A' <= c <= 'Z' then (c as int + 32) as char else c
  }

  /** `s.toLowerCase()` on ASCII letters. */
  function Lower(s: string): (r: string)
    ensures |r| == |s|
    ensures forall i :: 0 <= i < |s| ==> r[i] == LowerChar(s[i])
  {
    if s == [] then [] else [LowerChar(s[0])] + Lower(s[1..])
  }

  /** Lowering twice is lowering once. */
  lemma LowerIdempotent(s: string)
    ensures Lower(Lower(s)) == Lower(s)
  {
    assert forall i :: 0 <= i < |s| ==> Lower(Lower(s))[i] == Lower(s)[i];
  }
}

// The two string operations the scoring and content routers use: `str.lower()`
// and the substring test `kw in text`.
module Text {

  /** `str.lower()` on one character, restricted to ASCII letters. */
  function LowerChar(c: char): (r: char)
    ensures 'A' <= c <= 'Z' ==> r as int == c as int + 32
    ensures !('A' <= c <= 'Z') ==> r == c
  {
    if 'A' <= c <= 'Z' then (c as int + 32) as char else c
  }

  function Lower(s: string): (r: string)
    ensures |r| == |s| && forall i :: 0 <= i < |s| ==> r[i] == LowerChar(s[i])
  {
    seq(|s|, i requires 0 <= i < |s| => LowerChar(s[i]))
  }

  /** Lower-casing twice is lower-casing once. */
  lemma LowerIdempotent(s: string)
    ensures Lower(Lower(s)) == Lower(s)
  {
    forall i | 0 <= i < |s|
      ensures Lower(Lower(s))[i] == Lower(s)[i]
    {
      assert !('A' <= LowerChar(s[i]) <= 'Z');
    }
  }

  /** `sub` occurs in `s` starting at position `i`. */
  predicate OccursAt(sub: string, s: string, i: nat)
  {
    i + |sub| <= |s| && s[i..i + |sub|] == sub
  }

  /** Python's `sub in s`. */
  function IsSubstring(sub: string, s: string): (r: bool)
    ensures r <==> exists i: nat :: OccursAt(sub, s, i)
  {
    if |sub| > |s| then false
    else if s[..|sub|] == sub then
      assert OccursAt(sub, s, 0);
      true
    else
      var r := IsSubstring(sub, s[1..]);
      assert forall i: nat :: OccursAt(sub, s[1..], i) <==> OccursAt(sub, s, i + 1);
      assert !OccursAt(sub, s, 0);
      assert forall i: nat :: OccursAt(sub, s, i) && i > 0 ==> OccursAt(sub, s[1..], i - 1);
      r
  }

  /** Python's `any(kw in s for kw in keywords)`. */
  function ContainsAny(keywords: seq<string>, s: string): (r: bool)
    ensures r <==> exists k :: 0 <= k < |keywords| && IsSubstring(keywords[k], s)
  {
    if |keywords| == 0 then false
    else IsSubstring(keywords[0], s) || ContainsAny(keywords[1..], s)
  }
}

/** The string operations the monitor relies on: ASCII `str.lower()`, prefix tests,
    and Python's substring test `p in s`. */
module Text {

  /** `str.lower()` restricted to ASCII letters: each capital becomes its own small
      letter and every other character is kept. */
  function LowerChar(c: char): (r: char)
    ensures !('A' <= r <= 'Z')
    ensures 'a' <= r <= 'z' <==> 'a' <= c <= 'z' || 'A' <= c <= 'Z'
    ensures !('A' <= c <= 'Z') ==> r == c
    ensures 'A' <= c <= 'Z' ==> r as int - 'a' as int == c as int - 'A' as int
  {
    if 'A' <= c <= 'Z' then (c as int + 32) as char else c
  }

  /** `s.lower()`, character by character. */
  function Lower(s: string): (r: string)
    ensures |r| == |s|
    ensures forall i :: 0 <= i < |s| ==> r[i] == LowerChar(s[i])
  {
    seq(|s|, i requires 0 <= i < |s| => LowerChar(s[i]))
  }

  predicate HasPrefix(s: string, p: string)
  {
    |p| <= |s| && s[..|p|] == p
  }

  lemma PrefixOfAppend(p: string, s: string)
    ensures HasPrefix(p + s, p)
    ensures (p + s)[|p|..] == s
  {
    assert (p + s)[..|p|] == p;
  }

  /** Reference meaning of a substring: `p` occurs in `s` at offset `i`. */
  ghost predicate OccursAt(p: string, s: string, i: nat)
  {
    i + |p| <= |s| && s[i..i + |p|] == p
  }

  /** Python's `p in s` for strings: the empty pattern occurs in every string, and no
      pattern occurs in a shorter string. */
  function Contains(p: string, s: string): (r: bool)
    ensures p == [] ==> r
    ensures |s| < |p| ==> !r
    decreases |s|
  {
    if HasPrefix(s, p) then true
    else if s == [] then false
    else Contains(p, s[1..])
  }

  lemma {:induction false} ContainsOccurs(p: string, s: string)
    ensures Contains(p, s) <==> exists i: nat :: OccursAt(p, s, i)
    decreases |s|
  {
    assert HasPrefix(s, p) <==> OccursAt(p, s, 0);
    if !HasPrefix(s, p) && s != [] {
      ContainsOccurs(p, s[1..]);
      forall i: nat
        ensures OccursAt(p, s[1..], i) <==> OccursAt(p, s, i + 1)
      {
        if i + 1 + |p| <= |s| {
          assert s[1..][i..i + |p|] == s[i + 1..i + 1 + |p|];
        }
      }
      if exists i: nat :: OccursAt(p, s, i) {
        var i: nat :| OccursAt(p, s, i);
        assert i != 0;
        assert OccursAt(p, s[1..], i - 1);
      }
    }
  }
}

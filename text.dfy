/**
  String helpers shared by the server, the client and the browser code:
  lower-casing (`String.prototype.toLowerCase`), `startsWith` and `includes`.
  Strings are sequences of characters; only ASCII letters change case.
 */
module Text {

  /** `toLowerCase` on one character: A-Z become a-z, everything else is kept. */
  function LowerChar(c: char): char
  {
    if 'A' <= c <= 'Z' then (c as int + 32) as char else c
  }

  /** `toLowerCase` on a whole string: each upper-case ASCII letter becomes its lower-case letter, and every other character is kept. */
  function Lower(s: string): (r: string)
    ensures |r| == |s|
    ensures forall i :: 0 <= i < |r| ==> !('A' <= r[i] <= 'Z')
    ensures forall i :: 0 <= i < |s| && !('A' <= s[i] <= 'Z') ==> r[i] == s[i]
    ensures forall i :: 0 <= i < |s| && 'A' <= s[i] <= 'Z' ==> r[i] as int == s[i] as int + 32
  {
    seq(|s|, i requires 0 <= i < |s| => LowerChar(s[i]))
  }

  /** `s.startsWith(p)`. */
  predicate StartsWith(s: string, p: string)
  {
    |p| <= |s| && s[..|p|] == p
  }

  /** `s.endsWith(p)`. */
  predicate EndsWith(s: string, p: string)
  {
    |p| <= |s| && s[|s| - |p|..] == p
  }

  /** `s.includes(k)`: `k` occurs somewhere in `s` as a contiguous substring. */
  predicate Contains(s: string, k: string)
    ensures Contains(s, k) ==> |k| <= |s|
    ensures StartsWith(s, k) ==> Contains(s, k)
  {
    assert s[0..] == s;
    exists i :: 0 <= i <= |s| && StartsWith(s[i..], k)
  }

  /** Lower-casing twice is lower-casing once. */
  lemma LowerIdempotent(s: string)
    ensures Lower(Lower(s)) == Lower(s)
  {
    forall i | 0 <= i < |s|
      ensures Lower(Lower(s))[i] == Lower(s)[i]
    {
    }
  }

  /** A concatenation starts with its left part, and with any prefix of it. */
  lemma StartsWithAppend(a: string, b: string, c: string)
    ensures StartsWith(a + b, a)
    ensures StartsWith((a + b) + c, a)
  {
    assert (a + b)[..|a|] == a;
    assert ((a + b) + c)[..|a|] == a;
  }

  /** A concatenation ends with its right part. */
  lemma EndsWithAppend(a: string, b: string)
    ensures EndsWith(a + b, b)
  {
    assert (a + b)[|a|..] == b;
  }

  /** A string that starts with `p + q` starts with `p`. */
  lemma StartsWithShorter(s: string, p: string, q: string)
    requires StartsWith(s, p + q)
    ensures StartsWith(s, p)
  {
    assert s[..|p|] == (p + q)[..|p|];
  }

  /** Two prefixes of the same string agree wherever both are defined. */
  lemma PrefixesAgree(s: string, p: string, q: string, i: int)
    requires StartsWith(s, p) && StartsWith(s, q)
    requires 0 <= i < |p| && i < |q|
    ensures p[i] == q[i]
  {
    assert p[i] == s[..|p|][i] && q[i] == s[..|q|][i];
  }
}

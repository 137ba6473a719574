/**
 * The few `String.prototype` operations the application relies on:
 * `toLowerCase`, `startsWith`, `includes` and `split` with a one-character
 * separator.  Strings are sequences of characters.
 */
module Strings {

  /** Lower-cases one character; only the ASCII letters A-Z are changed. */
  function LowerChar(c: char): char {
    if 'A' <= c <= 'Z' then (c as int + 32) as char else c
  }

  /** `s.toLowerCase()`, character by character. */
  function ToLower(s: string): (r: string)
    ensures |r| == |s|
    ensures forall i :: 0 <= i < |s| ==> r[i] == LowerChar(s[i])
  {
    if s == [] then [] else [LowerChar(s[0])] + ToLower(s[1..])
  }

  lemma ToLowerIdempotent(s: string)
    ensures ToLower(ToLower(s)) == ToLower(s)
  {
  }

  /** `s.startsWith(p)`. */
  predicate StartsWith(s: string, p: string) {
    p <= s
  }

  /** `s.includes(t)`: some suffix of `s` starts with `t`. */
  predicate Contains(s: string, t: string) {
    t <= s || (s != [] && Contains(s[1..], t))
  }

  /** `t` occurs in `s` starting at index `i`. */
  ghost predicate OccursAt(s: string, t: string, i: int) {
    0 <= i && i + |t| <= |s| && s[i..i + |t|] == t
  }

  /** `Contains` is substring search: it holds exactly when `t` occurs somewhere in `s`. */
  lemma {:induction false} ContainsIff(s: string, t: string)
    ensures Contains(s, t) <==> exists i :: OccursAt(s, t, i)
  {
    assert t <= s <==> OccursAt(s, t, 0);
    if s != [] {
      ContainsIff(s[1..], t);
      forall i | OccursAt(s[1..], t, i) ensures OccursAt(s, t, i + 1) {
        assert s[i + 1..i + 1 + |t|] == s[1..][i..i + |t|];
      }
      forall i | OccursAt(s, t, i) && i > 0 ensures OccursAt(s[1..], t, i - 1) {
        assert i - 1 + |t| <= |s[1..]|;
        var a, b := s[1..][i - 1..i - 1 + |t|], s[i..i + |t|];
        assert forall k :: 0 <= k < |t| ==> a[k] == b[k];
        assert a == b;
      }
    }
  }

  /** The empty string is contained in every string (`"abc".includes("")` is true). */
  lemma ContainsEmpty(s: string)
    ensures Contains(s, "")
  {
  }

  /** The characters of `s` before the first `c` (all of `s` when there is none). */
  function Before(s: string, c: char): (r: string)
    ensures r <= s && c !in r
    ensures |r| < |s| ==> s[|r|] == c
  {
    if s == [] || s[0] == c then [] else [s[0]] + Before(s[1..], c)
  }

  /** `s.split(c)` for a one-character separator: the pieces between separators, never none. */
  function SplitOn(s: string, c: char): (r: seq<string>)
    ensures |r| >= 1
  {
    if s == [] then [""]
    else
      var rest := SplitOn(s[1..], c);
      if s[0] == c then [""] + rest else [[s[0]] + rest[0]] + rest[1..]
  }

  /** The first piece of a split is the text before the first separator. */
  lemma {:induction false} SplitFirst(s: string, c: char)
    ensures SplitOn(s, c)[0] == Before(s, c)
  {
    if s != [] && s[0] != c {
      SplitFirst(s[1..], c);
    }
  }

  /** A separator-free prefix followed by a separator splits off as one piece. */
  lemma {:induction false} SplitAfter(p: string, c: char, q: string)
    requires c !in p
    ensures SplitOn(p + [c] + q, c) == [p] + SplitOn(q, c)
  {
    if p == [] {
      assert p + [c] + q == [c] + q;
      assert ([c] + q)[1..] == q;
    } else {
      SplitAfter(p[1..], c, q);
      assert (p + [c] + q)[1..] == p[1..] + [c] + q;
      assert [p[0]] + p[1..] == p;
    }
  }
}

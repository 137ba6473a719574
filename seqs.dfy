/** `Array.prototype.filter` and the facts about it that the pages rely on. */
module Seqs {

  /** `s.filter(p)`: the elements satisfying `p`, in their original order. */
  function Filter<T>(s: seq<T>, p: T -> bool): (r: seq<T>)
    ensures |r| <= |s|
    ensures forall x :: x in r ==> x in s && p(x)
  {
    if s == [] then [] else (if p(s[0]) then [s[0]] else []) + Filter(s[1..], p)
  }

  /** `a` is obtained from `b` by deleting some elements (order is kept). */
  predicate IsSubseq<T(==)>(a: seq<T>, b: seq<T>) {
    if a == [] then true
    else if b == [] then false
    else (a[0] == b[0] && IsSubseq(a[1..], b[1..])) || IsSubseq(a, b[1..])
  }

  /** Filtering keeps the relative order of what it keeps. */
  lemma {:induction false} FilterIsSubseq<T>(s: seq<T>, p: T -> bool)
    ensures IsSubseq(Filter(s, p), s)
  {
    if s != [] {
      FilterIsSubseq(s[1..], p);
      if p(s[0]) {
        assert Filter(s, p) == [s[0]] + Filter(s[1..], p);
      } else {
        assert Filter(s, p) == Filter(s[1..], p);
      }
    }
  }

  /** Filtering keeps every copy of an element satisfying `p` and no copy of any other. */
  lemma {:induction false} FilterMultiset<T>(s: seq<T>, p: T -> bool, x: T)
    ensures multiset(Filter(s, p))[x] == if p(x) then multiset(s)[x] else 0
  {
    if s != [] {
      FilterMultiset(s[1..], p, x);
      assert s == [s[0]] + s[1..];
    }
  }

  /** An element is kept exactly when it is in the input and satisfies the predicate. */
  lemma FilterMembers<T>(s: seq<T>, p: T -> bool)
    ensures forall x :: x in Filter(s, p) <==> x in s && p(x)
  {
    forall x | x in s && p(x) ensures x in Filter(s, p) {
      FilterMultiset(s, p, x);
    }
  }

  /** When every element satisfies `p`, filtering changes nothing. */
  lemma {:induction false} FilterAll<T>(s: seq<T>, p: T -> bool)
    requires forall i :: 0 <= i < |s| ==> p(s[i])
    ensures Filter(s, p) == s
  {
    if s != [] {
      FilterAll(s[1..], p);
      assert [s[0]] + s[1..] == s;
    }
  }

  /** Filtering a concatenation filters each part. */
  lemma {:induction false} FilterConcat<T>(a: seq<T>, b: seq<T>, p: T -> bool)
    ensures Filter(a + b, p) == Filter(a, p) + Filter(b, p)
  {
    if a == [] {
      assert a + b == b;
    } else {
      var head := if p(a[0]) then [a[0]] else [];
      FilterConcat(a[1..], b, p);
      assert (a + b)[0] == a[0] && (a + b)[1..] == a[1..] + b;
      assert Filter(a + b, p) == head + Filter(a[1..] + b, p);
      assert Filter(a, p) == head + Filter(a[1..], p);
    }
  }

  /** When exactly the element at `k` fails `p`, filtering deletes just that position. */
  lemma FilterRemovesOne<T>(s: seq<T>, p: T -> bool, k: int)
    requires 0 <= k < |s| && !p(s[k])
    requires forall i :: 0 <= i < |s| && i != k ==> p(s[i])
    ensures Filter(s, p) == s[..k] + s[k + 1..]
  {
    var front, rest := s[..k], s[k..];
    assert s == front + rest;
    FilterConcat(front, rest, p);
    FilterKeepsFront(s, p, k);
    FilterDropsAt(s, p, k);
  }

  /** A prefix whose elements all satisfy `p` passes through unchanged. */
  lemma FilterKeepsFront<T>(s: seq<T>, p: T -> bool, k: int)
    requires 0 <= k <= |s|
    requires forall i :: 0 <= i < k ==> p(s[i])
    ensures Filter(s[..k], p) == s[..k]
  {
    var front := s[..k];
    assert forall i :: 0 <= i < |front| ==> front[i] == s[i];
    FilterAll(front, p);
  }

  /** A suffix that fails `p` only at its first element loses just that element. */
  lemma FilterDropsAt<T>(s: seq<T>, p: T -> bool, k: int)
    requires 0 <= k < |s| && !p(s[k])
    requires forall i :: k < i < |s| ==> p(s[i])
    ensures Filter(s[k..], p) == s[k + 1..]
  {
    var rest, back := s[k..], s[k + 1..];
    assert rest[0] == s[k] && rest[1..] == back;
    assert forall i :: 0 <= i < |back| ==> back[i] == s[k + 1 + i];
    FilterAll(back, p);
  }
}

/**
 * Generic list operations shared by the model: `Array.prototype.filter`,
 * `slice(0, n)` and `map`, with the facts the rest of the model relies on.
 */
module Seqs {

  /** `s.filter(p)`: the elements of `s` that satisfy `p`, in order. */
  function Filter<T>(p: T -> bool, s: seq<T>): (r: seq<T>)
    ensures |r| <= |s|
    ensures forall x :: x in r ==> x in s && p(x)
    ensures forall x :: x in s && p(x) ==> x in r
  {
    if s == [] then [] else (if p(s[0]) then [s[0]] else []) + Filter(p, s[1..])
  }

  /** `r` is obtained from `s` by deleting elements, keeping the order of the rest. */
  ghost predicate IsSubsequence<T>(r: seq<T>, s: seq<T>)
    decreases |s|
  {
    if s == [] then r == []
    else (r != [] && r[0] == s[0] && IsSubsequence(r[1..], s[1..])) || IsSubsequence(r, s[1..])
  }

  /**
   * `s.slice(0, n)`: a non-negative `n` keeps at most `n` elements; a
   * negative `n` counts back from the end and drops the last `-n` elements.
   */
  function Take<T>(s: seq<T>, n: int): (r: seq<T>)
    ensures |r| == if n >= |s| then |s| else if n >= 0 then n else if |s| + n > 0 then |s| + n else 0
    ensures forall i :: 0 <= i < |r| ==> r[i] == s[i]
    ensures forall x :: x in r ==> x in s
  {
    if n >= |s| then s else if n >= 0 then s[..n] else if |s| + n > 0 then s[..|s| + n] else []
  }

  /** `s.map(f)`. */
  function Map<T, U>(f: T -> U, s: seq<T>): (r: seq<U>)
    ensures |r| == |s|
    ensures forall i :: 0 <= i < |s| ==> r[i] == f(s[i])
  {
    if s == [] then [] else [f(s[0])] + Map(f, s[1..])
  }

  lemma {:induction false} FilterIsSubsequence<T>(p: T -> bool, s: seq<T>)
    ensures IsSubsequence(Filter(p, s), s)
  {
    if s != [] {
      FilterIsSubsequence(p, s[1..]);
      var r := Filter(p, s);
      if p(s[0]) {
        assert r[0] == s[0] && r[1..] == Filter(p, s[1..]);
      } else {
        assert r == Filter(p, s[1..]);
      }
    }
  }

  /** Filtering twice with the same predicate is filtering once. */
  lemma {:induction false} FilterIdempotent<T>(p: T -> bool, s: seq<T>)
    ensures Filter(p, Filter(p, s)) == Filter(p, s)
  {
    if s != [] {
      FilterIdempotent(p, s[1..]);
      var r := Filter(p, s);
      if p(s[0]) {
        assert r != [] && r[0] == s[0] && r[1..] == Filter(p, s[1..]);
        assert Filter(p, r) == [r[0]] + Filter(p, r[1..]);
      } else {
        assert r == Filter(p, s[1..]);
      }
    }
  }

  /** A predicate every element meets keeps the whole list. */
  lemma {:induction false} FilterKeepsAll<T>(p: T -> bool, s: seq<T>)
    requires forall i :: 0 <= i < |s| ==> p(s[i])
    ensures Filter(p, s) == s
  {
    if s != [] {
      FilterKeepsAll(p, s[1..]);
    }
  }

  /** A predicate no element meets keeps nothing. */
  lemma {:induction false} FilterKeepsNone<T>(p: T -> bool, s: seq<T>)
    requires forall i :: 0 <= i < |s| ==> !p(s[i])
    ensures Filter(p, s) == []
  {
    if s != [] {
      FilterKeepsNone(p, s[1..]);
    }
  }

  /** Two predicates that agree on the elements of `s` filter it alike. */
  lemma {:induction false} FilterAgree<T>(p: T -> bool, q: T -> bool, s: seq<T>)
    requires forall i :: 0 <= i < |s| ==> p(s[i]) == q(s[i])
    ensures Filter(p, s) == Filter(q, s)
  {
    if s != [] {
      FilterAgree(p, q, s[1..]);
    }
  }

  /** Filtering distributes over concatenation. */
  lemma {:induction false} FilterAppend<T>(p: T -> bool, a: seq<T>, b: seq<T>)
    decreases |a|, 1
    ensures Filter(p, a + b) == Filter(p, a) + Filter(p, b)
  {
    if a == [] {
      assert a + b == b;
    } else {
      FilterAppendStep(p, a, b);
    }
  }

  /** The head of `a` is the head of `a + b`; the rest follows from the tail. */
  lemma {:induction false} FilterAppendStep<T>(p: T -> bool, a: seq<T>, b: seq<T>)
    requires a != []
    decreases |a|, 0
    ensures Filter(p, a + b) == Filter(p, a) + Filter(p, b)
  {
    assert (a + b)[0] == a[0];
    assert (a + b)[1..] == a[1..] + b;
    FilterAppend(p, a[1..], b);
    var head := if p(a[0]) then [a[0]] else [];
    assert Filter(p, a + b) == head + Filter(p, a[1..] + b);
    assert Filter(p, a) == head + Filter(p, a[1..]);
  }

  /** A predicate that fails exactly at index `k` removes just that element. */
  lemma {:induction false} FilterDropsOne<T>(p: T -> bool, s: seq<T>, k: nat)
    requires k < |s|
    requires forall i :: 0 <= i < |s| ==> (p(s[i]) <==> i != k)
    decreases |s|, 1
    ensures Filter(p, s) == s[..k] + s[k + 1..]
  {
    if k == 0 {
      FilterDropsHead(p, s);
    } else {
      FilterDropsLater(p, s, k);
    }
  }

  /** The head fails and the rest pass: the filter is the tail. */
  lemma FilterDropsHead<T>(p: T -> bool, s: seq<T>)
    requires |s| > 0
    requires forall i :: 0 <= i < |s| ==> (p(s[i]) <==> i != 0)
    ensures Filter(p, s) == s[1..]
  {
    var t := s[1..];
    assert forall i :: 0 <= i < |t| ==> t[i] == s[i + 1];
    FilterKeepsAll(p, t);
  }

  /** The head passes: it stays in front of the filtered tail. */
  lemma {:induction false} FilterDropsLater<T>(p: T -> bool, s: seq<T>, k: nat)
    requires 0 < k < |s|
    requires forall i :: 0 <= i < |s| ==> (p(s[i]) <==> i != k)
    decreases |s|, 0
    ensures Filter(p, s) == s[..k] + s[k + 1..]
  {
    ShiftedMiss(p, s, k);
    FilterDropsOne(p, s[1..], k - 1);
    SplitAfterHead(s, k);
    assert Filter(p, s) == [s[0]] + Filter(p, s[1..]);
  }

  /** In the tail the failing element sits one place earlier. */
  lemma ShiftedMiss<T>(p: T -> bool, s: seq<T>, k: nat)
    requires 0 < k < |s|
    requires forall i :: 0 <= i < |s| ==> (p(s[i]) <==> i != k)
    ensures forall i :: 0 <= i < |s[1..]| ==> (p(s[1..][i]) <==> i != k - 1)
  {
    forall i | 0 <= i < |s[1..]| ensures p(s[1..][i]) <==> i != k - 1 {
      assert s[1..][i] == s[i + 1];
    }
  }

  /** Removing index `k > 0` from `s` is keeping the head and removing index `k - 1` from the tail. */
  lemma SplitAfterHead<T>(s: seq<T>, k: nat)
    requires 0 < k < |s|
    ensures s[..k] + s[k + 1..] == [s[0]] + (s[1..][..k - 1] + s[1..][k..])
  {
    assert s[..k] == [s[0]] + s[1..][..k - 1];
    assert s[k + 1..] == s[1..][k..];
  }

  /** `s.filter(p).filter(q)` is one filter by the conjunction. */
  lemma {:induction false} FilterFilter<T>(p: T -> bool, q: T -> bool, pq: T -> bool, s: seq<T>)
    requires forall x :: pq(x) == (p(x) && q(x))
    ensures Filter(q, Filter(p, s)) == Filter(pq, s)
  {
    if s != [] {
      FilterFilter(p, q, pq, s[1..]);
      var r := Filter(p, s);
      if p(s[0]) {
        assert r != [] && r[0] == s[0] && r[1..] == Filter(p, s[1..]);
        assert Filter(q, r) == (if q(r[0]) then [r[0]] else []) + Filter(q, r[1..]);
      } else {
        assert r == Filter(p, s[1..]);
      }
    }
  }
}

/**
 * Order-preserving list operations that the views build on: `Array.prototype.filter`,
 * `slice(0, n)`, and the subsequence relation used to say that a filtered list keeps
 * the order of its source.
 */
module Seqs {

  /** `a` can be obtained from `b` by deleting elements (greedy matching from the front). */
  predicate SubsequenceOf<T(==)>(a: seq<T>, b: seq<T>)
    decreases |b|
  {
    if |a| == 0 then true
    else if |b| == 0 then false
    else if a[0] == b[0] then SubsequenceOf(a[1..], b[1..])
    else SubsequenceOf(a, b[1..])
  }

  /** `xs.filter(p)`: the elements satisfying `p`, in their original order. */
  function Filter<T>(s: seq<T>, p: T -> bool): (r: seq<T>)
    ensures |r| <= |s|
    ensures forall i :: 0 <= i < |r| ==> r[i] in s && p(r[i])
    ensures forall i :: 0 <= i < |s| && p(s[i]) ==> s[i] in r
    decreases |s|
  {
    if |s| == 0 then []
    else if p(s[0]) then [s[0]] + Filter(s[1..], p)
    else Filter(s[1..], p)
  }

  /** `xs.map(f)`: one result per element, in order. */
  function Map<A, B>(s: seq<A>, f: A -> B): (r: seq<B>)
    ensures |r| == |s|
    ensures forall i :: 0 <= i < |s| ==> r[i] == f(s[i])
    decreases |s|
  {
    if |s| == 0 then [] else [f(s[0])] + Map(s[1..], f)
  }

  /** `xs.slice(0, n)`. */
  function Take<T>(s: seq<T>, n: nat): (r: seq<T>)
    ensures |r| == if n < |s| then n else |s|
    ensures r == s[..|r|]
  {
    if n < |s| then s[..n] else s
  }

  /** Prepending an element keeps every subsequence a subsequence. */
  lemma {:induction false} SubsequenceExtend<T>(a: seq<T>, b: seq<T>, e: T)
    requires SubsequenceOf(a, b)
    ensures SubsequenceOf(a, [e] + b)
    decreases |a| + |b| + 1, 1
  {
    var eb := [e] + b;
    assert eb[1..] == b;
    if |a| > 0 && a[0] == e {
      SubsequenceDropFirst(a, b);
    }
  }

  /** Dropping the first element of a subsequence leaves a subsequence. */
  lemma {:induction false} SubsequenceDropFirst<T>(a: seq<T>, b: seq<T>)
    requires |a| > 0 && SubsequenceOf(a, b)
    ensures SubsequenceOf(a[1..], b)
    decreases |a| + |b|, 0
  {
    assert |b| > 0;
    if a[0] == b[0] {
      SubsequenceExtend(a[1..], b[1..], b[0]);
    } else {
      SubsequenceDropFirst(a, b[1..]);
      SubsequenceExtend(a[1..], b[1..], b[0]);
    }
    assert [b[0]] + b[1..] == b;
  }

  /** The result of a filter is a subsequence of its input: nothing is added or reordered. */
  lemma {:induction false} FilterIsSubsequence<T>(s: seq<T>, p: T -> bool)
    ensures SubsequenceOf(Filter(s, p), s)
    decreases |s|
  {
    if |s| > 0 {
      FilterIsSubsequence(s[1..], p);
      if !p(s[0]) {
        SubsequenceExtend(Filter(s[1..], p), s[1..], s[0]);
        assert [s[0]] + s[1..] == s;
      } else {
        var r := Filter(s, p);
        assert r[0] == s[0] && r[1..] == Filter(s[1..], p);
      }
    }
  }

  /** A filter whose predicate holds of every element returns its input unchanged. */
  lemma {:induction false} FilterKeepsAll<T>(s: seq<T>, p: T -> bool)
    requires forall i :: 0 <= i < |s| ==> p(s[i])
    ensures Filter(s, p) == s
    decreases |s|
  {
    if |s| > 0 {
      FilterKeepsAll(s[1..], p);
      assert [s[0]] + s[1..] == s;
    }
  }

  /**
   * Filtering with a stronger predicate `q` gives the same list as first filtering with the
   * weaker `p` and then with `q`: the narrower result is taken out of the wider one.
   */
  lemma {:induction false} FilterNarrows<T>(s: seq<T>, p: T -> bool, q: T -> bool)
    requires forall i :: 0 <= i < |s| && q(s[i]) ==> p(s[i])
    ensures Filter(Filter(s, p), q) == Filter(s, q)
    decreases |s|
  {
    if |s| > 0 {
      FilterNarrows(s[1..], p, q);
      if p(s[0]) {
        var fp := Filter(s, p);
        assert fp[0] == s[0] && fp[1..] == Filter(s[1..], p);
      }
    }
  }

  /** Filtering distributes over concatenation. */
  lemma {:induction false} FilterAppend<T>(a: seq<T>, b: seq<T>, p: T -> bool)
    ensures Filter(a + b, p) == Filter(a, p) + Filter(b, p)
    decreases |a|
  {
    if |a| == 0 {
      assert a + b == b;
    } else {
      FilterAppend(a[1..], b, p);
      assert (a + b)[1..] == a[1..] + b;
    }
  }

  /** Filtering out exactly one position removes that element and keeps the rest in order. */
  lemma FilterDropOne<T>(s: seq<T>, p: T -> bool, k: int)
    requires 0 <= k < |s| && !p(s[k])
    requires forall i :: 0 <= i < |s| && i != k ==> p(s[i])
    ensures Filter(s, p) == s[..k] + s[k + 1..]
  {
    FilterAround(s, p, k);
    FilterKeepsPrefix(s, p, k);
    FilterKeepsSuffix(s, p, k + 1);
  }

  /** A rejected element splits the filter into the filters of what lies before and after it. */
  lemma FilterAround<T>(s: seq<T>, p: T -> bool, k: int)
    requires 0 <= k < |s| && !p(s[k])
    ensures Filter(s, p) == Filter(s[..k], p) + Filter(s[k + 1..], p)
  {
    SplitAt(s, k);
    FilterSkipsHead(s[k], s[k + 1..], p);
    FilterAppend(s[..k], [s[k]] + s[k + 1..], p);
  }

  /** A sequence is what lies before a position, the element there, and what follows. */
  lemma SplitAt<T>(s: seq<T>, k: int)
    requires 0 <= k < |s|
    ensures s == s[..k] + ([s[k]] + s[k + 1..])
  {
  }

  /** A prefix whose every element satisfies the predicate passes the filter unchanged. */
  lemma FilterKeepsPrefix<T>(s: seq<T>, p: T -> bool, k: int)
    requires 0 <= k <= |s|
    requires forall i :: 0 <= i < k ==> p(s[i])
    ensures Filter(s[..k], p) == s[..k]
  {
    var t := s[..k];
    assert forall i :: 0 <= i < |t| ==> p(t[i]) by {
      forall i | 0 <= i < |t| ensures p(t[i]) {
        assert t[i] == s[i];
      }
    }
    FilterKeepsAll(t, p);
  }

  /** A suffix whose every element satisfies the predicate passes the filter unchanged. */
  lemma FilterKeepsSuffix<T>(s: seq<T>, p: T -> bool, k: int)
    requires 0 <= k <= |s|
    requires forall i :: k <= i < |s| ==> p(s[i])
    ensures Filter(s[k..], p) == s[k..]
  {
    var t := s[k..];
    assert forall i :: 0 <= i < |t| ==> p(t[i]) by {
      forall i | 0 <= i < |t| ensures p(t[i]) {
        assert t[i] == s[k + i];
      }
    }
    FilterKeepsAll(t, p);
  }

  /** An element the predicate rejects contributes nothing. */
  lemma FilterSkipsHead<T>(x: T, rest: seq<T>, p: T -> bool)
    requires !p(x)
    ensures Filter([x] + rest, p) == Filter(rest, p)
  {
    assert ([x] + rest)[1..] == rest;
  }

  /** A map that changes only position `k` is a single-position update. */
  lemma MapOnlyAt<A>(s: seq<A>, f: A -> A, k: int)
    requires 0 <= k < |s|
    requires forall i :: 0 <= i < |s| && i != k ==> f(s[i]) == s[i]
    ensures Map(s, f) == s[k := f(s[k])]
  {
  }

  /** A map that changes no element returns its input. */
  lemma MapUnchanged<A>(s: seq<A>, f: A -> A)
    requires forall i :: 0 <= i < |s| ==> f(s[i]) == s[i]
    ensures Map(s, f) == s
  {
  }
}

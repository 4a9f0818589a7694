/** Sequence operations the screens use on their lists: `Array.prototype.filter`, and the
    deduplication `[...new Set(xs)]`, which keeps each value at its first occurrence. */
module Seqs {
  import opened Wrappers

  /** `a` is `b` with some elements left out and the rest in their original order. */
  ghost predicate IsSubsequence<T>(a: seq<T>, b: seq<T>)
    decreases |b|
  {
    |a| == 0 || (|b| > 0 && ((a[0] == b[0] && IsSubsequence(a[1..], b[1..])) || IsSubsequence(a, b[1..])))
  }

  /** `s.filter(p)` */
  function Filter<T>(s: seq<T>, p: T -> bool): (r: seq<T>)
    ensures |r| <= |s|
    ensures forall i :: 0 <= i < |r| ==> r[i] in s && p(r[i])
    ensures forall i :: 0 <= i < |s| && p(s[i]) ==> s[i] in r
    ensures IsSubsequence(r, s)
    decreases |s|
  {
    if |s| == 0 then []
    else if p(s[0]) then [s[0]] + Filter(s[1..], p)
    else Filter(s[1..], p)
  }

  /** Filtering distributes over concatenation: together with `Filter([x], p)` being `[x]` or
      `[]`, this determines the result completely. */
  lemma {:induction false} FilterConcat<T>(a: seq<T>, b: seq<T>, p: T -> bool)
    ensures Filter(a + b, p) == Filter(a, p) + Filter(b, p)
    decreases |a|
  {
    if |a| == 0 {
      assert a + b == b;
    } else {
      var c := a + b;
      assert c[0] == a[0] && c[1..] == a[1..] + b;
      FilterConcat(a[1..], b, p);
      if p(a[0]) {
        assert Filter(c, p) == [a[0]] + (Filter(a[1..], p) + Filter(b, p));
      } else {
        assert Filter(c, p) == Filter(a[1..], p) + Filter(b, p);
      }
    }
  }

  /** Filtering by `p` and then by `q` is filtering by any predicate that holds of exactly the
      elements satisfying both. */
  lemma {:induction false} FilterFilter<T>(s: seq<T>, p: T -> bool, q: T -> bool, both: T -> bool)
    requires forall i :: 0 <= i < |s| ==> both(s[i]) == (p(s[i]) && q(s[i]))
    ensures Filter(Filter(s, p), q) == Filter(s, both)
    decreases |s|
  {
    if |s| > 0 {
      FilterFilter(s[1..], p, q, both);
      if p(s[0]) {
        assert ([s[0]] + Filter(s[1..], p))[1..] == Filter(s[1..], p);
      }
    }
  }

  /** Predicates that agree on the elements filter alike. */
  lemma {:induction false} FilterAgree<T>(s: seq<T>, p: T -> bool, q: T -> bool)
    requires forall i :: 0 <= i < |s| ==> p(s[i]) == q(s[i])
    ensures Filter(s, p) == Filter(s, q)
    decreases |s|
  {
    if |s| > 0 {
      FilterAgree(s[1..], p, q);
    }
  }

  /** A predicate every element satisfies filters nothing out. */
  lemma {:induction false} FilterAll<T>(s: seq<T>, p: T -> bool)
    requires forall i :: 0 <= i < |s| ==> p(s[i])
    ensures Filter(s, p) == s
    decreases |s|
  {
    if |s| > 0 {
      FilterAll(s[1..], p);
    }
  }

  /** The first `n` elements of `s`, or all of `s` when it is shorter: `LIMIT n` on a result
      set, and Python's `s[:n]`. */
  function Take<T>(s: seq<T>, n: nat): (r: seq<T>)
    ensures |r| == if |s| < n then |s| else n
    ensures r <= s
    ensures multiset(r) <= multiset(s)
  {
    if |s| < n then s
    else
      assert s == s[..n] + s[n..];
      s[..n]
  }

  /** `s.find(x => key(x) === k)`: the first element whose key is `k`, if any. */
  function FindBy<T, K(==)>(s: seq<T>, key: T -> K, k: K): (r: Option<T>)
    ensures r.Some? ==> r.value in s && key(r.value) == k
    ensures r.None? <==> forall i :: 0 <= i < |s| ==> key(s[i]) != k
    decreases |s|
  {
    if |s| == 0 then None
    else if key(s[0]) == k then Some(s[0])
    else
      var rest := FindBy(s[1..], key, k);
      assert forall i :: 1 <= i < |s| ==> s[i] == s[1..][i - 1];
      rest
  }

  /** The index of the first occurrence of `x` in `s`. */
  function FirstIndex<T(==)>(s: seq<T>, x: T): (i: nat)
    requires x in s
    ensures i < |s| && s[i] == x
    ensures forall j :: 0 <= j < i ==> s[j] != x
    decreases |s|
  {
    if s[0] == x then 0 else 1 + FirstIndex(s[1..], x)
  }

  lemma {:induction false} FirstIndexPrefix<T>(s: seq<T>, n: nat, x: T)
    requires n <= |s| && x in s[..n]
    ensures FirstIndex(s, x) == FirstIndex(s[..n], x)
  {
    var i := FirstIndex(s[..n], x);
    var k := FirstIndex(s, x);
    assert s[i] == x;
    assert forall j :: 0 <= j < i ==> s[j] == s[..n][j];
  }

  /** `[...new Set(s)]`: the distinct values of `s`, each at the position of its first
      occurrence (see DedupOrder). */
  function Dedup<T(==)>(s: seq<T>): (r: seq<T>)
    ensures forall i :: 0 <= i < |r| ==> r[i] in s
    ensures forall i :: 0 <= i < |s| ==> s[i] in r
    ensures forall i, j :: 0 <= i < j < |r| ==> r[i] != r[j]
    decreases |s|
  {
    if |s| == 0 then []
    else
      var d := Dedup(s[..|s| - 1]);
      var last := s[|s| - 1];
      assert forall i :: 0 <= i < |s| - 1 ==> s[i] == s[..|s| - 1][i];
      if last in d then d else d + [last]
  }

  /** The values come out in the order of their first occurrences in `s`. */
  lemma {:induction false} DedupOrder<T>(s: seq<T>)
    ensures forall i, j :: 0 <= i < j < |Dedup(s)| ==> FirstIndex(s, Dedup(s)[i]) < FirstIndex(s, Dedup(s)[j])
    decreases |s|
  {
    if |s| > 0 {
      var p := s[..|s| - 1];
      var d := Dedup(p);
      DedupOrder(p);
      forall i | 0 <= i < |d|
        ensures FirstIndex(s, d[i]) == FirstIndex(p, d[i]) < |s| - 1
      {
        FirstIndexPrefix(s, |s| - 1, d[i]);
      }
      var last := s[|s| - 1];
      if last !in d {
        assert last !in p;
        assert FirstIndex(s, last) == |s| - 1;
      }
    }
  }
}

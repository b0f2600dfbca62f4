/** Generic sequence operations behind the services' `filter`, `reduce`,
    `slice` and `new Set(...)` expressions, with their specifications. */
module Seqs {

  function Min(a: int, b: int): int {
    if a <= b then a else b
  }

  /** `r` is `s` with some elements dropped and the rest kept in order. */
  ghost predicate IsSubseq<T>(r: seq<T>, s: seq<T>)
    decreases |s|
  {
    if r == [] then true
    else if s == [] then false
    else (r[0] == s[0] && IsSubseq(r[1..], s[1..])) || IsSubseq(r, s[1..])
  }

  lemma {:induction false} SubseqRefl<T>(s: seq<T>)
    ensures IsSubseq(s, s)
    decreases |s|
  {
    if s != [] {
      SubseqRefl(s[1..]);
    }
  }

  lemma {:induction false} SubseqTrans<T>(a: seq<T>, b: seq<T>, c: seq<T>)
    requires IsSubseq(a, b) && IsSubseq(b, c)
    ensures IsSubseq(a, c)
    decreases |c|
  {
    if a != [] {
      if b[0] == c[0] && IsSubseq(b[1..], c[1..]) {
        if a[0] == b[0] && IsSubseq(a[1..], b[1..]) {
          SubseqTrans(a[1..], b[1..], c[1..]);
        } else {
          SubseqTrans(a, b[1..], c[1..]);
        }
      } else {
        SubseqTrans(a, b, c[1..]);
      }
    }
  }

  /** A prefix (`slice(0, k)`) keeps order. */
  lemma {:induction false} PrefixIsSubseq<T>(s: seq<T>, k: nat)
    requires k <= |s|
    ensures IsSubseq(s[..k], s)
    decreases |s|
  {
    if k > 0 {
      assert s[..k][1..] == s[1..][..k - 1];
      PrefixIsSubseq(s[1..], k - 1);
    }
  }

  /** The number of elements of `s` that satisfy `p`, counted one position at
      a time. */
  function Count<T>(s: seq<T>, p: T -> bool): nat
    decreases |s|
  {
    if s == [] then 0 else (if p(s[0]) then 1 else 0) + Count(s[1..], p)
  }

  /** Array.prototype.filter: the elements of `s` that satisfy `p`, in order and
      with their multiplicities. */
  function Filter<T(!new)>(s: seq<T>, p: T -> bool): (r: seq<T>)
    ensures |r| <= |s|
    ensures |r| == Count(s, p)
    ensures forall x :: x in r <==> x in s && p(x)
    ensures forall x :: multiset(r)[x] == if p(x) then multiset(s)[x] else 0
    ensures IsSubseq(r, s)
    decreases |s|
  {
    if s == [] then []
    else
      var rest := Filter(s[1..], p);
      assert s == [s[0]] + s[1..];
      if p(s[0]) then
        assert ([s[0]] + rest)[1..] == rest;
        [s[0]] + rest
      else
        rest
  }

  /** Filtering by a predicate every element meets changes nothing. */
  lemma {:induction false} FilterAll<T(!new)>(s: seq<T>, p: T -> bool)
    requires forall k :: 0 <= k < |s| ==> p(s[k])
    ensures Filter(s, p) == s
    decreases |s|
  {
    if s != [] {
      FilterAll(s[1..], p);
    }
  }

  /** Two filters whose predicates never both hold select disjoint parts of `s`. */
  lemma {:induction false} DisjointFilterCounts<T(!new)>(s: seq<T>, p: T -> bool, q: T -> bool)
    requires forall k :: 0 <= k < |s| ==> !(p(s[k]) && q(s[k]))
    ensures |Filter(s, p)| + |Filter(s, q)| <= |s|
    decreases |s|
  {
    if s != [] {
      DisjointFilterCounts(s[1..], p, q);
    }
  }

  /** A filter selects nothing exactly when no element satisfies its predicate. */
  lemma FilterEmptyIff<T(!new)>(s: seq<T>, p: T -> bool)
    ensures |Filter(s, p)| == 0 <==> forall k :: 0 <= k < |s| ==> !p(s[k])
  {
    var r := Filter(s, p);
    if |r| > 0 {
      assert r[0] in r;
    } else {
      forall k | 0 <= k < |s|
        ensures !p(s[k])
      {
        assert s[k] in s;
      }
    }
  }

  /** A filter keeps everything exactly when every element satisfies its
      predicate. */
  lemma {:induction false} FilterFullIff<T(!new)>(s: seq<T>, p: T -> bool)
    ensures |Filter(s, p)| == |s| <==> forall k :: 0 <= k < |s| ==> p(s[k])
    decreases |s|
  {
    if s != [] {
      FilterFullIff(s[1..], p);
      assert forall k :: 1 <= k < |s| ==> s[k] == s[1..][k - 1];
    }
  }

  /** A weaker predicate selects at least as many elements. */
  lemma {:induction false} FilterImplies<T(!new)>(s: seq<T>, p: T -> bool, q: T -> bool)
    requires forall k :: 0 <= k < |s| ==> p(s[k]) ==> q(s[k])
    ensures |Filter(s, p)| <= |Filter(s, q)|
    decreases |s|
  {
    if s != [] {
      FilterImplies(s[1..], p, q);
    }
  }

  /** Array.prototype.reduce((sum, x) => sum + f(x), 0). */
  function Sum<T>(s: seq<T>, f: T -> int): int
    decreases |s|
  {
    if s == [] then 0 else f(s[0]) + Sum(s[1..], f)
  }

  lemma {:induction false} SumNonNegative<T>(s: seq<T>, f: T -> int)
    requires forall k :: 0 <= k < |s| ==> f(s[k]) >= 0
    ensures Sum(s, f) >= 0
    decreases |s|
  {
    if s != [] {
      SumNonNegative(s[1..], f);
    }
  }

  /** Summing a non-negative quantity over a filtered part never exceeds the
      sum over the whole. */
  lemma {:induction false} SumFilterAtMost<T(!new)>(s: seq<T>, p: T -> bool, f: T -> int)
    requires forall k :: 0 <= k < |s| ==> f(s[k]) >= 0
    ensures Sum(Filter(s, p), f) <= Sum(s, f)
    decreases |s|
  {
    if s != [] {
      SumFilterAtMost(s[1..], p, f);
      var rest := Filter(s[1..], p);
      if p(s[0]) {
        assert ([s[0]] + rest)[1..] == rest;
      }
    }
  }

  /** Array.prototype.map. */
  function Map<T, U>(s: seq<T>, f: T -> U): (r: seq<U>)
    ensures |r| == |s| && forall k :: 0 <= k < |s| ==> r[k] == f(s[k])
  {
    seq(|s|, k requires 0 <= k < |s| => f(s[k]))
  }

  ghost predicate NoDuplicates<T>(s: seq<T>) {
    forall i, j :: 0 <= i < j < |s| ==> s[i] != s[j]
  }

  /** Position of the first occurrence of `x` (Array.prototype.indexOf). */
  function FirstIndex<T(==)>(s: seq<T>, x: T): (i: nat)
    requires x in s
    ensures i < |s| && s[i] == x && x !in s[..i]
    decreases |s|
  {
    if s[0] == x then 0
    else
      assert x in s[1..] by { assert s == [s[0]] + s[1..]; }
      var j := FirstIndex(s[1..], x);
      assert s[..j + 1] == [s[0]] + s[1..][..j];
      j + 1
  }

  lemma FirstIndexIs<T>(s: seq<T>, x: T, i: nat)
    requires i < |s| && s[i] == x && x !in s[..i]
    ensures FirstIndex(s, x) == i
  {
    var j := FirstIndex(s, x);
    assert forall k :: 0 <= k < i ==> s[..i][k] == s[k];
    assert forall k :: 0 <= k < j ==> s[..j][k] == s[k];
  }

  /** `[...new Set(s)]`: each value once, kept at its first occurrence. */
  function Distinct<T(==,!new)>(s: seq<T>): (d: seq<T>)
    ensures forall x :: x in d <==> x in s
    ensures NoDuplicates(d)
    decreases |s|
  {
    if s == [] then []
    else
      var init := s[..|s| - 1];
      var x := s[|s| - 1];
      assert s == init + [x];
      var d := Distinct(init);
      if x in d then d else d + [x]
  }

  /** The values of `Distinct(s)` appear in the order of their first
      occurrences in `s`. */
  lemma {:induction false} DistinctFirstOccurrenceOrder<T(!new)>(s: seq<T>)
    ensures forall i, j :: 0 <= i < j < |Distinct(s)| ==>
      FirstIndex(s, Distinct(s)[i]) < FirstIndex(s, Distinct(s)[j])
    decreases |s|
  {
    if s != [] {
      var n := |s|;
      var init := s[..n - 1];
      var x := s[n - 1];
      assert s == init + [x];
      var d' := Distinct(init);
      DistinctFirstOccurrenceOrder(init);
      forall y | y in init
        ensures FirstIndex(s, y) == FirstIndex(init, y)
      {
        var k := FirstIndex(init, y);
        assert s[..k] == init[..k];
        FirstIndexIs(s, y, k);
      }
      if x !in d' {
        assert x !in s[..n - 1];
        FirstIndexIs(s, x, n - 1);
        var d := Distinct(s);
        assert d == d' + [x];
        forall i, j | 0 <= i < j < |d|
          ensures FirstIndex(s, d[i]) < FirstIndex(s, d[j])
        {
          assert d[i] == d'[i] && d[i] in init;
          if j < |d'| {
            assert d[j] == d'[j] && d[j] in init;
          }
        }
      } else {
        forall i, j | 0 <= i < j < |d'|
          ensures FirstIndex(s, d'[i]) < FirstIndex(s, d'[j])
        {
          assert d'[i] in init && d'[j] in init;
        }
      }
    }
  }
}

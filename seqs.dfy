/** Sequence operations shared by the lesson checker and the lesson-2 pipeline:
    Python's list comprehensions `[x for x in s if keep(x)]` and `[f(x) for x in s]`. */
module Seqs {

  /** The elements of `s` that satisfy `keep`, in their original order.
      Defined from the back, so that a loop that appends matches it step by step. */
  function Filter<T>(s: seq<T>, keep: T -> bool): (r: seq<T>)
    ensures |r| <= |s|
  {
    if s == [] then []
    else Filter(s[..|s| - 1], keep) + (if keep(s[|s| - 1]) then [s[|s| - 1]] else [])
  }

  /** `f` applied to every element of `s`. */
  function MapSeq<T, U>(s: seq<T>, f: T -> U): (r: seq<U>)
    ensures |r| == |s| && forall i :: 0 <= i < |s| ==> r[i] == f(s[i])
  {
    seq(|s|, i requires 0 <= i < |s| => f(s[i]))
  }

  /** The kept elements are the elements of `s` that satisfy `keep`. */
  lemma {:induction false} FilterMembers<T>(s: seq<T>, keep: T -> bool)
    ensures forall i :: 0 <= i < |Filter(s, keep)| ==> Filter(s, keep)[i] in s && keep(Filter(s, keep)[i])
    ensures forall i :: 0 <= i < |s| && keep(s[i]) ==> s[i] in Filter(s, keep)
  {
    if s != [] {
      var n := |s| - 1;
      FilterMembers(s[..n], keep);
      var r := Filter(s, keep);
      var r' := Filter(s[..n], keep);
      forall i | 0 <= i < |r|
        ensures r[i] in s && keep(r[i])
      {
        if i < |r'| {
          assert r[i] == r'[i];
          assert r'[i] in s[..n];
        }
      }
      forall i | 0 <= i < |s| && keep(s[i])
        ensures s[i] in r
      {
        if i < n {
          assert s[i] == s[..n][i];
          assert s[i] in r';
        } else {
          assert r[|r| - 1] == s[n];
        }
      }
    }
  }

  /** Filtering one element keeps it exactly when it satisfies `keep`. */
  lemma FilterSingleton<T>(x: T, keep: T -> bool)
    ensures Filter([x], keep) == if keep(x) then [x] else []
  {
    assert [x][..0] == [];
  }

  /** Filtering distributes over concatenation: together with FilterSingleton this
      says that the kept elements stay in their original relative order. */
  lemma {:induction false} FilterConcat<T>(a: seq<T>, b: seq<T>, keep: T -> bool)
    ensures Filter(a + b, keep) == Filter(a, keep) + Filter(b, keep)
  {
    if b == [] {
      assert a + b == a;
    } else {
      var n := |b| - 1;
      assert (a + b)[..|a + b| - 1] == a + b[..n];
      assert (a + b)[|a + b| - 1] == b[n];
      FilterConcat(a, b[..n], keep);
    }
  }

  /** Filters whose predicates agree on every element of `s` keep the same elements. */
  lemma {:induction false} FilterAgree<T>(s: seq<T>, p: T -> bool, q: T -> bool)
    requires forall i :: 0 <= i < |s| ==> p(s[i]) == q(s[i])
    ensures Filter(s, p) == Filter(s, q)
  {
    if s != [] {
      FilterAgree(s[..|s| - 1], p, q);
    }
  }

  /** Two sequences of equal length whose elements are kept at the same positions
      keep equally many elements. */
  lemma {:induction false} FilterCountsAgree<T, U>(s: seq<T>, t: seq<U>, p: T -> bool, q: U -> bool)
    requires |s| == |t|
    requires forall i :: 0 <= i < |s| ==> (p(s[i]) <==> q(t[i]))
    ensures |Filter(s, p)| == |Filter(t, q)|
  {
    if s != [] {
      FilterCountsAgree(s[..|s| - 1], t[..|t| - 1], p, q);
    }
  }

  /** Nothing is kept from a sequence none of whose elements satisfies `keep`. */
  lemma FilterNone<T>(s: seq<T>, keep: T -> bool)
    requires forall i :: 0 <= i < |s| ==> !keep(s[i])
    ensures Filter(s, keep) == []
  {
    var r := Filter(s, keep);
    FilterMembers(s, keep);
    if r != [] {
      var j :| 0 <= j < |s| && s[j] == r[0];
      assert false;
    }
  }

  /** Mapping distributes over concatenation. */
  lemma MapSeqConcat<T, U>(a: seq<T>, b: seq<T>, f: T -> U)
    ensures MapSeq(a + b, f) == MapSeq(a, f) + MapSeq(b, f)
  {
  }

  lemma MapSeqCons<T, U>(x: T, s: seq<T>, f: T -> U)
    ensures MapSeq([x] + s, f) == [f(x)] + MapSeq(s, f)
  {
  }

  /** Filtering after a map is mapping after the filter that asks the same of the
      original elements. */
  lemma {:induction false} FilterMapSeq<T, U>(s: seq<T>, f: T -> U, keep: U -> bool, keep': T -> bool)
    requires forall i :: 0 <= i < |s| ==> (keep(f(s[i])) <==> keep'(s[i]))
    ensures Filter(MapSeq(s, f), keep) == MapSeq(Filter(s, keep'), f)
  {
    if s != [] {
      var n := |s| - 1;
      var mapped := MapSeq(s, f);
      FilterMapSeq(s[..n], f, keep, keep');
      assert mapped[..n] == MapSeq(s[..n], f);
      assert mapped[n] == f(s[n]);
      MapSeqConcat(Filter(s[..n], keep'), if keep'(s[n]) then [s[n]] else [], f);
    }
  }

  ghost predicate Distinct<T>(s: seq<T>) {
    forall i, j :: 0 <= i < j < |s| ==> s[i] != s[j]
  }

  lemma {:induction false} DistinctOccursOnce<T>(s: seq<T>, x: T)
    requires Distinct(s)
    ensures multiset(s)[x] <= 1
  {
    if s != [] {
      var n := |s| - 1;
      DistinctOccursOnce(s[..n], x);
      assert s == s[..n] + [s[n]];
      if x == s[n] {
        assert x !in s[..n];
      }
    }
  }

  /** A rearrangement of a sequence without repetitions has none either. */
  lemma PermutationDistinct<T>(s: seq<T>, t: seq<T>)
    requires Distinct(s) && multiset(s) == multiset(t)
    ensures Distinct(t)
  {
    forall i, j | 0 <= i < j < |t|
      ensures t[i] != t[j]
    {
      if t[i] == t[j] {
        assert t == t[..j] + [t[j]] + t[j + 1..];
        assert t[i] in t[..j];
        assert multiset(t)[t[j]] >= 2;
        DistinctOccursOnce(s, t[j]);
        assert false;
      }
    }
  }
}

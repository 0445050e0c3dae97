/** Python's `sorted(s, key=key, reverse=True)` on integer keys: a new list holding the
    elements of `s` with the largest key first, where elements with equal keys keep
    their order in `s` (Python's sort stays stable with `reverse=True`). */
module StableSort {
  import opened Seqs

  predicate SortedDesc<T>(s: seq<T>, key: T -> int) {
    forall i, j :: 0 <= i < j < |s| ==> key(s[i]) >= key(s[j])
  }

  /** `x` placed in front of the first element of `s` whose key is not larger. */
  function Insert<T>(x: T, s: seq<T>, key: T -> int): (r: seq<T>)
    ensures |r| == |s| + 1 && multiset(r) == multiset{x} + multiset(s)
    ensures r[0] == x || (s != [] && r[0] == s[0])
  {
    if s == [] || key(x) >= key(s[0]) then [x] + s
    else
      assert s == [s[0]] + s[1..];
      [s[0]] + Insert(x, s[1..], key)
  }

  /** Insertion sort from the back: the first element is inserted into the sorted rest,
      ahead of every element with the same key. */
  function SortDesc<T>(s: seq<T>, key: T -> int): (r: seq<T>)
    ensures |r| == |s| && multiset(r) == multiset(s)
  {
    if s == [] then []
    else
      assert s == [s[0]] + s[1..];
      Insert(s[0], SortDesc(s[1..], key), key)
  }

  /** Inserting into a sorted sequence keeps it sorted. */
  lemma {:induction false} InsertSorted<T>(x: T, s: seq<T>, key: T -> int)
    requires SortedDesc(s, key)
    ensures SortedDesc(Insert(x, s, key), key)
  {
    if s != [] && key(x) < key(s[0]) {
      InsertSorted(x, s[1..], key);
    }
  }

  /** The result is ordered by key, largest first. */
  lemma {:induction false} SortDescSorted<T>(s: seq<T>, key: T -> int)
    ensures SortedDesc(SortDesc(s, key), key)
  {
    if s != [] {
      SortDescSorted(s[1..], key);
      InsertSorted(s[0], SortDesc(s[1..], key), key);
    }
  }

  function KeyIs<T>(key: T -> int, k: int): T -> bool {
    (y: T) => key(y) == k
  }

  /** Of two elements with different keys at most one has the key `k`, so keeping
      those with key `k` does not depend on which of the two comes first. */
  lemma SwapDistinctKeys<T>(x: T, y: T, rest: seq<T>, key: T -> int, k: int)
    requires key(x) != key(y)
    ensures Filter([x] + ([y] + rest), KeyIs(key, k)) == Filter([y] + ([x] + rest), KeyIs(key, k))
  {
    var same := KeyIs(key, k);
    FilterConcat([x], [y] + rest, same);
    FilterConcat([y], rest, same);
    FilterConcat([y], [x] + rest, same);
    FilterConcat([x], rest, same);
    FilterSingleton(x, same);
    FilterSingleton(y, same);
  }

  /** Inserting `x` puts it ahead of every element with the same key. */
  lemma {:induction false} InsertStable<T>(x: T, s: seq<T>, key: T -> int, k: int)
    ensures Filter(Insert(x, s, key), KeyIs(key, k)) == Filter([x] + s, KeyIs(key, k))
  {
    if s != [] && key(x) < key(s[0]) {
      var same := KeyIs(key, k);
      var rest := s[1..];
      var inserted := Insert(x, rest, key);
      assert Insert(x, s, key) == [s[0]] + inserted;
      InsertStable(x, rest, key, k);
      FilterConcat([s[0]], inserted, same);
      FilterConcat([s[0]], [x] + rest, same);
      SwapDistinctKeys(s[0], x, rest, key, k);
      assert [s[0]] + rest == s;
    }
  }

  /** Stability: the elements with any one key appear in the result in the same
      order as in the input. */
  lemma {:induction false} SortDescStable<T>(s: seq<T>, key: T -> int, k: int)
    ensures Filter(SortDesc(s, key), KeyIs(key, k)) == Filter(s, KeyIs(key, k))
  {
    if s != [] {
      SortDescStable(s[1..], key, k);
      InsertStable(s[0], SortDesc(s[1..], key), key, k);
      FilterConcat([s[0]], SortDesc(s[1..], key), KeyIs(key, k));
      FilterConcat([s[0]], s[1..], KeyIs(key, k));
      assert [s[0]] + s[1..] == s;
    }
  }

  /** Every element of the sorted sequence comes from the input. */
  lemma SortDescFrom<T>(s: seq<T>, key: T -> int, i: nat)
    requires i < |SortDesc(s, key)|
    ensures exists j :: 0 <= j < |s| && s[j] == SortDesc(s, key)[i]
  {
    var r := SortDesc(s, key);
    assert r[i] in multiset(r);
    assert r[i] in multiset(s);
  }

  lemma {:induction false} InsertMap<T, U>(x: T, s: seq<T>, f: T -> U, key: T -> int, key': U -> int)
    requires key'(f(x)) == key(x)
    requires forall i :: 0 <= i < |s| ==> key'(f(s[i])) == key(s[i])
    ensures MapSeq(Insert(x, s, key), f) == Insert(f(x), MapSeq(s, f), key')
  {
    if s == [] || key(x) >= key(s[0]) {
      MapSeqCons(x, s, f);
    } else {
      InsertMap(x, s[1..], f, key, key');
      MapSeqCons(s[0], Insert(x, s[1..], key), f);
      assert MapSeq(s, f)[1..] == MapSeq(s[1..], f);
    }
  }

  /** Sorting commutes with a map that preserves keys: sorting objects by a key read
      once from each, then taking each object's contents, gives the contents sorted by
      the same key. */
  lemma {:induction false} SortDescMap<T, U>(s: seq<T>, f: T -> U, key: T -> int, key': U -> int)
    requires forall i :: 0 <= i < |s| ==> key'(f(s[i])) == key(s[i])
    ensures MapSeq(SortDesc(s, key), f) == SortDesc(MapSeq(s, f), key')
  {
    if s != [] {
      var tail := s[1..];
      SortDescMap(tail, f, key, key');
      var rest := SortDesc(tail, key);
      forall i | 0 <= i < |rest|
        ensures key'(f(rest[i])) == key(rest[i])
      {
        SortDescFrom(tail, key, i);
        var j :| 0 <= j < |tail| && tail[j] == rest[i];
        assert tail[j] == s[j + 1];
      }
      InsertMap(s[0], rest, f, key, key');
      assert MapSeq(s, f)[1..] == MapSeq(tail, f);
    }
  }
}

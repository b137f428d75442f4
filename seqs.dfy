/** Sequence operations the components build their state updates from:
    `Array.prototype.filter`, removal of one index by filtering on the index,
    and the facts about them that the components' properties rest on. */
module Seqs {

  /** `s.filter(p)`: the elements of `s` that satisfy `p`, in order. */
  function Filter<T>(s: seq<T>, p: T -> bool): (r: seq<T>)
    ensures |r| <= |s|
    ensures forall x :: x in r ==> x in s && p(x)
    ensures forall x :: x in s && p(x) ==> x in r
  {
    if s == [] then []
    else if p(s[0]) then [s[0]] + Filter(s[1..], p)
    else Filter(s[1..], p)
  }

  /** `a` is `b` with some elements left out and the rest kept in order. */
  predicate IsSubsequence<T(==)>(a: seq<T>, b: seq<T>)
    decreases |b|
  {
    if a == [] then true
    else if b == [] then false
    else if a[0] == b[0] then IsSubsequence(a[1..], b[1..])
    else IsSubsequence(a, b[1..])
  }

  lemma {:induction false} SubsequenceOfSelf<T>(s: seq<T>)
    ensures IsSubsequence(s, s)
    decreases |s|
  {
    if s != [] {
      SubsequenceOfSelf(s[1..]);
    }
  }

  /** A filter result is an order-preserving subsequence of its input. */
  lemma {:induction false} FilterIsSubsequence<T>(s: seq<T>, p: T -> bool)
    ensures IsSubsequence(Filter(s, p), s)
    decreases |s|
  {
    if s != [] {
      FilterIsSubsequence(s[1..], p);
      var r := Filter(s[1..], p);
      if p(s[0]) {
        assert Filter(s, p) == [s[0]] + r;
        assert ([s[0]] + r)[1..] == r;
      } else {
        assert Filter(s, p) == r;
        if r != [] {
          assert IsSubsequence(r, s[1..]);
          SkipHead(r, s);
        }
      }
    }
  }

  /** Dropping the head of `b` is allowed when `a` already embeds in `b[1..]`. */
  lemma {:induction false} SkipHead<T>(a: seq<T>, b: seq<T>)
    requires b != []
    requires IsSubsequence(a, b[1..])
    ensures IsSubsequence(a, b)
    decreases |b|, 0
  {
    if a != [] && a[0] == b[0] {
      // a[1..] embeds in b[1..] because a embeds in b[1..]
      TailSubsequence(a, b[1..]);
    }
  }

  /** If `a` embeds in `b`, so does `a` without its head. */
  lemma {:induction false} TailSubsequence<T>(a: seq<T>, b: seq<T>)
    requires a != []
    requires IsSubsequence(a, b)
    ensures IsSubsequence(a[1..], b)
    decreases |b|, 1
  {
    assert b != [];
    if a[0] == b[0] {
      assert IsSubsequence(a[1..], b[1..]);
      if a[1..] != [] {
        SkipHead(a[1..], b);
      }
    } else {
      TailSubsequence(a, b[1..]);
      if a[1..] != [] {
        SkipHead(a[1..], b);
      }
    }
  }

  /** Filtering twice is filtering once by the conjunction. */
  lemma {:induction false} FilterFuse<T>(s: seq<T>, p: T -> bool, q: T -> bool, pq: T -> bool)
    requires forall x :: pq(x) == (p(x) && q(x))
    ensures Filter(Filter(s, p), q) == Filter(s, pq)
    decreases |s|
  {
    if s != [] {
      FilterFuse(s[1..], p, q, pq);
      if p(s[0]) {
        assert Filter(s, p) == [s[0]] + Filter(s[1..], p);
        assert ([s[0]] + Filter(s[1..], p))[1..] == Filter(s[1..], p);
      }
    }
  }

  /** A predicate true of every element drops nothing. */
  lemma {:induction false} FilterKeepsAll<T>(s: seq<T>, p: T -> bool)
    requires forall x :: x in s ==> p(x)
    ensures Filter(s, p) == s
    decreases |s|
  {
    if s != [] {
      assert s[0] in s;
      assert forall x :: x in s[1..] ==> x in s;
      FilterKeepsAll(s[1..], p);
      assert s == [s[0]] + s[1..];
    }
  }

  /** Predicates that agree everywhere filter alike. */
  lemma {:induction false} FilterCongruent<T>(s: seq<T>, p: T -> bool, q: T -> bool)
    requires forall x :: p(x) == q(x)
    ensures Filter(s, p) == Filter(s, q)
    decreases |s|
  {
    if s != [] {
      FilterCongruent(s[1..], p, q);
    }
  }

  /** Filter distributes over concatenation. */
  lemma {:induction false} FilterAppend<T>(a: seq<T>, b: seq<T>, p: T -> bool)
    ensures Filter(a + b, p) == Filter(a, p) + Filter(b, p)
    decreases |a|
  {
    if a == [] {
      assert a + b == b;
    } else {
      assert (a + b)[0] == a[0];
      assert (a + b)[1..] == a[1..] + b;
      FilterAppend(a[1..], b, p);
    }
  }

  /** The positions of `s` whose element satisfies `p`. */
  function IndicesWhere<T>(s: seq<T>, p: T -> bool): set<int>
  {
    set i | 0 <= i < |s| && p(s[i])
  }

  /** Filtering a list with one more element at the end. */
  lemma FilterSnoc<T>(s: seq<T>, p: T -> bool)
    requires s != []
    ensures Filter(s, p) == Filter(s[..|s| - 1], p) + (if p(s[|s| - 1]) then [s[|s| - 1]] else [])
  {
    var n := |s| - 1;
    assert s == s[..n] + [s[n]];
    FilterAppend(s[..n], [s[n]], p);
    assert Filter([s[n]], p) == if p(s[n]) then [s[n]] else [];
  }

  /** The satisfying positions of a list with one more element at the end. */
  lemma IndicesSnoc<T>(s: seq<T>, p: T -> bool)
    requires s != []
    ensures IndicesWhere(s, p) == IndicesWhere(s[..|s| - 1], p) + (if p(s[|s| - 1]) then {|s| - 1} else {})
    ensures |s| - 1 !in IndicesWhere(s[..|s| - 1], p)
  {
    var n := |s| - 1;
    assert forall i :: 0 <= i < n ==> s[..n][i] == s[i];
  }

  /** A filtered list is as long as the number of positions that satisfy
      the predicate, so `filter(p).length` counts exactly those entries. */
  lemma {:induction false} FilterLengthCountsIndices<T>(s: seq<T>, p: T -> bool)
    ensures |Filter(s, p)| == |IndicesWhere(s, p)|
    decreases |s|
  {
    if s == [] {
      assert IndicesWhere(s, p) == {};
    } else {
      var n := |s| - 1;
      FilterLengthCountsIndices(s[..n], p);
      FilterSnoc(s, p);
      IndicesSnoc(s, p);
    }
  }

  /** `s.filter((_, i) => i !== index)`, written as the source writes it:
      every position is visited and only the one equal to `index` is dropped.
      `from` is the position of `s[0]` in the original list. */
  function DropIndexFrom<T>(s: seq<T>, index: int, from: int): seq<T>
    decreases |s|
  {
    if s == [] then []
    else if from == index then DropIndexFrom(s[1..], index, from + 1)
    else [s[0]] + DropIndexFrom(s[1..], index, from + 1)
  }

  function DropIndex<T>(s: seq<T>, index: int): seq<T>
  {
    DropIndexFrom(s, index, 0)
  }

  lemma {:induction false} DropIndexFromAbsent<T>(s: seq<T>, index: int, from: int)
    requires index < from || from + |s| <= index
    ensures DropIndexFrom(s, index, from) == s
    decreases |s|
  {
    if s != [] {
      DropIndexFromAbsent(s[1..], index, from + 1);
      assert s == [s[0]] + s[1..];
    }
  }

  lemma {:induction false} DropIndexFromPresent<T>(s: seq<T>, index: int, from: int)
    requires from <= index < from + |s|
    ensures DropIndexFrom(s, index, from) == s[..index - from] + s[index - from + 1..]
    decreases |s|
  {
    if from == index {
      DropIndexFromAbsent(s[1..], index, from + 1);
    } else {
      DropIndexFromPresent(s[1..], index, from + 1);
      assert s[1..][..index - from - 1] == s[1..index - from];
      assert s[1..][index - from..] == s[index - from + 1..];
      assert [s[0]] + s[1..index - from] == s[..index - from];
    }
  }

  /** Removing by index drops exactly that element and keeps the others in
      order; an index outside the list changes nothing. */
  lemma DropIndexSpec<T>(s: seq<T>, index: int)
    ensures 0 <= index < |s| ==> DropIndex(s, index) == s[..index] + s[index + 1..]
    ensures !(0 <= index < |s|) ==> DropIndex(s, index) == s
  {
    if 0 <= index < |s| {
      DropIndexFromPresent(s, index, 0);
    } else {
      DropIndexFromAbsent(s, index, 0);
    }
  }
}

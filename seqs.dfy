/** `Array.prototype.filter` on sequences: keep, in order, the elements that
    satisfy a predicate. The cart removal, the drink and category lists and
    the admin counters are all filters. */
module Seqs {

  function Filter<T(!new)>(s: seq<T>, p: T -> bool): (r: seq<T>)
    ensures |r| <= |s|
    ensures forall x :: x in r <==> x in s && p(x)
  {
    if s == [] then []
    else
      var last := s[|s| - 1];
      assert forall x :: x in s <==> x in s[..|s| - 1] || x == last;
      Filter(s[..|s| - 1], p) + (if p(last) then [last] else [])
  }

  /** The complement of a predicate. */
  function Not<T>(p: T -> bool): T -> bool {
    x => !p(x)
  }

  /** The positions of `s` whose element satisfies `p`. */
  ghost function IndicesWhere<T>(s: seq<T>, p: T -> bool): set<int> {
    set i | 0 <= i < |s| && p(s[i])
  }

  /** Filtering distributes over concatenation: the order of the kept
      elements is the order of the input. */
  lemma {:induction false} FilterConcat<T(!new)>(a: seq<T>, b: seq<T>, p: T -> bool)
    ensures Filter(a + b, p) == Filter(a, p) + Filter(b, p)
    decreases |b|
  {
    if b == [] {
      assert a + b == a;
    } else {
      var b' := b[..|b| - 1];
      var last := b[|b| - 1];
      assert (a + b)[..|a + b| - 1] == a + b';
      FilterConcat(a, b', p);
    }
  }

  /** When every element satisfies the predicate, filtering changes nothing. */
  lemma {:induction false} FilterKeepsAll<T(!new)>(s: seq<T>, p: T -> bool)
    requires forall x :: x in s ==> p(x)
    ensures Filter(s, p) == s
  {
    if s != [] {
      var s', last := s[..|s| - 1], s[|s| - 1];
      assert s == s' + [last];
      assert p(last);
      FilterKeepsAll(s', p);
    }
  }

  /** The length of a filter is the number of positions whose element
      satisfies the predicate. */
  lemma {:induction false} FilterCount<T(!new)>(s: seq<T>, p: T -> bool)
    ensures |Filter(s, p)| == |IndicesWhere(s, p)|
  {
    if s == [] {
      assert IndicesWhere(s, p) == {};
    } else {
      var n := |s| - 1;
      FilterCount(s[..n], p);
      IndicesWhereStep(s, p);
    }
  }

  /** The positions of a non-empty sequence are those of its prefix plus,
      if its last element qualifies, the last position. */
  lemma IndicesWhereStep<T>(s: seq<T>, p: T -> bool)
    requires s != []
    ensures var n := |s| - 1;
            |IndicesWhere(s, p)| == |IndicesWhere(s[..n], p)| + (if p(s[n]) then 1 else 0)
  {
    var n := |s| - 1;
    var before, after := IndicesWhere(s[..n], p), IndicesWhere(s, p);
    forall i | 0 <= i < n
      ensures s[..n][i] == s[i]
    {
    }
    if p(s[n]) {
      assert after == before + {n};
    } else {
      assert after == before;
    }
  }
}

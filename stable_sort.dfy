/**
 * A stable sort by an integer rank. A comparator of the form
 * `(a, b) => rank(a) - rank(b)` handed to the stable `Array.prototype.sort`
 * orders exactly like this: ascending rank, ties in their original order.
 */
module StableSort {
  import opened Seqs

  /** Ranks never decrease from left to right. */
  ghost predicate SortedBy<T>(s: seq<T>, rank: T -> int)
  {
    forall i, j :: 0 <= i < j < |s| ==> rank(s[i]) <= rank(s[j])
  }

  /** The predicate "has rank `k`", used to pick out one group of ties. */
  function RankIs<T>(rank: T -> int, k: int): T -> bool
  {
    x => rank(x) == k
  }

  /** Puts `x` in front of the first element whose rank is at least its own. */
  function Insert<T>(x: T, s: seq<T>, rank: T -> int): (r: seq<T>)
    ensures multiset(r) == multiset(s) + multiset{x}
  {
    if s == [] then [x]
    else if rank(x) <= rank(s[0]) then [x] + s
    else
      assert s == [s[0]] + s[1..];
      [s[0]] + Insert(x, s[1..], rank)
  }

  /** Insertion sort, inserting each element in front of the sorted rest. */
  function Sort<T>(xs: seq<T>, rank: T -> int): (r: seq<T>)
    ensures multiset(r) == multiset(xs)
  {
    if xs == [] then []
    else
      assert xs == [xs[0]] + xs[1..];
      Insert(xs[0], Sort(xs[1..], rank), rank)
  }

  lemma {:induction false} InsertSorted<T>(x: T, s: seq<T>, rank: T -> int)
    requires SortedBy(s, rank)
    ensures SortedBy(Insert(x, s, rank), rank)
  {
    if s != [] && rank(x) > rank(s[0]) {
      var tail := Insert(x, s[1..], rank);
      InsertSorted(x, s[1..], rank);
      forall y | y in tail
        ensures rank(s[0]) <= rank(y)
      {
        assert y in multiset(tail);
        assert y == x || y in s[1..];
      }
      assert Insert(x, s, rank) == [s[0]] + tail;
    }
  }

  /** The sort yields ranks in ascending order. */
  lemma {:induction false} SortSorted<T>(xs: seq<T>, rank: T -> int)
    ensures SortedBy(Sort(xs, rank), rank)
  {
    if xs != [] {
      SortSorted(xs[1..], rank);
      InsertSorted(xs[0], Sort(xs[1..], rank), rank);
    }
  }

  /** Inserting `x` puts it ahead of every element that ties with it. */
  lemma {:induction false} InsertStable<T>(x: T, s: seq<T>, rank: T -> int, k: int)
    ensures Filter(Insert(x, s, rank), RankIs(rank, k))
         == (if rank(x) == k then [x] else []) + Filter(s, RankIs(rank, k))
  {
    var p := RankIs(rank, k);
    if s == [] {
    } else if rank(x) <= rank(s[0]) {
      assert ([x] + s)[1..] == s;
    } else {
      InsertStable(x, s[1..], rank, k);
      assert ([s[0]] + Insert(x, s[1..], rank))[1..] == Insert(x, s[1..], rank);
      if p(s[0]) {
        assert rank(x) != k;
      }
    }
  }

  /**
   * Stability: for every rank, the elements of that rank appear in the
   * result in the order they had in the input.
   */
  lemma {:induction false} SortStable<T>(xs: seq<T>, rank: T -> int, k: int)
    ensures Filter(Sort(xs, rank), RankIs(rank, k)) == Filter(xs, RankIs(rank, k))
  {
    if xs != [] {
      SortStable(xs[1..], rank, k);
      InsertStable(xs[0], Sort(xs[1..], rank), rank, k);
    }
  }

  /** An element of a sequence that passes `p` leaves the filtered sequence non-empty. */
  lemma FilterNonEmpty<T>(s: seq<T>, p: T -> bool, i: nat)
    requires i < |s| && p(s[i])
    ensures Filter(s, p) != []
  {
    FilterCount(s, p, s[i]);
    assert s[i] in multiset(s);
  }

  /**
   * Uniqueness: two sequences sorted by rank that agree on the order of every
   * group of ties are the same sequence. Hence any stable sort with the
   * comparator `rank(a) - rank(b)` returns exactly `Sort(xs, rank)`.
   */
  lemma {:induction false} SortedTiesDetermine<T>(r1: seq<T>, r2: seq<T>, rank: T -> int)
    requires SortedBy(r1, rank) && SortedBy(r2, rank)
    requires forall k :: Filter(r1, RankIs(rank, k)) == Filter(r2, RankIs(rank, k))
    ensures r1 == r2
  {
    if r1 != [] {
      FilterNonEmpty(r1, RankIs(rank, rank(r1[0])), 0);
    }
    if r2 != [] {
      FilterNonEmpty(r2, RankIs(rank, rank(r2[0])), 0);
    }
    if r1 != [] && r2 != [] {
      var m1, m2 := rank(r1[0]), rank(r2[0]);
      RankOfFiltered(r2, rank, m1);
      RankOfFiltered(r1, rank, m2);
      assert m1 == m2;
      var m := m1;
      assert Filter(r1, RankIs(rank, m)) == [r1[0]] + Filter(r1[1..], RankIs(rank, m));
      assert Filter(r2, RankIs(rank, m)) == [r2[0]] + Filter(r2[1..], RankIs(rank, m));
      assert Filter(r1, RankIs(rank, m)) == Filter(r2, RankIs(rank, m));
      assert r1[0] == Filter(r1, RankIs(rank, m))[0] == r2[0];
      forall k
        ensures Filter(r1[1..], RankIs(rank, k)) == Filter(r2[1..], RankIs(rank, k))
      {
        assert Filter(r1, RankIs(rank, k)) == Filter(r2, RankIs(rank, k));
        if k != m {
          assert !RankIs(rank, k)(r1[0]) && !RankIs(rank, k)(r2[0]);
          assert Filter(r1, RankIs(rank, k)) == Filter(r1[1..], RankIs(rank, k));
          assert Filter(r2, RankIs(rank, k)) == Filter(r2[1..], RankIs(rank, k));
        } else {
          assert Filter(r1[1..], RankIs(rank, k)) == Filter(r1, RankIs(rank, k))[1..];
          assert Filter(r2[1..], RankIs(rank, k)) == Filter(r2, RankIs(rank, k))[1..];
        }
      }
      SortedTiesDetermine(r1[1..], r2[1..], rank);
      assert r1 == [r1[0]] + r1[1..] && r2 == [r2[0]] + r2[1..];
    }
  }

  /**
   * In a sorted non-empty sequence, the group of some other sequence's first
   * element is non-empty only if that rank is at least the first rank here.
   */
  lemma RankOfFiltered<T>(s: seq<T>, rank: T -> int, k: int)
    requires SortedBy(s, rank) && s != []
    requires Filter(s, RankIs(rank, k)) != []
    ensures rank(s[0]) <= k
  {
    var f := Filter(s, RankIs(rank, k));
    var y := f[0];
    FilterCount(s, RankIs(rank, k), y);
    assert y in multiset(f);
    assert y in s;
  }

  /** The sort is the stable sort: it agrees with every sorted, tie-preserving rearrangement. */
  lemma SortIsTheStableSort<T>(xs: seq<T>, r: seq<T>, rank: T -> int)
    requires SortedBy(r, rank)
    requires forall k :: Filter(r, RankIs(rank, k)) == Filter(xs, RankIs(rank, k))
    ensures r == Sort(xs, rank)
  {
    SortSorted(xs, rank);
    forall k
      ensures Filter(r, RankIs(rank, k)) == Filter(Sort(xs, rank), RankIs(rank, k))
    {
      SortStable(xs, rank, k);
    }
    SortedTiesDetermine(r, Sort(xs, rank), rank);
  }
}

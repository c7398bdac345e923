/**
 Ascending sort of a dataset: a range partitioner over boundaries taken from a sample, and a shuffle
 with sorted buckets.
 */
module SortDataset {
  import opened Sequences
  import opened Sorting
  import opened Buckets
  import opened ShuffledDataset
  import Tilings

  ghost predicate Ascending(xs: seq<int>) {
    forall i, j :: 0 <= i < j < |xs| ==> xs[i] <= xs[j]
  }

  /** The binary search for a value; only in ascending boundaries it finds the right position. */
  function BisectLeft(boundaries: seq<int>, value: int): (r: nat)
    ensures r <= |boundaries|
  {
    BinarySearch(boundaries, (b: int) => b < value, 0, |boundaries|)
  }

  /** The first position whose boundary is not below the value. */
  lemma BisectFinds(boundaries: seq<int>, value: int)
    requires Ascending(boundaries)
    ensures forall i :: 0 <= i < BisectLeft(boundaries, value) ==> boundaries[i] < value
    ensures forall i :: BisectLeft(boundaries, value) <= i < |boundaries| ==> value <= boundaries[i]
  {
    BinarySearchFinds(boundaries, (b: int) => b < value, 0, |boundaries|);
  }

  /** In any boundaries, ascending or not, a larger value is never before a smaller one. */
  lemma BisectMonotone(boundaries: seq<int>, v: int, w: int)
    requires v <= w
    ensures BisectLeft(boundaries, v) <= BisectLeft(boundaries, w)
  {
    BinarySearchMonotone(boundaries, (b: int) => b < v, (b: int) => b < w, 0, |boundaries|);
  }

  /** Each of the sorted values once. */
  function Distinct(xs: seq<int>): seq<int> {
    if |xs| < 2 then xs
    else if xs[0] == xs[1] then Distinct(xs[1..])
    else [xs[0]] + Distinct(xs[1..])
  }

  function Keys<T>(samples: seq<T>, key: T -> int): seq<int> {
    seq(|samples|, i requires 0 <= i < |samples| => key(samples[i]))
  }

  /** The sorted sample keys; with a key function, without duplicates. */
  function Points<T>(samples: seq<T>, key: T -> int, keyed: bool): seq<int> {
    var sorted := StableSort(Keys(samples, key), (k: int) => k);
    if keyed then Distinct(sorted) else sorted
  }

  ghost predicate StrictlyAscending(xs: seq<int>) {
    forall i, j :: 0 <= i < j < |xs| ==> xs[i] < xs[j]
  }

  lemma {:induction false} DistinctAscending(xs: seq<int>)
    requires Ascending(xs)
    ensures StrictlyAscending(Distinct(xs)) && forall x :: x in Distinct(xs) <==> x in xs
  {
    if |xs| >= 2 {
      DistinctAscending(xs[1..]);
      var rest := Distinct(xs[1..]);
      assert xs == [xs[0]] + xs[1..];
      if xs[0] == xs[1] {
        assert xs[1..][0] == xs[0];
      } else {
        var all := [xs[0]] + rest;
        forall i, j | 0 <= i < j < |all| ensures all[i] < all[j] {
          assert all[j] == rest[j - 1] && rest[j - 1] in rest;
          var k :| 0 <= k < |xs[1..]| && xs[1..][k] == all[j];
          assert xs[1] <= xs[1 + k];
          assert i > 0 ==> all[i] == rest[i - 1];
        }
      }
    }
  }

  /** The points are the keys of the sample. */
  lemma PointsAscending<T>(samples: seq<T>, key: T -> int, keyed: bool)
    ensures Ascending(Points(samples, key, keyed)) && (keyed ==> StrictlyAscending(Points(samples, key, keyed)))
    ensures Points(samples, key, keyed) == [] <==> samples == []
    ensures forall k :: k in Points(samples, key, keyed) <==> k in Keys(samples, key)
    ensures !keyed ==> multiset(Points(samples, key, keyed)) == multiset(Keys(samples, key))
  {
    var keys := Keys(samples, key);
    var sorted := StableSort(keys, (k: int) => k);
    StableSortSorts(keys, (k: int) => k);
    assert |sorted| == |multiset(sorted)| == |multiset(keys)| == |keys|;
    assert Ascending(sorted);
    DistinctAscending(sorted);
    forall k ensures k in sorted <==> k in keys {
      assert k in multiset(sorted) <==> k in multiset(keys);
    }
    assert samples != [] ==> keys[0] in keys;
    var points := Points(samples, key, keyed);
    assert points != [] ==> points[0] in points;
  }

  lemma QuotientBelow(a: nat, n: nat, c: nat)
    requires n > 0 && a < n * c
    ensures a / n < c
  {
    var q := a / n;
    assert n * q <= a;
    if q >= c {
      Tilings.ProductAbove(n, c, q);
    }
  }

  lemma PointIndex(count: nat, pcount: nat, i: nat)
    requires count > 0 && i + 1 < pcount
    ensures 0 <= count * (i + 1) / pcount < count
  {
    var k := i + 1;
    assert count * k < count * pcount by {
      Tilings.ProductAbove(count, k + 1, pcount);
      assert count * (k + 1) == count * k + count;
    }
    QuotientBelow(count * k, pcount, count);
  }

  lemma IndexMonotone(a: nat, b: nat, n: nat)
    requires a <= b && n > 0
    ensures a / n <= b / n
  {
    var q := b / n;
    assert b < n * q + n && n * q + n == n * (q + 1);
    QuotientBelow(a, n, q + 1);
  }

  function Boundary(points: seq<int>, pcount: nat, i: nat): int
    requires points != [] && i + 1 < pcount
  {
    PointIndex(|points|, pcount, i);
    points[|points| * (i + 1) / pcount]
  }

  /** pcount - 1 points evenly spaced over the sample. */
  function Boundaries(points: seq<int>, pcount: nat): seq<int>
    requires points != []
  {
    if pcount == 0 then [] else seq(pcount - 1, i requires 0 <= i < pcount - 1 => Boundary(points, pcount, i))
  }

  lemma BoundariesAscending(points: seq<int>, pcount: nat)
    requires points != [] && Ascending(points)
    ensures Ascending(Boundaries(points, pcount))
  {
    var bs := Boundaries(points, pcount);
    forall i, j | 0 <= i < j < |bs| ensures bs[i] <= bs[j] {
      Tilings.ProductAbove(|points|, i + 1, j + 1);
      IndexMonotone(|points| * (i + 1), |points| * (j + 1), pcount);
      PointIndex(|points|, pcount, i);
      PointIndex(|points|, pcount, j);
    }
  }

  // ---- balance -------------------------------------------------------------------------------

  /** The positions of the points sent to a partition. */
  ghost function SentTo(points: seq<int>, boundaries: seq<int>, p: nat): set<nat> {
    set i: nat | i < |points| && BisectLeft(boundaries, points[i]) == p
  }

  /** No partition has its even share of the points exceeded or missed by more than one. */
  ghost predicate Balanced(points: seq<int>, boundaries: seq<int>, pcount: nat) {
    forall p: nat :: p < pcount ==>
      |points| - pcount <= pcount * |SentTo(points, boundaries, p)| <= |points| + pcount
  }

  lemma CountRange(r: set<nat>, lo: nat, hi: nat)
    requires lo <= hi && forall i: nat :: i in r <==> lo <= i < hi
    ensures |r| == hi - lo
  {
    assert Below(lo) <= Below(hi);
    assert r == Below(hi) - Below(lo);
  }

  lemma BisectRange(boundaries: seq<int>, value: int, p: nat)
    requires Ascending(boundaries) && p <= |boundaries|
    ensures BisectLeft(boundaries, value) == p <==>
      (p > 0 ==> boundaries[p - 1] < value) && (p < |boundaries| ==> value <= boundaries[p])
  {
    BisectFinds(boundaries, value);
  }

  /** The position of the point that is boundary i - 1. */
  function Cut(n: nat, pcount: nat, i: nat): nat
    requires pcount > 0
  {
    n * i / pcount
  }

  lemma BoundaryAt(points: seq<int>, pcount: nat, i: nat)
    requires points != [] && i + 1 < pcount
    ensures Cut(|points|, pcount, i + 1) < |points|
    ensures Boundaries(points, pcount)[i] == points[Cut(|points|, pcount, i + 1)]
  {
    PointIndex(|points|, pcount, i);
  }

  /** The points sent to a partition are those behind one cut, up to and including the next. */
  lemma SentBetween(points: seq<int>, pcount: nat, p: nat)
    requires points != [] && StrictlyAscending(points) && p < pcount
    ensures var n := |points|;
      var lo := if p == 0 then 0 else Cut(n, pcount, p) + 1;
      var hi := if p == pcount - 1 then n else Cut(n, pcount, p + 1) + 1;
      lo <= hi && |SentTo(points, Boundaries(points, pcount), p)| == hi - lo
  {
    var n, bs := |points|, Boundaries(points, pcount);
    var lo := if p == 0 then 0 else Cut(n, pcount, p) + 1;
    var hi := if p == pcount - 1 then n else Cut(n, pcount, p + 1) + 1;
    BoundariesAscending(points, pcount);
    if p > 0 {
      BoundaryAt(points, pcount, p - 1);
    }
    if p < pcount - 1 {
      BoundaryAt(points, pcount, p);
    }
    CutsAscend(n, pcount, p);
    forall i: nat ensures i in SentTo(points, bs, p) <==> lo <= i < hi {
      if i < n {
        BisectRange(bs, points[i], p);
      }
    }
    CountRange(SentTo(points, bs, p), lo, hi);
  }

  lemma CutsAscend(n: nat, pcount: nat, p: nat)
    requires pcount > 0
    ensures Cut(n, pcount, p) <= Cut(n, pcount, p + 1)
  {
    Tilings.ProductAbove(n, p, p + 1);
    IndexMonotone(n * p, n * (p + 1), pcount);
  }

  /** The sizes of the ranges between the cuts, times the number of partitions. */
  lemma Shares(n: nat, pcount: nat, p: nat)
    requires p < pcount && pcount > 1
    ensures var lo := if p == 0 then 0 else Cut(n, pcount, p) + 1;
      var hi := if p == pcount - 1 then n else Cut(n, pcount, p + 1) + 1;
      n - pcount <= pcount * (hi - lo) <= n + pcount
  {
    if p == 0 {
      FirstShare(n, pcount);
    } else if p < pcount - 1 {
      MiddleShare(n, pcount, p);
    } else {
      LastShare(n, pcount, p);
    }
  }

  lemma FirstShare(n: nat, pcount: nat)
    requires pcount > 0
    ensures n - pcount <= pcount * (Cut(n, pcount, 1) + 1) <= n + pcount
  {
    var r := Tilings.Quotient(n * 1, pcount);
    SharesOf(n, pcount, 0, n, 0, r);
  }

  lemma MiddleShare(n: nat, pcount: nat, p: nat)
    requires pcount > 0
    ensures n - pcount <= pcount * (Cut(n, pcount, p + 1) - Cut(n, pcount, p)) <= n + pcount
  {
    var q := Tilings.Quotient(n * p, pcount);
    var r := Tilings.Quotient(n * (p + 1), pcount);
    Tilings.Summed(n, p, 1);
    SharesOf(n, pcount, n * p, n * (p + 1), q, r);
  }

  lemma LastShare(n: nat, pcount: nat, k: nat)
    requires pcount == k + 1
    ensures n - pcount <= pcount * (n - (Cut(n, pcount, k) + 1)) <= n + pcount
  {
    var q := Tilings.Quotient(n * k, pcount);
    Tilings.Summed(n, k, 1);
    SharesLast(n, pcount, n * k, q);
  }

  lemma SharesOf(n: nat, pcount: nat, a: nat, b: nat, q: nat, r: nat)
    requires pcount > 0 && b == a + n && Tilings.IsQuotient(q, a, pcount) && Tilings.IsQuotient(r, b, pcount)
    ensures n - pcount <= pcount * (r - q) <= n + pcount
    ensures a == 0 && q == 0 ==> n - pcount <= pcount * (r + 1) <= n + pcount
  {
    ProductDifference(pcount, r, q);
    ProductDifference(pcount, r, -1);
  }

  lemma ProductDifference(n: int, a: int, b: int)
    ensures n * (a - b) == n * a - n * b
  {
  }

  lemma SharesLast(n: nat, pcount: nat, a: nat, q: nat)
    requires pcount > 0 && a + n == n * pcount && Tilings.IsQuotient(q, a, pcount)
    ensures n - pcount <= pcount * (n - (q + 1)) <= n + pcount
  {
    ProductDifference(pcount, n, q + 1);
    Tilings.Summed(pcount, q, 1);
  }

  /** Points without duplicates are spread evenly. */
  lemma BoundariesBalance(points: seq<int>, pcount: nat)
    requires points != [] && StrictlyAscending(points) && pcount > 1
    ensures Balanced(points, Boundaries(points, pcount), pcount)
  {
    forall p: nat | p < pcount
      ensures |points| - pcount <= pcount * |SentTo(points, Boundaries(points, pcount), p)| <= |points| + pcount
    {
      SentBetween(points, pcount, p);
      Shares(|points|, pcount, p);
    }
  }

  ghost function Between(points: seq<int>, low: int, high: int): set<nat> {
    set i: nat | i < |points| && low < points[i] < high
  }

  lemma InsidePositions(points: seq<int>, c: nat, d: nat)
    requires Ascending(points) && c <= d < |points|
    ensures |Between(points, points[c], points[d])| <= if c < d then d - c - 1 else 0
  {
    var inside := Between(points, points[c], points[d]);
    if c < d {
      var between := Below(d) - Below(c + 1);
      CountRange(between, c + 1, d);
      assert inside <= between;
      SubsetSize(inside, between);
    } else {
      assert inside == {};
    }
  }

  /** With or without duplicates, at most an even share of the points is strictly between neighbouring boundaries. */
  lemma StrictlyBetween(points: seq<int>, pcount: nat, p: nat)
    requires points != [] && Ascending(points) && 0 < p < pcount - 1
    ensures var bs := Boundaries(points, pcount); pcount * |Between(points, bs[p - 1], bs[p])| <= |points|
  {
    var n, bs := |points|, Boundaries(points, pcount);
    BoundaryAt(points, pcount, p - 1);
    BoundaryAt(points, pcount, p);
    CutsAscend(n, pcount, p);
    InsidePositions(points, Cut(n, pcount, p), Cut(n, pcount, p + 1));
    InnerShare(n, pcount, p, |Between(points, bs[p - 1], bs[p])|);
  }

  lemma InnerShare(n: nat, pcount: nat, p: nat, size: nat)
    requires pcount > 0 && (size == 0 || size < Cut(n, pcount, p + 1) - Cut(n, pcount, p))
    ensures pcount * size <= n
  {
    if size > 0 {
      MiddleShare(n, pcount, p);
      var d := Cut(n, pcount, p + 1) - Cut(n, pcount, p);
      ProductDifference(pcount, d, 1);
      Tilings.ProductAbove(pcount, size, d - 1);
    }
  }

  function RangePartitioner<T>(boundaries: seq<int>, key: T -> int): T -> int {
    (x: T) => BisectLeft(boundaries, key(x))
  }

  // ---- the order of the output ---------------------------------------------------------------

  /** Everything in an earlier partition is at most everything in a later one. */
  ghost predicate InOrder<T>(out: seq<seq<T>>, key: T -> int) {
    && AllSorted(out, key)
    && forall p, q, i, j :: 0 <= p < q < |out| && 0 <= i < |out[p]| && 0 <= j < |out[q]| ==>
      key(out[p][i]) <= key(out[q][j])
  }

  lemma {:induction false} InOrderFlatten<T>(out: seq<seq<T>>, key: T -> int)
    requires InOrder(out, key)
    ensures IsSorted(Flatten(out), key)
  {
    if out != [] {
      InOrderFlatten(out[1..], key);
      forall i, x | 0 <= i < |out[0]| && x in Flatten(out[1..]) ensures key(out[0][i]) <= key(x) {
        InFlatten(out[1..], x);
        var q :| 0 <= q < |out[1..]| && x in out[1..][q];
        var j :| 0 <= j < |out[q + 1]| && out[q + 1][j] == x;
      }
      ConcatSorted(out[0], Flatten(out[1..]), key);
    }
  }

  lemma ConcatSorted<T>(xs: seq<T>, ys: seq<T>, key: T -> int)
    requires IsSorted(xs, key) && IsSorted(ys, key)
    requires forall i, y :: 0 <= i < |xs| && y in ys ==> key(xs[i]) <= key(y)
    ensures IsSorted(xs + ys, key)
  {
    var all := xs + ys;
    forall i, j | 0 <= i < j < |all| ensures key(all[i]) <= key(all[j]) {
      assert i >= |xs| ==> all[i] == ys[i - |xs|];
      assert j >= |xs| ==> all[j] == ys[j - |xs|] && all[j] in ys;
    }
  }

  /** A range is a partition: there is no wrapping around. */
  lemma InRange<T>(boundaries: seq<int>, key: T -> int, x: T, pcount: nat)
    requires |boundaries| < pcount
    ensures RangePartitioner(boundaries, key)(x) % pcount == BisectLeft(boundaries, key(x)) < pcount
  {
    SmallRemainder(BisectLeft(boundaries, key(x)), pcount);
  }

  lemma SmallRemainder(i: nat, n: nat)
    requires i < n
    ensures i % n == i
  {
  }

  /** Partitions made by ranges are in order. */
  lemma RangesInOrder<T>(out: seq<seq<T>>, key: T -> int, boundaries: seq<int>)
    requires |boundaries| < |out| && AllSorted(out, key)
    requires forall p: nat, x :: p < |out| && x in out[p] ==> RangePartitioner(boundaries, key)(x) % |out| == p
    ensures InOrder(out, key)
  {
    forall p, q, i, j | 0 <= p < q < |out| && 0 <= i < |out[p]| && 0 <= j < |out[q]|
      ensures key(out[p][i]) <= key(out[q][j])
    {
      var x, y := out[p][i], out[q][j];
      assert x in out[p] && y in out[q];
      InRange(boundaries, key, x, |out|);
      InRange(boundaries, key, y, |out|);
      if key(y) < key(x) {
        BisectMonotone(boundaries, key(y), key(x));
      }
    }
  }

  /** Each partition has the keys above its lower boundary, up to and including its upper one. */
  ghost predicate InRanges<T>(out: seq<seq<T>>, key: T -> int, boundaries: seq<int>) {
    |boundaries| < |out| && forall p: nat, x :: p < |out| && x in out[p] ==>
      (0 < p <= |boundaries| ==> boundaries[p - 1] < key(x)) && (p < |boundaries| ==> key(x) <= boundaries[p])
        && p <= |boundaries|
  }

  lemma RangesBound<T>(out: seq<seq<T>>, key: T -> int, boundaries: seq<int>)
    requires Ascending(boundaries) && |boundaries| < |out|
    requires forall p: nat, x :: p < |out| && x in out[p] ==> RangePartitioner(boundaries, key)(x) % |out| == p
    ensures InRanges(out, key, boundaries)
  {
    forall p: nat, x | p < |out| && x in out[p]
      ensures p <= |boundaries| && (p > 0 ==> boundaries[p - 1] < key(x))
        && (p < |boundaries| ==> key(x) <= boundaries[p])
    {
      InRange(boundaries, key, x, |out|);
      BisectFinds(boundaries, key(x));
    }
  }

  // ---- sorting -------------------------------------------------------------------------------

  datatype Outcome<T> = Sorted(parts: seq<seq<T>>) | NoSamples

  /** A dataset without elements is its own sorted form, when its size is counted before sampling. */
  predicate Unsampled<T>(parts: seq<seq<T>>, pcount: nat, counted: bool) {
    pcount != 1 && counted && Flatten(parts) == []
  }

  /**
   Sorts with any sample.  With more than one output partition an empty sample is an error, unless the
   size of the dataset is counted and is zero; otherwise the output is a sorted rearrangement of the
   input.  A count of 0 stands for that of the source.
   */
  method Sort<T(!new)>(
    parts: seq<seq<T>>, samples: seq<T>, pcount: nat, counted: bool, key: T -> int, keyed: bool, hash: int -> int,
    nodes: nat, runs: seq<Run>, size: Block<T> -> nat, limit: nat)
    returns (r: Outcome<T>)
    requires Covering(runs, |parts|, nodes) && forall block :: size(block) > 0
    ensures r.NoSamples? <==> pcount != 1 && samples == [] && !Unsampled(parts, pcount, counted)
    ensures r.Sorted? ==> multiset(Flatten(r.parts)) == multiset(Flatten(parts)) && IsSorted(Flatten(r.parts), key)
    ensures r.Sorted? && pcount > 1 && !Unsampled(parts, pcount, counted) ==>
      var points := Points(samples, key, keyed);
      && points != [] && InRanges(r.parts, key, Boundaries(points, pcount))
      && (keyed ==> Balanced(points, Boundaries(points, pcount), pcount))
    ensures r.Sorted? ==> |r.parts| == if pcount == 0 || Unsampled(parts, pcount, counted) then |parts| else pcount
  {
    var boundaries: seq<int> := [];
    var partitioner := (x: T) => hash(key(x));
    if pcount != 1 {
      if counted && |Flatten(parts)| == 0 {
        return Sorted(parts);
      }
      if samples == [] {
        return NoSamples;
      }
      PointsAscending(samples, key, keyed);
      boundaries := Boundaries(Points(samples, key, keyed), pcount);
      BoundariesAscending(Points(samples, key, keyed), pcount);
      if keyed && pcount > 1 {
        BoundariesBalance(Points(samples, key, keyed), pcount);
      }
      partitioner := RangePartitioner(boundaries, key);
    }
    var count := if pcount == 0 then |parts| else pcount;
    if count == 0 {
      return Sorted([]);
    }
    var o := Options(count, partitioner, true, false, keyed, key, key, (xs: seq<T>) => xs, size, limit);
    var out := RunShuffle(parts, o, nodes, runs);
    ShuffleConserves(parts, o, out);
    if pcount == 1 {
      assert InOrder(out, key);
    } else {
      RangesInOrder(out, key, boundaries);
      RangesBound(out, key, boundaries);
    }
    InOrderFlatten(out, key);
    return Sorted(out);
  }
}

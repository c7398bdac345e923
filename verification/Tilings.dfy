/**
 Partitions of ranges, collections and coalesced datasets: they follow one another and make up the
 whole.
 */
module Tilings {
  import opened Sequences

  // ---- ranges --------------------------------------------------------------------------------

  /** The numbers from start towards stop, exclusive. */
  function Range(start: int, stop: int, step: int): seq<int>
    requires step != 0
    decreases if step > 0 then stop - start else start - stop
  {
    if (step > 0 && start >= stop) || (step < 0 && start <= stop) then []
    else [start] + Range(start + step, stop, step)
  }

  /** A given number of steps from start. */
  function Steps(start: int, step: int, n: nat): seq<int>
    decreases n
  {
    if n == 0 then [] else [start] + Steps(start + step, step, n - 1)
  }

  lemma {:induction false} RangeIsSteps(start: int, stop: int, step: int)
    requires step != 0
    ensures Range(start, stop, step) == Steps(start, step, |Range(start, stop, step)|)
    decreases if step > 0 then stop - start else start - stop
  {
    if !((step > 0 && start >= stop) || (step < 0 && start <= stop)) {
      RangeIsSteps(start + step, stop, step);
    }
  }

  /** A range whose bounds are n steps apart has n elements. */
  lemma {:induction false} StepsIsRange(start: int, step: int, n: nat)
    requires step != 0
    ensures Range(start, start + n * step, step) == Steps(start, step, n)
    decreases n
  {
    if n > 0 {
      StepsIsRange(start + step, step, n - 1);
      assert start + n * step == (start + step) + (n - 1) * step;
      assert step > 0 ==> n * step > 0;
      assert step < 0 ==> n * step < 0;
    }
  }

  lemma {:induction false} StepsConcat(start: int, step: int, a: nat, b: nat)
    ensures Steps(start, step, a + b) == Steps(start, step, a) + Steps(start + a * step, step, b)
    decreases a
  {
    if a > 0 {
      StepsConcat(start + step, step, a - 1, b);
      assert start + a * step == (start + step) + (a - 1) * step;
    }
  }

  lemma {:induction false} StepsLength(start: int, step: int, n: nat)
    ensures |Steps(start, step, n)| == n
    decreases n
  {
    if n > 0 {
      StepsLength(start + step, step, n - 1);
    }
  }

  /** The offset of a partition, in elements. */
  function Offset(idx: nat, length: nat, pcount: nat): (r: nat)
    requires pcount > 0
  {
    idx * length / pcount
  }

  function RangePart(start: int, step: int, length: nat, pcount: nat, idx: nat): seq<int>
    requires pcount > 0 && step != 0
  {
    Range(start + Offset(idx, length, pcount) * step, start + Offset(idx + 1, length, pcount) * step, step)
  }

  function RangeParts(start: int, step: int, length: nat, pcount: nat): seq<seq<int>>
    requires pcount > 0 && step != 0
  {
    seq(pcount, idx requires 0 <= idx < pcount => RangePart(start, step, length, pcount, idx))
  }

  lemma Divided(a: nat, n: nat)
    requires n > 0
    ensures n * (a / n) <= a < n * (a / n) + n
  {
  }

  lemma ProductOrder(n: nat, a: int, b: int)
    requires n > 0 && n * a < n * b
    ensures a < b
  {
  }

  ghost predicate IsQuotient(q: nat, a: nat, n: nat) { n * q <= a < n * q + n }

  lemma Quotient(a: nat, n: nat) returns (q: nat)
    requires n > 0
    ensures q == a / n && IsQuotient(q, a, n)
  {
    q := a / n;
    Divided(a, n);
  }

  /** Consecutive offsets are apart by the even share, rounded down or up. */
  lemma OffsetStep(idx: nat, length: nat, pcount: nat)
    requires pcount > 0
    ensures length / pcount <= Offset(idx + 1, length, pcount) - Offset(idx, length, pcount) <= length / pcount + 1
  {
    NextMultiple(idx, length);
    var qa := Quotient(idx * length, pcount);
    var qb := Quotient((idx + 1) * length, pcount);
    var ql := Quotient(length, pcount);
    OffsetBounds(pcount, idx * length, (idx + 1) * length, length, qa, qb, ql);
  }

  lemma NextMultiple(k: nat, n: nat)
    ensures (k + 1) * n == k * n + n
  {
  }

  /** The quotients of a sum are apart by the quotient of what is added, rounded down or up. */
  lemma OffsetBounds(n: nat, a: nat, b: nat, l: nat, qa: nat, qb: nat, ql: nat)
    requires n > 0 && b == a + l && IsQuotient(qa, a, n) && IsQuotient(qb, b, n) && IsQuotient(ql, l, n)
    ensures ql <= qb - qa <= ql + 1
  {
    var low, high := qa + ql, qa + ql + 2;
    Summed(n, qa, ql);
    Summed(n, qb, 1);
    Summed(n, qa + ql, 2);
    ProductOrder(n, low, qb + 1);
    ProductOrder(n, qb, high);
  }

  lemma Summed(n: int, a: int, b: int)
    ensures n * (a + b) == n * a + n * b
  {
  }

  lemma OffsetEnds(length: nat, pcount: nat)
    requires pcount > 0
    ensures Offset(0, length, pcount) == 0 && Offset(pcount, length, pcount) == length
  {
    QuotientUnique(pcount, pcount * length, length);
  }

  lemma QuotientUnique(n: nat, a: nat, q: nat)
    requires n > 0 && n * q <= a < n * q + n
    ensures a / n == q
  {
    var r := a / n;
    Divided(a, n);
    assert n * (r + 1) == n * r + n && n * (q + 1) == n * q + n;
    ProductOrder(n, q, r + 1);
    ProductOrder(n, r, q + 1);
  }

  lemma ProductAbove(n: nat, a: nat, b: nat)
    requires a <= b
    ensures n * a <= n * b
  {
  }

  lemma RangePartSteps(start: int, step: int, length: nat, pcount: nat, idx: nat)
    requires pcount > 0 && step != 0
    ensures Offset(idx, length, pcount) <= Offset(idx + 1, length, pcount)
    ensures RangePart(start, step, length, pcount, idx) ==
      Steps(start + Offset(idx, length, pcount) * step, step,
        Offset(idx + 1, length, pcount) - Offset(idx, length, pcount))
  {
    OffsetStep(idx, length, pcount);
    var a, b := Offset(idx, length, pcount), Offset(idx + 1, length, pcount);
    Distribute(a, b, step);
    StepsIsRange(start + a * step, step, b - a);
  }

  lemma Distribute(a: int, b: int, step: int)
    ensures a * step + (b - a) * step == b * step
  {
  }

  lemma {:induction false} PartsPrefix(start: int, step: int, length: nat, pcount: nat, n: nat)
    requires pcount > 0 && step != 0 && n <= pcount
    ensures Flatten(RangeParts(start, step, length, pcount)[..n]) == Steps(start, step, Offset(n, length, pcount))
  {
    var parts := RangeParts(start, step, length, pcount);
    if n == 0 {
      OffsetEnds(length, pcount);
    } else {
      PartsPrefix(start, step, length, pcount, n - 1);
      assert parts[..n] == parts[..n - 1] + [parts[n - 1]];
      FlattenAppend(parts[..n - 1], parts[n - 1]);
      RangePartSteps(start, step, length, pcount, n - 1);
      var a, b := Offset(n - 1, length, pcount), Offset(n, length, pcount);
      StepsConcat(start, step, a, b - a);
    }
  }

  /** For any step, the partitions make up the range, and their sizes differ by at most one. */
  lemma RangePartsTile(start: int, stop: int, step: int, pcount: nat)
    requires pcount > 0 && step != 0
    ensures var length := |Range(start, stop, step)|;
      var parts := RangeParts(start, step, length, pcount);
      && Flatten(parts) == Range(start, stop, step)
      && forall i :: 0 <= i < pcount ==> length / pcount <= |parts[i]| <= length / pcount + 1
  {
    var length := |Range(start, stop, step)|;
    var parts := RangeParts(start, step, length, pcount);
    PartsPrefix(start, step, length, pcount, pcount);
    assert parts[..pcount] == parts;
    OffsetEnds(length, pcount);
    RangeIsSteps(start, stop, step);
    forall i | 0 <= i < pcount ensures length / pcount <= |parts[i]| <= length / pcount + 1 {
      OffsetStep(i, length, pcount);
      RangePartSteps(start, step, length, pcount, i);
      StepsLength(start + Offset(i, length, pcount) * step, step,
        Offset(i + 1, length, pcount) - Offset(i, length, pcount));
    }
  }

  /** A stop of zero is taken for a missing one: then the start is the stop. */
  function Bounds(start: int, stop: int): (int, int) {
    if stop == 0 then (0, start) else (start, stop)
  }

  lemma RangeEmpty(start: int, stop: int, step: int)
    requires step != 0
    ensures Range(start, stop, step) == [] <==> (if step > 0 then start >= stop else start <= stop)
    ensures Range(start, stop, step) != [] ==> Range(start, stop, step)[0] == start
  {
  }

  /** The dataset holds the range asked for exactly when stop is not zero, or the range is empty anyway. */
  lemma BoundsHonoured(start: int, stop: int, step: int)
    requires step != 0
    ensures Range(Bounds(start, stop).0, Bounds(start, stop).1, step) == Range(start, stop, step) <==>
      stop != 0 || start == 0
  {
    RangeEmpty(start, stop, step);
    RangeEmpty(Bounds(start, stop).0, Bounds(start, stop).1, step);
  }

  /** For example, counting down from five to zero, exclusive. */
  lemma CountdownLost()
    ensures Range(5, 0, -1) == [5, 4, 3, 2, 1] && Range(Bounds(5, 0).0, Bounds(5, 0).1, -1) == []
  {
    assert Range(1, 0, -1) == [1];
    assert Range(3, 0, -1) == [3, 2, 1];
  }

  // ---- collections ---------------------------------------------------------------------------

  /** A slice, which stops at the end of the collection. */
  function Slice<T>(xs: seq<T>, lo: nat, hi: nat): seq<T>
    requires lo <= hi
  {
    xs[Smaller(lo, |xs|)..Smaller(hi, |xs|)]
  }

  function StepSize(length: nat, pcount: nat): (step: nat)
    requires pcount > 0
    ensures step > 0
  {
    var ceiling := (length + pcount - 1) / pcount;
    if ceiling > 1 then ceiling else 1
  }

  /** The non-empty ones of the first n slices. */
  function CollectionParts<T>(xs: seq<T>, step: nat, n: nat): seq<seq<T>> {
    if n == 0 then []
    else
      var part := Slice(xs, (n - 1) * step, (n - 1) * step + step);
      CollectionParts(xs, step, n - 1) + (if part == [] then [] else [part])
  }

  lemma StepSuffices(length: nat, pcount: nat)
    requires pcount > 0
    ensures pcount * StepSize(length, pcount) >= length
  {
    var n := length + pcount - 1;
    Divided(n, pcount);
    var q := n / pcount;
    ProductAbove(pcount, q, StepSize(length, pcount));
  }

  /** No smaller step suffices. */
  lemma StepSmallest(length: nat, pcount: nat, step: nat)
    requires pcount > 0 && step > 0 && pcount * step >= length
    ensures StepSize(length, pcount) <= step
  {
    var n := length + pcount - 1;
    Divided(n, pcount);
    Summed(pcount, step, 1);
    ProductOrder(pcount, n / pcount, step + 1);
  }

  /** None is empty, and all but the last have the full size. */
  ghost predicate Cut<T>(parts: seq<seq<T>>, step: nat) {
    && (forall i :: 0 <= i < |parts| ==> 0 < |parts[i]| <= step)
    && forall i :: 0 <= i < |parts| - 1 ==> |parts[i]| == step
  }

  /** The slices up to position k. */
  ghost predicate CutTo<T>(xs: seq<T>, parts: seq<seq<T>>, step: nat, k: nat) {
    && Flatten(parts) == xs[..Smaller(k, |xs|)] && Cut(parts, step)
    && (k <= |xs| ==> forall i :: 0 <= i < |parts| ==> |parts[i]| == step)
  }

  lemma {:induction false} CollectionPrefix<T>(xs: seq<T>, step: nat, n: nat, end: nat)
    requires end == n * step && step > 0
    ensures CutTo(xs, CollectionParts(xs, step, n), step, end) && |CollectionParts(xs, step, n)| <= n
    decreases n
  {
    if n > 0 {
      var k := PreviousMultiple(n, step, end);
      CollectionPrefix(xs, step, n - 1, k);
      CollectionNext(xs, step, CollectionParts(xs, step, n - 1), k);
    }
  }

  lemma PreviousMultiple(n: nat, step: nat, end: nat) returns (k: nat)
    requires n > 0 && end == n * step
    ensures k == (n - 1) * step && end == k + step
  {
    k := (n - 1) * step;
  }

  lemma CollectionNext<T>(xs: seq<T>, step: nat, parts: seq<seq<T>>, k: nat)
    requires CutTo(xs, parts, step, k)
    ensures var part := Slice(xs, k, k + step); CutTo(xs, parts + (if part == [] then [] else [part]), step, k + step)
  {
    FlattenSome(parts, Slice(xs, k, k + step));
    SliceNext(xs, k, step);
  }

  lemma FlattenSome<T>(xss: seq<seq<T>>, part: seq<T>)
    ensures Flatten(xss + (if part == [] then [] else [part])) == Flatten(xss) + part
  {
    FlattenConcat(xss, if part == [] then [] else [part]);
    FlattenOne(part);
  }

  lemma SliceNext<T>(xs: seq<T>, k: nat, step: nat)
    ensures xs[..Smaller(k, |xs|)] + Slice(xs, k, k + step) == xs[..Smaller(k + step, |xs|)]
    ensures |Slice(xs, k, k + step)| <= step
  {
  }

  /** At most as many slices as asked for, none empty and all but the last of full size, make up the collection. */
  lemma CollectionPartsTile<T>(xs: seq<T>, pcount: nat)
    requires pcount > 0
    ensures var step := StepSize(|xs|, pcount);
      var parts := CollectionParts(xs, step, pcount);
      Flatten(parts) == xs && |parts| <= pcount && Cut(parts, step)
  {
    var step := StepSize(|xs|, pcount);
    CollectionPrefix(xs, step, pcount, pcount * step);
    StepSuffices(|xs|, pcount);
    assert xs[..|xs|] == xs;
  }

  // ---- coalescing ----------------------------------------------------------------------------

  lemma FloorMonotone(x: real, y: real)
    requires 0.0 <= x <= y
    ensures 0 <= x.Floor <= y.Floor
  {
  }

  /** pcount batches, cut at multiples of a fractional step, concatenate to the source partitions. */
  method Coalesce<T>(parts: seq<T>, pcount: nat) returns (batches: seq<seq<T>>)
    requires pcount >= 1 && |parts| as real / pcount as real > 0.5
    ensures Flatten(batches) == parts && |batches| == pcount
    ensures forall b :: b in batches ==> Near(|b|, |parts| as real / pcount as real)
  {
    var step := |parts| as real / pcount as real;
    StepTimes(|parts|, pcount, step);
    batches := [];
    var offset := 0.0;
    var i := 0;
    assert parts[..0] == [];
    while i < pcount - 1
      invariant 0 <= i <= pcount - 1 && |batches| == i && AtOffset(i, pcount, step, offset, |parts|)
      invariant Flatten(batches) == parts[..offset.Floor] && forall b :: b in batches ==> Near(|b|, step)
    {
      OffsetAdvances(i, pcount, step, offset, |parts|);
      var lo, hi := offset.Floor, (offset + step).Floor;
      assert parts[..lo] + parts[lo..hi] == parts[..hi];
      FlattenAppend(batches, parts[lo..hi]);
      FloorsNear(offset, offset + step, step);
      batches := batches + [parts[lo..hi]];
      offset := offset + step;
      i := i + 1;
    }
    var remainder := parts[offset.Floor..];
    LastOffset(i, pcount, step, offset, |parts|);
    assert remainder != [];
    if remainder != [] {
      assert parts[..offset.Floor] + remainder == parts;
      FlattenAppend(batches, remainder);
      batches := batches + [remainder];
    }
  }

  /** Less than one away from the step. */
  ghost predicate Near(size: nat, step: real) { step - 1.0 < size as real < step + 1.0 }

  lemma FloorsNear(x: real, y: real, step: real)
    requires 0.0 <= x && y == x + step && step > 0.0
    ensures x.Floor <= y.Floor && Near(y.Floor - x.Floor, step)
  {
    FloorMonotone(x, y);
  }

  lemma LastOffset(i: int, pcount: nat, step: real, offset: real, n: nat)
    requires pcount >= 1 && i == pcount - 1 && AtOffset(i, pcount, step, offset, n)
    ensures offset.Floor <= n && Near(n - offset.Floor, step)
  {
    LastStep(pcount as real, step, n as real);
    assert offset == n as real - step;
  }

  /** The offset of batch i, which starts before the end. */
  ghost predicate AtOffset(i: int, pcount: nat, step: real, offset: real, n: nat) {
    && step > 0.0 && step * pcount as real == n as real
    && offset == i as real * step && 0 <= offset.Floor < n
  }

  lemma StepTimes(n: nat, pcount: nat, step: real)
    requires pcount >= 1 && step == n as real / pcount as real && step > 0.5
    ensures AtOffset(0, pcount, step, 0.0, n)
  {
    assert step * pcount as real == n as real;
    assert n > 0;
  }

  lemma LastStep(p: real, step: real, n: real)
    requires step * p == n
    ensures (p - 1.0) * step == n - step
  {
  }

  lemma FloorBelow(x: real, n: nat)
    requires 0.0 <= x < n as real
    ensures 0 <= x.Floor < n
  {
  }

  lemma Scaled(a: real, b: real, step: real)
    requires a <= b && step > 0.0
    ensures a * step <= b * step
  {
  }

  lemma OffsetAdvances(i: nat, pcount: nat, step: real, offset: real, n: nat)
    requires i + 1 < pcount && AtOffset(i, pcount, step, offset, n)
    ensures AtOffset(i + 1, pcount, step, offset + step, n) && offset.Floor <= (offset + step).Floor
  {
    NextOffset(i as real, step, offset);
    OffsetBelow((i + 1) as real, pcount as real, step, offset + step, n as real);
    FloorMonotone(offset, offset + step);
    FloorBelow(offset + step, n);
  }

  lemma NextOffset(i: real, step: real, offset: real)
    requires offset == i * step && i >= 0.0 && step > 0.0
    ensures offset + step == (i + 1.0) * step && offset >= 0.0
  {
  }

  lemma OffsetBelow(k: real, p: real, step: real, offset: real, n: real)
    requires k <= p - 1.0 && step > 0.0 && step * p == n && offset == k * step
    ensures offset <= n - step
  {
    Scaled(k, p - 1.0, step);
    LastStep(p, step, n);
  }
}

/**
 The list of byte ranges a node advertises: sorted, disjoint and non-touching intervals, updated in
 place when a chunk has been written.
 */
module Intervals {
  import Sequences

  datatype Chunk = Chunk(start: int, end: int)

  predicate Within(c: Chunk, x: int) { c.start <= x < c.end }

  /** Non-empty intervals in ascending order with gaps between them. */
  ghost predicate Canonical(done: seq<Chunk>) {
    && (forall i :: 0 <= i < |done| ==> done[i].start < done[i].end)
    && forall i, j :: 0 <= i < j < |done| ==> done[i].end < done[j].start
  }

  ghost predicate Covered(done: seq<Chunk>, x: int) {
    exists i :: 0 <= i < |done| && Within(done[i], x)
  }

  /** No byte of the chunk is covered. */
  ghost predicate Apart(done: seq<Chunk>, c: Chunk) {
    forall i :: 0 <= i < |done| ==> c.end <= done[i].start || done[i].end <= c.start
  }

  /** Comparison of pairs. */
  predicate Before(a: Chunk, b: Chunk) { a.start < b.start || (a.start == b.start && a.end < b.end) }

  /** The binary search for the position of a chunk. */
  function Bisect(done: seq<Chunk>, c: Chunk): (r: nat)
    ensures r <= |done|
  {
    Sequences.BinarySearch(done, (d: Chunk) => Before(d, c), 0, |done|)
  }

  lemma BisectFinds(done: seq<Chunk>, c: Chunk)
    requires Canonical(done)
    ensures forall i :: 0 <= i < Bisect(done, c) ==> Before(done[i], c)
    ensures forall i :: Bisect(done, c) <= i < |done| ==> !Before(done[i], c)
  {
    Sequences.BinarySearchFinds(done, (d: Chunk) => Before(d, c), 0, |done|);
  }

  /** The interval before a position; before position 0 it is the last one, as an index of -1. */
  function Previous(done: seq<Chunk>, idx: nat): nat
    requires done != []
  {
    if idx == 0 then |done| - 1 else idx - 1
  }

  function MarkDone(done: seq<Chunk>, c: Chunk): seq<Chunk> {
    if done == [] then [c]
    else
      var idx := Bisect(done, c);
      var prev := if idx == 0 then |done| - 1 else idx - 1;
      var before := c.start == done[prev].end;
      var after := idx < |done| && c.end == done[idx].start;
      if before && after then
        var joined := done[prev := Chunk(done[prev].start, done[idx].end)];
        joined[..idx] + joined[idx + 1..]
      else if before then done[prev := Chunk(done[prev].start, c.end)]
      else if after then done[idx := Chunk(c.start, done[idx].end)]
      else done[..idx] + [c] + done[idx..]
  }

  /**
   Where a chunk apart from the others belongs: everything before it ends before it, everything after
   starts after it.
   */
  lemma BisectPosition(done: seq<Chunk>, c: Chunk)
    requires Canonical(done) && Apart(done, c) && c.start < c.end
    ensures var idx := Bisect(done, c);
      && (forall i :: 0 <= i < idx ==> done[i].end <= c.start)
      && (forall i :: idx <= i < |done| ==> c.end <= done[i].start)
  {
    BisectFinds(done, c);
  }

  /** The index of -1 never matches: the last interval ends after a chunk that comes first. */
  lemma NoWrapAround(done: seq<Chunk>, c: Chunk)
    requires Canonical(done) && Apart(done, c) && c.start < c.end && done != [] && Bisect(done, c) == 0
    ensures c.start != done[Previous(done, 0)].end
  {
    BisectPosition(done, c);
  }

  /** The intervals from i to j are replaced by one. */
  function Spliced(done: seq<Chunk>, i: nat, c: Chunk, j: nat): seq<Chunk>
    requires i <= j <= |done|
  {
    done[..i] + [c] + done[j..]
  }

  /** The replacement covers a chunk and the intervals replaced, at a distance from the others. */
  ghost predicate Replaces(done: seq<Chunk>, c: Chunk, i: nat, m: Chunk, j: nat) {
    && i <= j <= |done| && m.start < m.end
    && (forall k :: 0 <= k < i ==> done[k].end < m.start)
    && (forall k :: j <= k < |done| ==> m.end < done[k].start)
    && forall x :: Within(m, x) <==> Within(c, x) || Covered(done[i..j], x)
  }

  lemma SplicedCanonical(done: seq<Chunk>, c: Chunk, i: nat, m: Chunk, j: nat)
    requires Canonical(done) && Replaces(done, c, i, m, j)
    ensures Canonical(Spliced(done, i, m, j))
  {
    var r := Spliced(done, i, m, j);
    assert forall k :: 0 <= k < i ==> r[k] == done[k];
    assert r[i] == m;
    assert forall k :: i < k < |r| ==> r[k] == done[k - i - 1 + j];
  }

  lemma SplicedCovers(done: seq<Chunk>, c: Chunk, i: nat, m: Chunk, j: nat, x: int)
    requires Replaces(done, c, i, m, j)
    ensures Covered(Spliced(done, i, m, j), x) <==> Covered(done, x) || Within(c, x)
  {
    CoveredThree(done[..i], m, done[j..], x);
    assert done == done[..i] + (done[i..j] + done[j..]);
    CoveredConcat(done[..i], done[i..j] + done[j..], x);
    CoveredConcat(done[i..j], done[j..], x);
  }

  lemma CoveredOne(c: Chunk, x: int)
    ensures Covered([c], x) <==> Within(c, x)
  {
    assert [c][0] == c;
  }

  lemma CoveredTwo(a: Chunk, b: Chunk, x: int)
    ensures Covered([a, b], x) <==> Within(a, x) || Within(b, x)
  {
    assert [a, b][0] == a && [a, b][1] == b;
  }

  lemma JoinBoth(done: seq<Chunk>, c: Chunk, idx: nat)
    requires Canonical(done) && c.start < c.end && 0 < idx < |done| && c.start == done[idx - 1].end
      && c.end == done[idx].start
    ensures var m := Chunk(done[idx - 1].start, done[idx].end);
      && Replaces(done, c, idx - 1, m, idx + 1)
      && done[idx - 1 := m][..idx] + done[idx - 1 := m][idx + 1..] == Spliced(done, idx - 1, m, idx + 1)
  {
    assert done[idx - 1..idx + 1] == [done[idx - 1], done[idx]];
    forall x ensures Covered(done[idx - 1..idx + 1], x) <==> Within(done[idx - 1], x) || Within(done[idx], x) {
      CoveredTwo(done[idx - 1], done[idx], x);
    }
  }

  lemma JoinBefore(done: seq<Chunk>, c: Chunk, idx: nat)
    requires Canonical(done) && c.start < c.end && 0 < idx <= |done| && c.start == done[idx - 1].end
    requires idx < |done| ==> c.end < done[idx].start
    ensures var m := Chunk(done[idx - 1].start, c.end);
      Replaces(done, c, idx - 1, m, idx) && done[idx - 1 := m] == Spliced(done, idx - 1, m, idx)
  {
    var joined := done[idx - 1];
    assert done[idx - 1..idx] == [joined];
    forall x ensures Covered([joined], x) <==> Within(joined, x) {
      CoveredOne(joined, x);
    }
  }

  lemma JoinAfter(done: seq<Chunk>, c: Chunk, idx: nat)
    requires Canonical(done) && c.start < c.end && 0 <= idx < |done| && c.end == done[idx].start
    requires idx > 0 ==> done[idx - 1].end < c.start
    ensures var m := Chunk(c.start, done[idx].end);
      Replaces(done, c, idx, m, idx + 1) && done[idx := m] == Spliced(done, idx, m, idx + 1)
  {
    var joined := done[idx];
    assert done[idx..idx + 1] == [joined];
    forall x ensures Covered([joined], x) <==> Within(joined, x) {
      CoveredOne(joined, x);
    }
  }

  lemma InsertAlone(done: seq<Chunk>, c: Chunk, idx: nat)
    requires Canonical(done) && c.start < c.end && 0 <= idx <= |done|
    requires (idx > 0 ==> done[idx - 1].end < c.start) && (idx < |done| ==> c.end < done[idx].start)
    ensures Replaces(done, c, idx, c, idx)
  {
    assert done[idx..idx] == [];
  }

  /** Marking replaces the touching neighbours by one interval. */
  lemma MarkDoneReplaces(done: seq<Chunk>, c: Chunk) returns (i: nat, m: Chunk, j: nat)
    requires Canonical(done) && Apart(done, c) && c.start < c.end
    ensures Replaces(done, c, i, m, j) && MarkDone(done, c) == Spliced(done, i, m, j)
  {
    var idx := Bisect(done, c);
    BisectPosition(done, c);
    if done != [] && idx == 0 {
      NoWrapAround(done, c);
    }
    var before := idx > 0 && c.start == done[idx - 1].end;
    var after := idx < |done| && c.end == done[idx].start;
    if before && after {
      JoinBoth(done, c, idx);
      i, m, j := idx - 1, Chunk(done[idx - 1].start, done[idx].end), idx + 1;
    } else if before {
      JoinBefore(done, c, idx);
      i, m, j := idx - 1, Chunk(done[idx - 1].start, c.end), idx;
    } else if after {
      JoinAfter(done, c, idx);
      i, m, j := idx, Chunk(c.start, done[idx].end), idx + 1;
    } else {
      InsertAlone(done, c, idx);
      i, m, j := idx, c, idx;
    }
  }

  /** The list stays canonical. */
  lemma MarkDoneCanonical(done: seq<Chunk>, c: Chunk)
    requires Canonical(done) && Apart(done, c) && c.start < c.end
    ensures Canonical(MarkDone(done, c))
  {
    var i, m, j := MarkDoneReplaces(done, c);
    SplicedCanonical(done, c, i, m, j);
  }

  /** Exactly the bytes of the chunk are added. */
  lemma MarkDoneCovers(done: seq<Chunk>, c: Chunk, x: int)
    requires Canonical(done) && Apart(done, c) && c.start < c.end
    ensures Covered(MarkDone(done, c), x) <==> Covered(done, x) || Within(c, x)
  {
    var i, m, j := MarkDoneReplaces(done, c);
    SplicedCovers(done, c, i, m, j, x);
  }

  lemma CoveredConcat(a: seq<Chunk>, b: seq<Chunk>, x: int)
    ensures Covered(a + b, x) <==> Covered(a, x) || Covered(b, x)
  {
    var all := a + b;
    if i :| 0 <= i < |a| && Within(a[i], x) {
      assert Within(all[i], x);
    }
    if i :| 0 <= i < |b| && Within(b[i], x) {
      assert Within(all[|a| + i], x);
    }
    if i :| 0 <= i < |all| && Within(all[i], x) {
      assert i < |a| ==> Within(a[i], x);
      assert i >= |a| ==> Within(b[i - |a|], x);
    }
  }

  lemma CoveredThree(a: seq<Chunk>, c: Chunk, b: seq<Chunk>, x: int)
    ensures Covered(a + [c] + b, x) <==> Covered(a, x) || Within(c, x) || Covered(b, x)
  {
    CoveredConcat(a + [c], b, x);
    CoveredConcat(a, [c], x);
    assert Within(c, x) ==> Within([c][0], x);
  }

  lemma StartCovered(a: seq<Chunk>)
    requires Canonical(a)
    ensures a != [] ==> Covered(a, a[0].start)
  {
    assert a != [] ==> Within(a[0], a[0].start);
  }

  lemma EndNotCovered(a: seq<Chunk>, i: nat)
    requires Canonical(a) && i < |a|
    ensures !Covered(a, a[i].end)
  {
  }

  /** A chunk is fully covered exactly when a single interval contains it. */
  lemma OneIntervalSuffices(done: seq<Chunk>, c: Chunk)
    requires Canonical(done) && c.start < c.end
    ensures (forall x :: Within(c, x) ==> Covered(done, x)) <==>
      exists i :: 0 <= i < |done| && done[i].start <= c.start && done[i].end >= c.end
  {
    if forall x :: Within(c, x) ==> Covered(done, x) {
      assert Within(c, c.start) && Covered(done, c.start);
      var i :| 0 <= i < |done| && Within(done[i], c.start);
      EndNotCovered(done, i);
      assert !Within(c, done[i].end);
    }
    if i :| 0 <= i < |done| && done[i].start <= c.start && done[i].end >= c.end {
      forall x | Within(c, x) ensures Covered(done, x) {
        assert Within(done[i], x);
      }
    }
  }

  lemma FirstCovered(a: seq<Chunk>, x: int)
    requires Canonical(a) && Covered(a, x)
    ensures a != [] && a[0].start <= x
    ensures x < a[0].end || (|a| > 1 && a[1].start <= x)
  {
  }

  lemma TailCovered(a: seq<Chunk>, x: int)
    requires Canonical(a) && a != []
    ensures Covered(a[1..], x) <==> Covered(a, x) && !Within(a[0], x)
  {
    assert a == [a[0]] + a[1..];
    CoveredConcat([a[0]], a[1..], x);
    assert Within(a[0], x) ==> Within([a[0]][0], x);
    if i :| 0 <= i < |a[1..]| && Within(a[1..][i], x) {
      assert a[0].end < a[i + 1].start;
    }
  }

  /** The lists are canonical forms: a set of bytes has only one. */
  lemma {:induction false} CanonicalUnique(a: seq<Chunk>, b: seq<Chunk>)
    requires Canonical(a) && Canonical(b) && forall x :: Covered(a, x) <==> Covered(b, x)
    ensures a == b
  {
    if a == [] {
      StartCovered(b);
      assert forall x :: !Covered(a, x);
    } else {
      StartCovered(a);
      SameHead(a, b);
      forall x ensures Covered(a[1..], x) <==> Covered(b[1..], x) {
        TailCovered(a, x);
        TailCovered(b, x);
      }
      CanonicalUnique(a[1..], b[1..]);
    }
  }

  lemma SameHead(a: seq<Chunk>, b: seq<Chunk>)
    requires Canonical(a) && Canonical(b) && a != [] && b != [] && forall x :: Covered(a, x) <==> Covered(b, x)
    ensures a[0] == b[0]
  {
    assert Within(a[0], a[0].start) && Covered(a, a[0].start);
    assert Within(b[0], b[0].start) && Covered(b, b[0].start);
    FirstCovered(b, a[0].start);
    FirstCovered(a, b[0].start);
    HeadReaches(a, b);
    HeadReaches(b, a);
  }

  lemma HeadReaches(a: seq<Chunk>, b: seq<Chunk>)
    requires Canonical(a) && Canonical(b) && a != [] && b != [] && a[0].start == b[0].start
    requires forall x :: Covered(a, x) ==> Covered(b, x)
    ensures a[0].end <= b[0].end
  {
    EndNotCovered(b, 0);
    assert !Covered(a, b[0].end);
    assert !Within(a[0], b[0].end);
  }

  /** Everything covered: a single interval. */
  lemma WholeBlock(done: seq<Chunk>, size: nat)
    requires Canonical(done) && size > 0 && forall x :: Covered(done, x) <==> 0 <= x < size
    ensures done == [Chunk(0, size)]
  {
    var whole := [Chunk(0, size)];
    forall x ensures Covered(done, x) <==> Covered(whole, x) {
      assert Covered(whole, x) <==> Within(whole[0], x);
    }
    CanonicalUnique(done, whole);
  }
}

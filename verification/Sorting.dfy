/**
 Stable sorting and stable merging.  Both are characterised by the subsequences they keep: for each
 key, the elements with that key appear in the result in their original order.  A sorted sequence
 is determined by these subsequences, so merging sorted runs equals sorting the whole.
 */
module Sorting {
  import opened Sequences

  ghost predicate IsSorted<T>(xs: seq<T>, key: T -> int) {
    forall i, j :: 0 <= i < j < |xs| ==> key(xs[i]) <= key(xs[j])
  }

  /** The elements of xs with key k, in order. */
  function Select<T>(xs: seq<T>, key: T -> int, k: int): seq<T> {
    if xs == [] then [] else Kept(xs[0], key, k) + Select(xs[1..], key, k)
  }

  function Kept<T>(x: T, key: T -> int, k: int): seq<T> { if key(x) == k then [x] else [] }

  /** Both sequences have the same elements for each key, in the same order. */
  ghost predicate SameSelections<T>(xs: seq<T>, ys: seq<T>, key: T -> int) {
    forall k: int :: Select(xs, key, k) == Select(ys, key, k)
  }

  function Insert<T>(x: T, xs: seq<T>, key: T -> int): seq<T> {
    if xs == [] || key(x) <= key(xs[0]) then [x] + xs else [xs[0]] + Insert(x, xs[1..], key)
  }

  function StableSort<T>(xs: seq<T>, key: T -> int): seq<T> {
    if xs == [] then [] else Insert(xs[0], StableSort(xs[1..], key), key)
  }

  // ---- selections ----------------------------------------------------------------------------

  lemma SelectCons<T>(x: T, xs: seq<T>, key: T -> int, k: int)
    ensures Select([x] + xs, key, k) == Kept(x, key, k) + Select(xs, key, k)
  {
    assert ([x] + xs)[1..] == xs;
  }

  lemma {:induction false} SelectConcat<T>(xs: seq<T>, ys: seq<T>, key: T -> int, k: int)
    ensures Select(xs + ys, key, k) == Select(xs, key, k) + Select(ys, key, k)
  {
    if xs == [] {
      assert xs + ys == ys;
    } else {
      assert (xs + ys)[1..] == xs[1..] + ys;
      SelectConcat(xs[1..], ys, key, k);
    }
  }

  lemma {:induction false} SelectCount<T>(xs: seq<T>, key: T -> int, x: T)
    ensures multiset(xs)[x] == multiset(Select(xs, key, key(x)))[x]
  {
    if xs != [] {
      assert xs == [xs[0]] + xs[1..];
      SelectCount(xs[1..], key, x);
    }
  }

  /** The k-selection has exactly the elements with key k. */
  lemma {:induction false} SelectMembers<T>(xs: seq<T>, key: T -> int, k: int)
    ensures forall x :: x in Select(xs, key, k) <==> x in xs && key(x) == k
  {
    if xs != [] {
      SelectMembers(xs[1..], key, k);
      assert xs == [xs[0]] + xs[1..];
    }
  }

  lemma SelectionsDetermineElements<T>(xs: seq<T>, ys: seq<T>, key: T -> int)
    requires SameSelections(xs, ys, key)
    ensures multiset(xs) == multiset(ys)
  {
    forall x ensures multiset(xs)[x] == multiset(ys)[x] {
      SelectCount(xs, key, x);
      SelectCount(ys, key, x);
    }
  }

  lemma SameTails<T>(head: seq<T>, xs: seq<T>, ys: seq<T>)
    requires head + xs == head + ys
    ensures xs == ys
  {
    assert xs == (head + xs)[|head|..] && ys == (head + ys)[|head|..];
  }

  /** A sorted sequence is determined by its selections. */
  lemma {:induction false} SelectionsDetermineOrder<T>(xs: seq<T>, ys: seq<T>, key: T -> int)
    requires IsSorted(xs, key) && IsSorted(ys, key) && SameSelections(xs, ys, key)
    ensures xs == ys
  {
    SelectionsDetermineElements(xs, ys, key);
    if xs == [] {
      assert multiset(ys) == multiset{};
      assert |ys| == |multiset(ys)|;
    } else {
      assert xs[0] in multiset(ys);
      assert ys[0] in multiset(xs);
      var k := key(xs[0]);
      assert key(ys[0]) == k;
      assert Select(xs, key, k) == Select(ys, key, k);
      assert xs[0] == ([xs[0]] + Select(xs[1..], key, k))[0];
      assert ys[0] == ([ys[0]] + Select(ys[1..], key, k))[0];
      forall j: int ensures Select(xs[1..], key, j) == Select(ys[1..], key, j) {
        assert Select(xs, key, j) == Select(ys, key, j);
        var head := Kept(xs[0], key, j);
        assert Select(xs, key, j) == head + Select(xs[1..], key, j);
        assert Select(ys, key, j) == head + Select(ys[1..], key, j);
        SameTails(head, Select(xs[1..], key, j), Select(ys[1..], key, j));
      }
      SelectionsDetermineOrder(xs[1..], ys[1..], key);
    }
  }

  // ---- sorting -------------------------------------------------------------------------------

  lemma {:induction false} InsertSelect<T>(x: T, xs: seq<T>, key: T -> int, k: int)
    ensures Select(Insert(x, xs, key), key, k) == Kept(x, key, k) + Select(xs, key, k)
  {
    if xs == [] || key(x) <= key(xs[0]) {
      SelectCons(x, xs, key, k);
    } else {
      SelectCons(xs[0], Insert(x, xs[1..], key), key, k);
      InsertSelect(x, xs[1..], key, k);
      assert Kept(x, key, k) == [] || Kept(xs[0], key, k) == [];
    }
  }

  lemma {:induction false} InsertMember<T>(x: T, xs: seq<T>, key: T -> int, y: T)
    ensures y in Insert(x, xs, key) <==> y == x || y in xs
  {
    if !(xs == [] || key(x) <= key(xs[0])) {
      InsertMember(x, xs[1..], key, y);
      assert y in xs <==> y == xs[0] || y in xs[1..];
    }
  }

  lemma HeadBounds<T>(xs: seq<T>, key: T -> int, x: T)
    requires IsSorted(xs, key) && x in xs
    ensures key(xs[0]) <= key(x)
  {
  }

  lemma {:induction false} InsertSorted<T>(x: T, xs: seq<T>, key: T -> int)
    requires IsSorted(xs, key)
    ensures IsSorted(Insert(x, xs, key), key)
  {
    if !(xs == [] || key(x) <= key(xs[0])) {
      InsertSorted(x, xs[1..], key);
      var rest := Insert(x, xs[1..], key);
      forall y | y in rest ensures key(xs[0]) <= key(y) {
        InsertMember(x, xs[1..], key, y);
        if y in xs {
          HeadBounds(xs, key, y);
        }
      }
      PrependSorted(xs[0], rest, key);
    } else if xs != [] {
      PrependSorted(x, xs, key);
    }
  }

  lemma PrependSorted<T>(x: T, xs: seq<T>, key: T -> int)
    requires IsSorted(xs, key) && forall y :: y in xs ==> key(x) <= key(y)
    ensures IsSorted([x] + xs, key)
  {
    var all := [x] + xs;
    forall i, j | 0 <= i < j < |all| ensures key(all[i]) <= key(all[j]) {
      assert all[j] == xs[j - 1];
      assert i > 0 ==> all[i] == xs[i - 1];
    }
  }

  lemma {:induction false} StableSortSelect<T>(xs: seq<T>, key: T -> int, k: int)
    ensures Select(StableSort(xs, key), key, k) == Select(xs, key, k)
  {
    if xs != [] {
      StableSortSelect(xs[1..], key, k);
      InsertSelect(xs[0], StableSort(xs[1..], key), key, k);
    }
  }

  /** Sorting gives a sorted sequence with the same selections, so the same elements. */
  lemma {:induction false} StableSortSorts<T>(xs: seq<T>, key: T -> int)
    ensures IsSorted(StableSort(xs, key), key)
    ensures SameSelections(StableSort(xs, key), xs, key)
    ensures multiset(StableSort(xs, key)) == multiset(xs)
  {
    StableSortIsSorted(xs, key);
    forall k ensures Select(StableSort(xs, key), key, k) == Select(xs, key, k) {
      StableSortSelect(xs, key, k);
    }
    SelectionsDetermineElements(StableSort(xs, key), xs, key);
  }

  lemma {:induction false} StableSortIsSorted<T>(xs: seq<T>, key: T -> int)
    ensures IsSorted(StableSort(xs, key), key)
  {
    if xs != [] {
      StableSortIsSorted(xs[1..], key);
      InsertSorted(xs[0], StableSort(xs[1..], key), key);
    }
  }

  // ---- merging -------------------------------------------------------------------------------

  predicate Exhausted<T>(streams: seq<seq<T>>) {
    forall i :: 0 <= i < |streams| ==> |streams[i]| == 0
  }

  /** The first of the streams whose head has the smallest key. */
  function Smallest<T>(streams: seq<seq<T>>, key: T -> int): (i: nat)
    requires !Exhausted(streams)
    ensures i < |streams| && streams[i] != []
    ensures forall j :: 0 <= j < |streams| && streams[j] != [] ==> key(streams[i][0]) <= key(streams[j][0])
    ensures forall j :: 0 <= j < i && streams[j] != [] ==> key(streams[i][0]) < key(streams[j][0])
  {
    var rest := streams[1..];
    assert streams == [streams[0]] + rest;
    if streams[0] == [] then 1 + Smallest(rest, key)
    else if Exhausted(rest) then assert forall j :: 1 <= j < |streams| ==> streams[j] == rest[j - 1]; 0
    else
      var j := Smallest(rest, key);
      assert forall j :: 1 <= j < |streams| ==> streams[j] == rest[j - 1];
      if key(streams[0][0]) <= key(rest[j][0]) then 0 else 1 + j
  }

  /** Repeatedly the smallest head, from the first of the streams that have it. */
  function Merge<T>(streams: seq<seq<T>>, key: T -> int): seq<T>
    decreases |Flatten(streams)|
  {
    if Exhausted(streams) then []
    else
      var i := Smallest(streams, key);
      FlattenSplit(streams, i);
      FlattenSplit(streams[i := streams[i][1..]], i);
      [streams[i][0]] + Merge(streams[i := streams[i][1..]], key)
  }

  lemma {:induction false} FlattenExhausted<T>(xss: seq<seq<T>>)
    requires Exhausted(xss)
    ensures Flatten(xss) == []
  {
    if xss != [] {
      FlattenExhausted(xss[1..]);
    }
  }

  /** The other streams around the one that advances. */
  lemma Advance<T>(streams: seq<seq<T>>, i: nat) returns (before: seq<T>, after: seq<T>)
    requires i < |streams| && streams[i] != []
    ensures before == Flatten(streams[..i])
    ensures Flatten(streams) == before + streams[i] + after
    ensures Flatten(streams[i := streams[i][1..]]) == before + streams[i][1..] + after
    ensures |Flatten(streams[i := streams[i][1..]])| < |Flatten(streams)|
  {
    var next := streams[i := streams[i][1..]];
    before, after := Flatten(streams[..i]), Flatten(streams[i + 1..]);
    FlattenSplit(streams, i);
    FlattenSplit(next, i);
    assert next[..i] == streams[..i] && next[i + 1..] == streams[i + 1..];
  }

  /** Merging keeps the elements, whatever the streams. */
  lemma {:induction false} MergeKeeps<T>(streams: seq<seq<T>>, key: T -> int)
    ensures multiset(Merge(streams, key)) == multiset(Flatten(streams))
    decreases |Flatten(streams)|
  {
    if Exhausted(streams) {
      FlattenExhausted(streams);
    } else {
      var i := Smallest(streams, key);
      var before, after := Advance(streams, i);
      MergeKeeps(streams[i := streams[i][1..]], key);
      assert streams[i] == [streams[i][0]] + streams[i][1..];
    }
  }

  ghost predicate AllSorted<T>(streams: seq<seq<T>>, key: T -> int) {
    forall i :: 0 <= i < |streams| ==> IsSorted(streams[i], key)
  }

  lemma AdvanceSorted<T>(streams: seq<seq<T>>, i: nat, key: T -> int)
    requires AllSorted(streams, key) && i < |streams| && streams[i] != []
    ensures AllSorted(streams[i := streams[i][1..]], key)
  {
  }

  lemma SmallestBounds<T>(streams: seq<seq<T>>, key: T -> int, x: T)
    requires AllSorted(streams, key) && !Exhausted(streams) && x in Flatten(streams)
    ensures key(streams[Smallest(streams, key)][0]) <= key(x)
  {
    InFlatten(streams, x);
    var j :| 0 <= j < |streams| && x in streams[j];
    HeadBounds(streams[j], key, x);
  }

  lemma {:induction false} MergeIsSorted<T>(streams: seq<seq<T>>, key: T -> int)
    requires AllSorted(streams, key)
    ensures IsSorted(Merge(streams, key), key)
    decreases |Flatten(streams)|
  {
    if !Exhausted(streams) {
      var i := Smallest(streams, key);
      var before, after := Advance(streams, i);
      var next := streams[i := streams[i][1..]];
      AdvanceSorted(streams, i, key);
      MergeIsSorted(next, key);
      MergeKeeps(next, key);
      forall y | y in Merge(next, key) ensures key(streams[i][0]) <= key(y) {
        assert y in multiset(Merge(next, key));
        assert y in multiset(Flatten(next));
        assert y in Flatten(streams);
        SmallestBounds(streams, key, y);
      }
      PrependSorted(streams[i][0], Merge(next, key), key);
    }
  }

  lemma {:induction false} NoneSelected<T>(xs: seq<T>, key: T -> int, k: int)
    requires forall x :: x in xs ==> key(x) != k
    ensures Select(xs, key, k) == []
  {
    if xs != [] {
      NoneSelected(xs[1..], key, k);
    }
  }

  /** The streams before the one that advances have no element with its key. */
  lemma NoneBefore<T>(streams: seq<seq<T>>, key: T -> int)
    requires AllSorted(streams, key) && !Exhausted(streams)
    ensures var i := Smallest(streams, key); Select(Flatten(streams[..i]), key, key(streams[i][0])) == []
  {
    var i := Smallest(streams, key);
    var k := key(streams[i][0]);
    var before := streams[..i];
    forall x | x in Flatten(before) ensures key(x) > k {
      InFlatten(before, x);
      var j :| 0 <= j < |before| && x in before[j];
      HeadBounds(streams[j], key, x);
    }
    NoneSelected(Flatten(before), key, k);
  }

  lemma {:induction false} MergeSelect<T>(streams: seq<seq<T>>, key: T -> int, k: int)
    requires AllSorted(streams, key)
    ensures Select(Merge(streams, key), key, k) == Select(Flatten(streams), key, k)
    decreases |Flatten(streams)|
  {
    if Exhausted(streams) {
      FlattenExhausted(streams);
    } else {
      var i := Smallest(streams, key);
      var before, after := Advance(streams, i);
      var next := streams[i := streams[i][1..]];
      AdvanceSorted(streams, i, key);
      MergeSelect(next, key, k);
      NoneBefore(streams, key);
      SelectCons(streams[i][0], Merge(next, key), key, k);
      Advanced(before, streams[i], after, key, k);
    }
  }

  lemma SelectThree<T>(xs: seq<T>, ys: seq<T>, zs: seq<T>, key: T -> int, k: int)
    ensures Select(xs + ys + zs, key, k) == Select(xs, key, k) + Select(ys, key, k) + Select(zs, key, k)
  {
    SelectConcat(xs + ys, zs, key, k);
    SelectConcat(xs, ys, key, k);
  }

  lemma Advanced<T>(before: seq<T>, stream: seq<T>, after: seq<T>, key: T -> int, k: int)
    requires stream != [] && Select(before, key, key(stream[0])) == []
    ensures Select(before + stream + after, key, k) == Kept(stream[0], key, k)
      + Select(before + stream[1..] + after, key, k)
  {
    SelectThree(before, stream, after, key, k);
    SelectThree(before, stream[1..], after, key, k);
    var head, rest, tail := Select(before, key, k), Select(stream[1..], key, k), Select(after, key, k);
    Commutes(Kept(stream[0], key, k), head, rest, tail);
  }

  lemma Commutes<T>(x: seq<T>, head: seq<T>, rest: seq<T>, tail: seq<T>)
    requires x == [] || head == []
    ensures head + (x + rest) + tail == x + (head + rest + tail)
  {
    if x == [] {
      assert x + rest == rest;
    }
  }

  /** Merging sorted streams is sorting their concatenation: ties go to the earlier stream. */
  lemma MergeIsSort<T>(streams: seq<seq<T>>, key: T -> int)
    requires AllSorted(streams, key)
    ensures Merge(streams, key) == StableSort(Flatten(streams), key)
  {
    var all := Flatten(streams);
    MergeIsSorted(streams, key);
    StableSortSorts(all, key);
    forall k ensures Select(Merge(streams, key), key, k) == Select(StableSort(all, key), key, k) {
      MergeSelect(streams, key, k);
      StableSortSelect(all, key, k);
    }
    SelectionsDetermineOrder(Merge(streams, key), StableSort(all, key), key);
  }

  lemma {:induction false} FlattenSelections<T>(xss: seq<seq<T>>, yss: seq<seq<T>>, key: T -> int, k: int)
    requires |xss| == |yss| && forall i :: 0 <= i < |xss| ==> SameSelections(xss[i], yss[i], key)
    ensures Select(Flatten(xss), key, k) == Select(Flatten(yss), key, k)
  {
    if xss != [] {
      assert SameSelections(xss[0], yss[0], key);
      SelectConcat(xss[0], Flatten(xss[1..]), key, k);
      SelectConcat(yss[0], Flatten(yss[1..]), key, k);
      FlattenSelections(xss[1..], yss[1..], key, k);
    }
  }

  lemma SelectionsSortAlike<T>(xs: seq<T>, ys: seq<T>, key: T -> int)
    requires SameSelections(xs, ys, key)
    ensures StableSort(xs, key) == StableSort(ys, key)
  {
    StableSortSorts(xs, key);
    StableSortSorts(ys, key);
    SelectionsDetermineOrder(StableSort(xs, key), StableSort(ys, key), key);
  }

  /** External sorting: cut anywhere, sort the pieces, merge them. */
  lemma ExternalSort<T>(pieces: seq<seq<T>>, streams: seq<seq<T>>, key: T -> int)
    requires |streams| == |pieces| && forall i :: 0 <= i < |pieces| ==> streams[i] == StableSort(pieces[i], key)
    ensures Merge(streams, key) == StableSort(Flatten(pieces), key)
  {
    forall i | 0 <= i < |pieces| ensures SameSelections(streams[i], pieces[i], key) && IsSorted(streams[i], key) {
      StableSortSorts(pieces[i], key);
    }
    MergeIsSort(streams, key);
    forall k ensures Select(Flatten(streams), key, k) == Select(Flatten(pieces), key, k) {
      FlattenSelections(streams, pieces, key, k);
    }
    SelectionsSortAlike(Flatten(streams), Flatten(pieces), key);
  }
}

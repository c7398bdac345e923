/**
 A shuffle: source partitions are written to buckets, which may spill at any moment, and the blocks
 of the buckets are fetched and merged by the reading partitions, which may spill as well.
 */
module Shuffle {
  import opened Sequences
  import opened Sorting
  import opened Buckets

  function Place<T>(part: T -> int, pcount: nat): T -> int
    requires pcount > 0
  {
    (x: T) => part(x) % pcount
  }

  // ---- writing -------------------------------------------------------------------------------

  ghost predicate Ready<T(!new), U>(buckets: seq<Bucket<T, U>>, sorts: bool, key: T -> int, comb: seq<T> -> seq<U>)
    reads buckets
  {
    && NoDuplicates(buckets)
    && forall i :: 0 <= i < |buckets| ==>
      buckets[i].Valid() && !buckets[i].chunked && buckets[i].sorts == sorts && buckets[i].key == key
        && buckets[i].comb == comb
  }

  /** Serializes any of the buckets: which ones, and in blocks of what size, is up to the memory manager. */
  method Spill<T(!new), U>(
    buckets: seq<Bucket<T, U>>, ghost sorts: bool, ghost key: T -> int, ghost comb: seq<T> -> seq<U>,
    final: bool)
    requires Ready(buckets, sorts, key, comb)
    modifies buckets
    ensures Ready(buckets, sorts, key, comb)
    ensures forall i :: 0 <= i < |buckets| ==> buckets[i].received == old(buckets[i].received)
    ensures final ==> forall i :: 0 <= i < |buckets| ==> buckets[i].elements == []
  {
    var i := 0;
    while i < |buckets|
      invariant 0 <= i <= |buckets| && Ready(buckets, sorts, key, comb)
      invariant forall j :: 0 <= j < |buckets| ==> buckets[j].received == old(buckets[j].received)
      invariant final ==> forall j :: 0 <= j < i ==> buckets[j].elements == []
    {
      var chosen: bool := *;
      if final || chosen {
        buckets[i].Serialize();
      }
      i := i + 1;
    }
  }

  /** The batches are those of some cut of xs; each block is a single chunk. */
  ghost predicate Written<T(!new), U>(batches: seq<Batch<U>>, xs: seq<T>, prepare: seq<T> -> seq<U>) {
    && (forall i :: 0 <= i < |batches| ==> Whole(batches[i]))
    && exists pieces: seq<seq<T>> :: Flatten(pieces) == xs && SpilledAs(batches, pieces, prepare)
  }

  lemma ReadyWith<T(!new), U>(
    buckets: seq<Bucket<T, U>>, bucket: Bucket<T, U>, sorts: bool, key: T -> int, comb: seq<T> -> seq<U>)
    requires Ready(buckets, sorts, key, comb) && bucket !in buckets
    requires bucket.Valid() && !bucket.chunked && bucket.sorts == sorts && bucket.key == key && bucket.comb == comb
    ensures Ready(buckets + [bucket], sorts, key, comb)
  {
  }

  method MakeBuckets<T(!new), U>(pcount: nat, sorts: bool, key: T -> int, keyed: bool, comb: seq<T> -> seq<U>)
    returns (buckets: seq<Bucket<T, U>>)
    requires KeepsSome(comb)
    ensures |buckets| == pcount && fresh(buckets) && Ready(buckets, sorts, key, comb)
    ensures forall i :: 0 <= i < pcount ==> buckets[i].received == []
  {
    buckets := [];
    while |buckets| < pcount
      invariant |buckets| <= pcount && fresh(buckets) && Ready(buckets, sorts, key, comb)
      invariant forall i :: 0 <= i < |buckets| ==> buckets[i].received == []
    {
      var bucket := new Bucket(key, keyed, sorts, comb, false);
      assert bucket !in buckets && Ready(buckets, sorts, key, comb);
      ReadyWith(buckets, bucket, sorts, key, comb);
      buckets := buckets + [bucket];
    }
  }

  lemma SelectNext<T>(xs: seq<T>, n: nat, key: T -> int, k: int)
    requires n < |xs|
    ensures Select(xs[..n + 1], key, k) == Select(xs[..n], key, k) + Kept(xs[n], key, k)
  {
    assert xs[..n + 1] == xs[..n] + [xs[n]];
    SelectConcat(xs[..n], [xs[n]], key, k);
    assert Select([xs[n]], key, k) == Kept(xs[n], key, k) + Select([], key, k);
  }

  /** Each element goes to the bucket of its output partition. */
  method Distribute<T(!new), U>(
    src: seq<T>, part: T -> int, buckets: seq<Bucket<T, U>>, ghost sorts: bool, ghost key: T -> int,
    ghost comb: seq<T> -> seq<U>)
    requires buckets != [] && Ready(buckets, sorts, key, comb)
    requires forall i :: 0 <= i < |buckets| ==> buckets[i].received == []
    modifies buckets
    ensures Ready(buckets, sorts, key, comb)
    ensures forall p :: 0 <= p < |buckets| ==> buckets[p].received == Select(src, Place(part, |buckets|), p)
  {
    ghost var place := Place(part, |buckets|);
    var n := 0;
    while n < |src|
      invariant 0 <= n <= |src| && Ready(buckets, sorts, key, comb)
      invariant forall p :: 0 <= p < |buckets| ==> buckets[p].received == Select(src[..n], place, p)
    {
      Assign(src[n], part, buckets, sorts, key, comb);
      forall p ensures Select(src[..n + 1], place, p) == Select(src[..n], place, p) + Kept(src[n], place, p) {
        SelectNext(src, n, place, p);
      }
      n := n + 1;
    }
    assert src[..n] == src;
  }

  method Assign<T(!new), U>(
    x: T, part: T -> int, buckets: seq<Bucket<T, U>>, ghost sorts: bool, ghost key: T -> int,
    ghost comb: seq<T> -> seq<U>)
    requires buckets != [] && Ready(buckets, sorts, key, comb)
    modifies buckets
    ensures Ready(buckets, sorts, key, comb)
    ensures forall i :: 0 <= i < |buckets| ==>
      buckets[i].received == old(buckets[i].received) + Kept(x, Place(part, |buckets|), i)
  {
    Add(x, part(x) % |buckets|, buckets, sorts, key, comb);
    var check: bool := *;
    if check {
      Spill(buckets, sorts, key, comb, false);
    }
  }

  method Add<T(!new), U>(
    x: T, p: nat, buckets: seq<Bucket<T, U>>, ghost sorts: bool, ghost key: T -> int,
    ghost comb: seq<T> -> seq<U>)
    requires p < |buckets| && Ready(buckets, sorts, key, comb)
    modifies buckets
    ensures Ready(buckets, sorts, key, comb)
    ensures forall i :: 0 <= i < |buckets| ==>
      buckets[i].received == old(buckets[i].received) + (if i == p then [x] else [])
  {
    buckets[p].Add(x);
  }

  lemma AllSpilled<T(!new), U>(bucket: Bucket<T, U>)
    requires bucket.Valid() && !bucket.chunked && bucket.elements == []
    ensures Written(bucket.batches, bucket.received, Preparing(bucket.sorts, bucket.key, bucket.comb))
  {
    assert Flatten(bucket.pieces) + [] == Flatten(bucket.pieces);
  }

  method Write<T(!new), U>(
    src: seq<T>, part: T -> int, pcount: nat, sorts: bool, key: T -> int, keyed: bool, comb: seq<T> -> seq<U>)
    returns (out: seq<seq<Batch<U>>>)
    requires pcount > 0 && KeepsSome(comb)
    ensures |out| == pcount
    ensures forall p :: 0 <= p < pcount ==>
      Written(out[p], Select(src, Place(part, pcount), p), Preparing(sorts, key, comb))
  {
    var buckets := MakeBuckets(pcount, sorts, key, keyed, comb);
    Distribute(src, part, buckets, sorts, key, comb);
    Spill(buckets, sorts, key, comb, true);
    forall p | 0 <= p < pcount
      ensures Written(buckets[p].batches, Select(src, Place(part, pcount), p), Preparing(sorts, key, comb))
    {
      AllSpilled(buckets[p]);
    }
    out := seq(pcount, p requires 0 <= p < pcount reads buckets => buckets[p].batches);
  }

  // ---- reading -------------------------------------------------------------------------------

  lemma {:induction false} WholeContents<T>(blocks: seq<Block<T>>, n: nat)
    requires Whole(blocks) && n < |blocks|
    ensures Contents(blocks[..n + 1]) == Contents(blocks[..n]) + blocks[n][0]
  {
    assert blocks[..n + 1] == blocks[..n] + [blocks[n]];
    ContentsAppend(blocks[..n], blocks[n]);
    assert blocks[n] == [blocks[n][0]];
    assert Flatten(blocks[n]) == blocks[n][0] + Flatten([]);
  }

  /** The chunks of the blocks of a batch, last block first. */
  method ReadBack<T>(batch: Batch<T>) returns (stream: seq<T>)
    ensures stream == Stream(batch)
  {
    stream := [];
    var i := |batch|;
    assert batch[..i] == batch;
    while i > 0
      invariant 0 <= i <= |batch| && stream + Stream(batch[..i]) == Stream(batch)
    {
      i := i - 1;
      assert batch[..i + 1][..i] == batch[..i];
      stream := stream + Flatten(batch[i]);
    }
  }

  function Streams<T>(batches: seq<Batch<T>>): seq<seq<T>> {
    seq(|batches|, i requires 0 <= i < |batches| => Stream(batches[i]))
  }

  method ReadBatches<T>(batches: seq<Batch<T>>) returns (streams: seq<seq<T>>)
    ensures streams == Streams(batches)
  {
    streams := [];
    while |streams| < |batches|
      invariant |streams| <= |batches| && streams == Streams(batches)[..|streams|]
    {
      var stream := ReadBack(batches[|streams|]);
      streams := streams + [stream];
    }
  }

  /** The blocks' elements are collected; the bucket may spill after every block. */
  method Receive<T(!new)>(blocks: seq<Block<T>>, bucket: Bucket<T, T>)
    requires Whole(blocks) && bucket.Valid() && bucket.received == []
    modifies bucket
    ensures bucket.Valid() && bucket.received == Contents(blocks)
  {
    var n := 0;
    while n < |blocks|
      invariant 0 <= n <= |blocks| && bucket.Valid() && bucket.received == Contents(blocks[..n])
    {
      WholeContents(blocks, n);
      bucket.Extend(blocks[n][0]);
      n := n + 1;
      var check: bool := *;
      if check {
        bucket.Serialize();
      }
    }
    assert blocks[..n] == blocks;
  }

  /** The elements of the blocks, spilling and merging along the way; sorted buckets give them in stable order. */
  method MergeSorted<T(!new)>(blocks: seq<Block<T>>, sorts: bool, key: T -> int, keyed: bool) returns (r: seq<T>)
    requires Whole(blocks)
    ensures multiset(r) == multiset(Contents(blocks))
    ensures sorts ==> r == StableSort(Contents(blocks), key)
  {
    var bucket := new Bucket<T, T>(key, keyed, sorts, (xs: seq<T>) => xs, true);
    Receive(blocks, bucket);
    if bucket.batches == [] {
      assert bucket.received == bucket.elements;
      r := bucket.Iterate();
      StableSortSorts(Contents(blocks), key);
    } else {
      bucket.Serialize();
      var streams := ReadBatches(bucket.batches);
      MergedPieces(bucket.pieces, streams, sorts, key);
      assert Flatten(bucket.pieces) + [] == Flatten(bucket.pieces);
      r := Merge(streams, key);
    }
  }

  lemma MergedPieces<T>(pieces: seq<seq<T>>, streams: seq<seq<T>>, sorts: bool, key: T -> int)
    requires |streams| == |pieces| && forall i :: 0 <= i < |pieces| ==> streams[i] == Ordering(sorts, key)(pieces[i])
    ensures multiset(Merge(streams, key)) == multiset(Flatten(pieces))
    ensures sorts ==> Merge(streams, key) == StableSort(Flatten(pieces), key)
  {
    MergeKeeps(streams, key);
    if sorts {
      ExternalSort(pieces, streams, key);
      StableSortSorts(Flatten(pieces), key);
    } else {
      assert streams == pieces;
    }
  }

  /** Sorted on request, or when the buckets are sorted; otherwise the elements as fetched. */
  method Read<T(!new)>(
    blocks: seq<Block<T>>, requested: bool, sorts: bool, key: T -> int, keyed: bool) returns (r: seq<T>)
    requires Whole(blocks)
    ensures multiset(r) == multiset(Contents(blocks))
    ensures sorts ==> r == StableSort(Contents(blocks), key)
    ensures !requested && !sorts ==> r == Contents(blocks)
  {
    if requested || sorts {
      r := MergeSorted(blocks, sorts, key, keyed);
    } else {
      r := [];
      var n := 0;
      while n < |blocks|
        invariant 0 <= n <= |blocks| && r == Contents(blocks[..n])
      {
        WholeContents(blocks, n);
        r := r + blocks[n][0];
        n := n + 1;
      }
      assert blocks[..n] == blocks;
    }
  }
}

/**
 Buckets: the elements of one output partition of a shuffle, and the batches of serialized blocks
 they are spilled to.  Containers are represented by the chunks written to them.
 */
module Buckets {
  import opened Sequences
  import opened Sorting

  type Block<T> = seq<seq<T>>

  type Batch<T> = seq<Block<T>>

  const SortSplits := 128

  function Slices<T>(xs: seq<T>, size: nat): seq<seq<T>>
    requires size > 0
  {
    if |xs| == 0 then [] else if |xs| <= size then [xs] else [xs[..size]] + Slices(xs[size..], size)
  }

  /** The slices are non-empty, within the size, and concatenate to the whole. */
  lemma {:induction false} SlicesTile<T>(xs: seq<T>, size: nat)
    requires size > 0
    ensures Flatten(Slices(xs, size)) == xs
    ensures forall s :: s in Slices(xs, size) ==> 0 < |s| <= size
  {
    if |xs| > size {
      SlicesTile(xs[size..], size);
      assert xs == xs[..size] + xs[size..];
    } else if |xs| > 0 {
      FlattenOne(xs);
    }
  }

  lemma SlicesNext<T>(xs: seq<T>, size: nat, start: nat)
    requires size > 0 && start < |xs|
    ensures Slices(xs[start..], size) ==
      [xs[start..if start + size < |xs| then start + size else |xs|]]
      + (if start + size < |xs| then Slices(xs[start + size..], size) else [])
  {
    if start + size < |xs| {
      assert xs[start..][..size] == xs[start..start + size];
      assert xs[start..][size..] == xs[start + size..];
    } else {
      assert xs[start..] == xs[start..|xs|] && 0 < |xs[start..]| <= size;
    }
  }

  method Split<T>(xs: seq<T>, size: nat) returns (slices: seq<seq<T>>)
    requires size > 0
    ensures slices == Slices(xs, size)
  {
    slices := [];
    var start := 0;
    assert xs[0..] == xs;
    while start < |xs|
      invariant 0 <= start
      invariant slices + (if start < |xs| then Slices(xs[start..], size) else []) == Slices(xs, size)
    {
      SlicesNext(xs, size, start);
      slices := slices + [xs[start..if start + size < |xs| then start + size else |xs|]];
      start := start + size;
    }
  }

  /** The elements in the order in which a batch is read back for merging: last block first. */
  function Stream<T>(batch: Batch<T>): seq<T> {
    if batch == [] then [] else Flatten(batch[|batch| - 1]) + Stream(batch[..|batch| - 1])
  }

  lemma StreamAppend<T>(batch: Batch<T>, block: Block<T>)
    ensures Stream(batch + [block]) == Flatten(block) + Stream(batch)
  {
    assert (batch + [block])[..|batch|] == batch;
  }

  /** Moving the last block to the end of a batch keeps the stream. */
  lemma Popped<U>(blocks: seq<Block<U>>, batch: Batch<U>)
    requires blocks != []
    ensures var last := |blocks| - 1;
      Contents(blocks[..last]) + Stream(batch + [blocks[last]]) == Contents(blocks) + Stream(batch)
  {
    var last := |blocks| - 1;
    assert blocks == blocks[..last] + [blocks[last]];
    ContentsAppend(blocks[..last], blocks[last]);
    StreamAppend(batch, blocks[last]);
    ConcatAssociative(Contents(blocks[..last]), Flatten(blocks[last]), Stream(batch));
  }

  /** The elements of a sequence of blocks, first to last. */
  function Contents<T>(blocks: seq<Block<T>>): seq<T> {
    if blocks == [] then [] else Flatten(blocks[0]) + Contents(blocks[1..])
  }

  lemma {:induction false} ContentsConcat<T>(xs: seq<Block<T>>, ys: seq<Block<T>>)
    ensures Contents(xs + ys) == Contents(xs) + Contents(ys)
  {
    if xs == [] {
      assert xs + ys == ys;
    } else {
      assert (xs + ys)[1..] == xs[1..] + ys;
      ContentsConcat(xs[1..], ys);
    }
  }

  lemma ContentsAppend<T>(xs: seq<Block<T>>, y: Block<T>)
    ensures Contents(xs + [y]) == Contents(xs) + Flatten(y)
  {
    ContentsConcat(xs, [y]);
    assert Contents([y]) == Flatten(y) + Contents([]);
  }

  lemma {:induction false} ContentsOfSlices<T>(slices: seq<seq<T>>, blocks: seq<Block<T>>)
    requires |blocks| == |slices| && forall i :: 0 <= i < |slices| ==> Flatten(blocks[i]) == slices[i]
    ensures Contents(blocks) == Flatten(slices)
  {
    if slices != [] {
      ContentsOfSlices(slices[1..], blocks[1..]);
    }
  }

  /** Fetched one by one, the blocks of a batch have the elements of its stream. */
  lemma {:induction false} ContentsOfBatch<T>(batch: Batch<T>)
    ensures multiset(Contents(batch)) == multiset(Stream(batch))
  {
    if batch != [] {
      var rest := batch[..|batch| - 1];
      assert batch == rest + [batch[|batch| - 1]];
      ContentsAppend(rest, batch[|batch| - 1]);
      ContentsOfBatch(rest);
    }
  }

  /** Every block has a single chunk. */
  ghost predicate Whole<T>(blocks: seq<Block<T>>) {
    forall i :: 0 <= i < |blocks| ==> |blocks[i]| == 1
  }

  ghost predicate KeepsSome<T(!new), U>(comb: seq<T> -> seq<U>) {
    forall xs: seq<T> :: xs != [] ==> comb(xs) != []
  }

  /**
   The batches are those of some cut of the elements: each batch streams one piece of the cut, after
   ordering and combining it.
   */
  ghost predicate SpilledAs<T, U>(batches: seq<Batch<U>>, pieces: seq<seq<T>>, prepare: seq<T> -> seq<U>) {
    |batches| == |pieces| && forall i :: 0 <= i < |batches| ==>
      pieces[i] != [] && Stream(batches[i]) == prepare(pieces[i])
  }

  ghost function Ordering<T>(sorts: bool, key: T -> int): seq<T> -> seq<T> {
    (xs: seq<T>) => if sorts then StableSort(xs, key) else xs
  }

  ghost function Preparing<T, U>(sorts: bool, key: T -> int, comb: seq<T> -> seq<U>): seq<T> -> seq<U> {
    (xs: seq<T>) => comb(Ordering(sorts, key)(xs))
  }

  /** The number of records in a block or chunk follows from an estimate of their size: any positive number. */
  method EstimateRecords() returns (records: nat)
    ensures records > 0
  {
    var estimate: int := *;
    records := if estimate > 0 then estimate else 1;
  }

  class Bucket<T(!new), U> {
    const key: T -> int
    const keyed: bool
    const sorts: bool
    const comb: seq<T> -> seq<U>
    const chunked: bool

    var elements: seq<T>
    var batches: seq<Batch<U>>
    ghost var received: seq<T>
    ghost var pieces: seq<seq<T>>

    ghost predicate Valid()
      reads this
    {
      && KeepsSome(comb)
      && SpilledAs(batches, pieces, Preparing(sorts, key, comb))
      && received == Flatten(pieces) + elements
      && (!chunked ==> forall i :: 0 <= i < |batches| ==> Whole(batches[i]))
    }

    constructor (key: T -> int, keyed: bool, sorts: bool, comb: seq<T> -> seq<U>, chunked: bool)
      requires KeepsSome(comb)
      ensures Valid() && received == [] && elements == [] && batches == []
      ensures this.key == key && this.sorts == sorts && this.comb == comb && this.chunked == chunked
    {
      this.key, this.keyed, this.sorts, this.comb, this.chunked := key, keyed, sorts, comb, chunked;
      elements, batches, received, pieces := [], [], [], [];
    }

    method Add(x: T)
      requires Valid()
      modifies this`elements, this`received
      ensures Valid() && received == old(received) + [x]
    {
      elements := elements + [x];
      received := received + [x];
    }

    method Extend(xs: seq<T>)
      requires Valid()
      modifies this`elements, this`received
      ensures Valid() && received == old(received) + xs && elements == old(elements) + xs
    {
      elements := elements + xs;
      received := received + xs;
      assert received == Flatten(pieces) + elements;
    }

    /** Large sorted buckets are sorted by parts, which are then merged; small ones in place. */
    method Iterate() returns (r: seq<T>)
      modifies this`elements
      ensures r == Ordering(sorts, key)(old(elements))
    {
      if !sorts {
        return elements;
      }
      if |elements| > SortSplits * 2 && keyed {
        r := SortByParts(elements, |elements| / SortSplits);
      } else {
        elements := StableSort(elements, key);
        r := elements;
      }
    }

    method SortByParts(xs: seq<T>, size: nat) returns (r: seq<T>)
      requires size > 0
      ensures r == StableSort(xs, key)
    {
      var slices := Split(xs, size);
      var parts := slices;
      var i := 0;
      while i < |parts|
        invariant 0 <= i <= |parts| == |slices|
        invariant forall j :: 0 <= j < i ==> parts[j] == StableSort(slices[j], key)
        invariant forall j :: i <= j < |parts| ==> parts[j] == slices[j]
      {
        parts := parts[i := StableSort(parts[i], key)];
        i := i + 1;
      }
      SlicesTile(xs, size);
      ExternalSort(slices, parts, key);
      r := Merge(parts, key);
    }

    /** The elements, ordered and combined, in blocks of chunks. */
    method ToBlocks() returns (blocks: seq<Block<U>>)
      requires KeepsSome(comb) && elements != []
      modifies this`elements
      ensures elements == [] && blocks != [] && Contents(blocks) == Preparing(sorts, key, comb)(old(elements))
      ensures !chunked ==> Whole(blocks)
    {
      OrderingKeepsSome(sorts, key, elements);
      var ordered := Iterate();
      var data := comb(ordered);
      elements := [];
      var slices;
      var blockRecords := EstimateRecords();
      if blockRecords > |data| {
        slices := [data];
        FlattenOne(data);
      } else {
        slices := Split(data, blockRecords);
        SlicesTile(data, blockRecords);
        assert Flatten(slices) == data != [];
      }
      blocks := ToChunks(slices);
    }

    method ToChunks(slices: seq<seq<U>>) returns (blocks: seq<Block<U>>)
      ensures |blocks| == |slices| && Contents(blocks) == Flatten(slices)
      ensures !chunked ==> Whole(blocks)
    {
      blocks := [];
      var chunkRecords := EstimateRecords();
      var i := 0;
      while i < |slices|
        invariant 0 <= i <= |slices| && |blocks| == i
        invariant forall j :: 0 <= j < i ==> Flatten(blocks[j]) == slices[j]
        invariant !chunked ==> Whole(blocks)
      {
        var block;
        if chunked {
          block := Split(slices[i], chunkRecords);
          SlicesTile(slices[i], chunkRecords);
        } else {
          block := [slices[i]];
          FlattenOne(slices[i]);
        }
        blocks := blocks + [block];
        i := i + 1;
      }
      ContentsOfSlices(slices, blocks);
    }

    /** The blocks are popped off the end and written one after the other. */
    method WriteBlocks(all: seq<Block<U>>) returns (batch: Batch<U>)
      ensures Stream(batch) == Contents(all)
      ensures Whole(all) ==> Whole(batch)
    {
      var blocks := all;
      batch := [];
      while blocks != []
        invariant Contents(blocks) + Stream(batch) == Contents(all)
        invariant Whole(all) ==> Whole(blocks) && Whole(batch)
        decreases |blocks|
      {
        var last := |blocks| - 1;
        Popped(blocks, batch);
        batch := batch + [blocks[last]];
        blocks := blocks[..last];
      }
    }

    /** The elements become a new batch of blocks. */
    method Serialize()
      requires Valid()
      modifies this`elements, this`batches, this`pieces
      ensures Valid() && elements == []
      ensures batches == old(batches) <==> old(elements) == []
      ensures old(batches) <= batches
    {
      if |elements| == 0 {
        return;
      }
      ghost var piece := elements;
      var blocks := ToBlocks();
      var batch := WriteBlocks(blocks);
      SpilledOnce(batches, pieces, Preparing(sorts, key, comb), batch, piece);
      batches := batches + [batch];
      pieces := pieces + [piece];
    }
  }

  lemma SpilledOnce<T, U>(
    batches: seq<Batch<U>>, pieces: seq<seq<T>>, prepare: seq<T> -> seq<U>, batch: Batch<U>, piece: seq<T>)
    requires SpilledAs(batches, pieces, prepare) && piece != [] && Stream(batch) == prepare(piece)
    ensures SpilledAs(batches + [batch], pieces + [piece], prepare)
    ensures Flatten(pieces + [piece]) == Flatten(pieces) + piece
  {
    FlattenAppend(pieces, piece);
  }

  lemma OrderingKeepsSome<T>(sorts: bool, key: T -> int, xs: seq<T>)
    requires xs != []
    ensures Ordering(sorts, key)(xs) != []
  {
    StableSortSorts(xs, key);
    assert xs[0] in multiset(StableSort(xs, key));
  }
}

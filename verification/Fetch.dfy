/**
 Fetching the blocks of an output partition: the managers that hold the buckets, the choice of one
 source for each source partition, and the multi-get requests for the blocks by their coordinates.
 */
module Fetch {
  import opened Sequences
  import opened Buckets

  // ---- the managers --------------------------------------------------------------------------

  /** The buckets of a dataset on one node: by source partition and then by destination. */
  type Store<T> = map<nat, seq<seq<Batch<T>>>>

  datatype Coordinate = Coordinate(part: nat, batch: nat, block: nat)

  datatype Lookup<T> = Found(value: T) | KeyError

  class ShuffleManager<T> {
    var buckets: map<nat, Store<T>>

    ghost function StoreOf(dset: nat): Store<T>
      reads this
    {
      if dset in buckets then buckets[dset] else map[]
    }

    constructor ()
      ensures buckets == map[]
    {
      buckets := map[];
    }

    method SetBuckets(dset: nat, part: nat, out: seq<seq<Batch<T>>>)
      modifies this
      ensures StoreOf(dset) == old(StoreOf(dset))[part := out]
      ensures forall d: nat :: d != dset ==> StoreOf(d) == old(StoreOf(d))
    {
      var store := if dset in buckets then buckets[dset] else map[];
      buckets := buckets[dset := store[part := out]];
    }

    method ClearBucket(dset: nat)
      modifies this
      ensures StoreOf(dset) == map[]
      ensures forall d: nat :: d != dset ==> StoreOf(d) == old(StoreOf(d))
    {
      buckets := map d | d in buckets && d != dset :: buckets[d];
    }

    /** One entry for each source partition held, in any order. */
    method GetSizes(dset: nat, dest: nat, size: Block<T> -> nat) returns (entries: seq<Entry>)
      requires forall part :: part in StoreOf(dset) ==> dest < |StoreOf(dset)[part]|
      ensures Describes(entries, StoreOf(dset), dest, size)
      ensures forall part: nat :: part in StoreOf(dset) <==> Listed(entries, part)
    {
      entries := [];
      if dset !in buckets {
        return;
      }
      var store := buckets[dset];
      var todo := store.Keys;
      while todo != {}
        invariant todo <= store.Keys && Describes(entries, store, dest, size)
        invariant forall part: nat :: part in store && part !in todo <==> Listed(entries, part)
        decreases |todo|
      {
        var part :| part in todo;
        assert part in StoreOf(dset);
        var entry := Entry(part, SizesOf(store[part][dest], size));
        forall p ensures Listed(entries + [entry], p) <==> Listed(entries, p) || p == part {
          ListedNext(entries, entry, p);
        }
        entries := entries + [entry];
        todo := todo - {part};
      }
    }

    method GetBlock(dset: nat, dest: nat, c: Coordinate) returns (block: Lookup<Block<T>>)
      ensures block == BlockAt(StoreOf(dset), dest, c)
    {
      if dset !in buckets {
        return KeyError;
      }
      var store := buckets[dset];
      if c.part !in store || |store[c.part]| == 0 {
        return KeyError;
      }
      if dest >= |store[c.part]| {
        return KeyError;
      }
      var bucket := store[c.part][dest];
      if c.batch >= |bucket| {
        return KeyError;
      }
      var batch := bucket[c.batch];
      if c.block >= |batch| {
        return KeyError;
      }
      return Found(batch[c.block]);
    }
  }

  function SizesOf<T>(batches: seq<Batch<T>>, size: Block<T> -> nat): seq<seq<nat>> {
    seq(|batches|,
      i requires 0 <= i < |batches| => seq(|batches[i]|, k requires 0 <= k < |batches[i]| => size(batches[i][k])))
  }

  ghost predicate Describes<T>(entries: seq<Entry>, store: Store<T>, dest: nat, size: Block<T> -> nat) {
    forall i :: 0 <= i < |entries| ==>
      && entries[i].part in store && dest < |store[entries[i].part]|
      && entries[i].sizes == SizesOf(store[entries[i].part][dest], size)
  }

  /** A block by its coordinate; coordinates out of range are key errors. */
  function BlockAt<T>(store: Store<T>, dest: nat, c: Coordinate): Lookup<Block<T>> {
    if c.part in store && dest < |store[c.part]| && c.batch < |store[c.part][dest]|
      && c.block < |store[c.part][dest][c.batch]|
    then Found(store[c.part][dest][c.batch][c.block])
    else KeyError
  }

  // ---- one source for each source partition --------------------------------------------------

  datatype Entry = Entry(part: nat, sizes: seq<seq<nat>>)

  datatype Selection = Selected(entries: seq<seq<Entry>>) | Missing(parts: set<nat>) | Unknown(part: nat)

  function PartsOf(entries: seq<Entry>): seq<nat> {
    if entries == [] then [] else [entries[0].part] + PartsOf(entries[1..])
  }

  /** The source partitions of all entries selected, source by source. */
  function AllParts(selected: seq<seq<Entry>>): seq<nat> {
    Flatten(seq(|selected|, s requires 0 <= s < |selected| => PartsOf(selected[s])))
  }

  lemma AllPartsNext(selected: seq<seq<Entry>>, some: seq<Entry>)
    ensures AllParts(selected + [some]) == AllParts(selected) + PartsOf(some)
  {
    var parts := seq(|selected|, s requires 0 <= s < |selected| => PartsOf(selected[s]));
    var all := selected + [some];
    assert seq(|all|, s requires 0 <= s < |all| => PartsOf(all[s])) == parts + [PartsOf(some)];
    FlattenAppend(parts, PartsOf(some));
  }

  lemma AllPartsPrefix(selected: seq<seq<Entry>>, s: nat)
    requires s < |selected|
    ensures AllParts(selected[..s + 1]) == AllParts(selected[..s]) + PartsOf(selected[s])
  {
    AllPartsNext(selected[..s], selected[s]);
    assert selected[..s] + [selected[s]] == selected[..s + 1];
  }

  /** Each of the numbers below n, once. */
  ghost predicate Permutes(order: seq<nat>, n: nat) {
    NoDuplicates(order) && forall i: nat :: i in order <==> i < n
  }

  lemma {:induction false} PartsConcat(xs: seq<Entry>, ys: seq<Entry>)
    ensures PartsOf(xs + ys) == PartsOf(xs) + PartsOf(ys)
  {
    if xs == [] {
      assert xs + ys == ys;
    } else {
      assert (xs + ys)[1..] == xs[1..] + ys;
      PartsConcat(xs[1..], ys);
    }
  }

  ghost predicate Listed(entries: seq<Entry>, part: nat) {
    exists i :: 0 <= i < |entries| && entries[i].part == part
  }

  lemma ListedNext(entries: seq<Entry>, entry: Entry, part: nat)
    ensures Listed(entries + [entry], part) <==> Listed(entries, part) || part == entry.part
  {
    var all := entries + [entry];
    assert all[|entries|] == entry;
    if i :| 0 <= i < |entries| && entries[i].part == part {
      assert all[i].part == part;
    }
  }

  ghost predicate Held(sizes: seq<seq<Entry>>, part: nat) {
    exists s :: 0 <= s < |sizes| && Listed(sizes[s], part)
  }

  /** The entries chosen are entries of their source, and of none of the parts missing. */
  ghost predicate ChosenFrom(selected: seq<seq<Entry>>, sizes: seq<seq<Entry>>) {
    |selected| <= |sizes| && forall s :: 0 <= s < |selected| ==> forall e :: e in selected[s] ==> e in sizes[s]
  }

  /** The parts chosen so far are those no longer missing, each once. */
  ghost predicate Covers(chosen: seq<nat>, missing: set<nat>, count: nat) {
    NoDuplicates(chosen) && (forall i :: i in missing ==> i < count) && forall i: nat :: i in chosen <==>
      i < count && i !in missing
  }

  lemma CoversOneMore(chosen: seq<nat>, missing: set<nat>, count: nat, part: nat)
    requires Covers(chosen, missing, count) && part in missing
    ensures Covers(chosen + [part], missing - {part}, count)
  {
  }

  /** The entries of one source: those of parts already covered are skipped. */
  method SelectFrom(size: seq<Entry>, missing: set<nat>, count: nat, ghost chosen: seq<nat>)
    returns (selected: seq<Entry>, rest: set<nat>, unknown: set<nat>)
    requires Covers(chosen, missing, count)
    ensures Covers(chosen + PartsOf(selected), rest, count) && rest <= missing
    ensures forall e :: e in selected ==> e in size
    ensures unknown == {} ==> forall i :: 0 <= i < |size| ==> size[i].part < count && size[i].part !in rest
    ensures forall p :: p in missing && p !in rest ==> Listed(size, p)
    ensures forall p :: p in unknown ==> p >= count && Listed(size, p)
  {
    selected, rest, unknown := [], missing, {};
    var i := 0;
    assert chosen + PartsOf([]) == chosen;
    while i < |size|
      invariant 0 <= i <= |size| && Covers(chosen + PartsOf(selected), rest, count) && rest <= missing && unknown == {}
      invariant forall e :: e in selected ==> e in size
      invariant forall j :: 0 <= j < i ==> size[j].part < count && size[j].part !in rest
      invariant forall p :: p in missing && p !in rest ==> Listed(size, p)
    {
      var entry := size[i];
      if entry.part in rest {
        CoversOneMore(chosen + PartsOf(selected), rest, count, entry.part);
        PartsConcat(selected, [entry]);
        assert PartsOf([entry]) == [entry.part] + PartsOf([]);
        assert chosen + PartsOf(selected + [entry]) == chosen + PartsOf(selected) + [entry.part];
        rest := rest - {entry.part};
        selected := selected + [entry];
      } else if entry.part >= count {
        // not a partition of this dataset: there is no other location to report
        unknown := {entry.part};
        return;
      }
      i := i + 1;
    }
  }

  /** Succeeds when every source partition is held by some source; each is then read from exactly one. */
  method SelectSources(sizes: seq<seq<Entry>>, count: nat) returns (r: Selection)
    ensures r.Selected? ==> |r.entries| == |sizes| && ChosenFrom(r.entries, sizes)
    ensures r.Selected? ==> Permutes(AllParts(r.entries), count) && forall i: nat :: i < count ==> Held(sizes, i)
    ensures r.Missing? ==> r.parts != {} && forall i: nat :: i in r.parts <==> i < count && !Held(sizes, i)
    ensures r.Unknown? ==> r.part >= count && Held(sizes, r.part)
    ensures !r.Unknown? ==> forall i: nat :: Held(sizes, i) ==> i < count
  {
    var missing := Below(count);
    var selected: seq<seq<Entry>> := [];
    var s := 0;
    while s < |sizes|
      invariant 0 <= s <= |sizes| && |selected| == s && ChosenFrom(selected, sizes)
      invariant Covers(AllParts(selected), missing, count)
      invariant forall t, i :: 0 <= t < s && 0 <= i < |sizes[t]| ==>
        sizes[t][i].part < count && sizes[t][i].part !in missing
      invariant forall p :: 0 <= p < count && p !in missing ==> Held(sizes, p)
    {
      var some, rest, unknown := SelectFrom(sizes[s], missing, count, AllParts(selected));
      if unknown != {} {
        var p :| p in unknown;
        return Unknown(p);
      }
      AllPartsNext(selected, some);
      selected := selected + [some];
      missing := rest;
      s := s + 1;
    }
    return if missing == {} then Selected(selected) else Missing(missing);
  }
}

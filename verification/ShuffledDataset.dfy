/**
 A whole shuffle: the writing tasks run in any order on any nodes, some more than once, and the
 reading tasks produce the output partitions.
 */
module ShuffledDataset {
  import opened Sequences
  import opened Sorting
  import opened Buckets
  import opened Shuffle
  import opened Fetch
  import opened ShuffleRun

  /** A writing task for a source partition, whose result is kept by a node. */
  datatype Run = Run(part: nat, node: nat)

  datatype Options<!T, !U> = Options(pcount: nat, partitioner: T -> int, sorts: bool, requested: bool, keyed: bool,
                                     key: T -> int, combinedKey: U -> int, comb: seq<T> -> seq<U>,
                                       size: Block<U> -> nat, limit: nat)

  ghost predicate Sensible<T(!new), U(!new)>(o: Options<T, U>) {
    o.pcount > 0 && KeepsSome(o.comb) && forall block :: o.size(block) > 0
  }

  ghost function PreparingOf<T, U>(o: Options<T, U>): seq<T> -> seq<U> { Preparing(o.sorts, o.key, o.comb) }

  /** The elements that belong to an output partition. */
  ghost function Destined<T, U>(parts: seq<seq<T>>, o: Options<T, U>, dest: nat): seq<T>
    requires o.pcount > 0
  {
    Select(Flatten(parts), Place(o.partitioner, o.pcount), dest)
  }

  ghost function SharesOf<T, U>(parts: seq<seq<T>>, o: Options<T, U>, dest: nat): seq<seq<T>>
    requires o.pcount > 0
  {
    Shares(parts, Place(o.partitioner, o.pcount), dest)
  }

  ghost predicate Covering(runs: seq<Run>, parts: nat, nodes: nat) {
    && (forall i :: 0 <= i < |runs| ==> runs[i].part < parts && runs[i].node < nodes)
    && forall p: nat :: p < parts ==> HasRun(runs, p)
  }

  ghost predicate HasRun(runs: seq<Run>, part: nat) {
    exists i :: 0 <= i < |runs| && runs[i].part == part
  }

  ghost predicate HoldsAll<T(!new), U(!new)>(
    managers: seq<ShuffleManager<U>>, dset: nat, parts: seq<seq<T>>, o: Options<T, U>)
    requires o.pcount > 0
    reads managers
  {
    forall dest: nat :: dest < o.pcount ==> AllHold(managers, dset, SharesOf(parts, o, dest), dest, PreparingOf(o))
  }

  ghost predicate OutputOf<T(!new), U>(out: seq<seq<Batch<U>>>, parts: seq<seq<T>>, o: Options<T, U>, part: nat)
    requires o.pcount > 0 && part < |parts|
  {
    |out| == o.pcount && forall p: nat :: p < o.pcount ==> Written(out[p], SharesOf(parts, o, p)[part], PreparingOf(o))
  }

  /** One writing task; the node replaces an earlier result for the same partition. */
  method WritePart<T(!new), U(!new)>(
    managers: seq<ShuffleManager<U>>, dset: nat, parts: seq<seq<T>>, o: Options<T, U>, run: Run)
    requires Sensible(o) && NoDuplicates(managers) && run.part < |parts| && run.node < |managers|
    requires HoldsAll(managers, dset, parts, o)
    modifies managers
    ensures HoldsAll(managers, dset, parts, o) && Somewhere(managers, dset, run.part)
    ensures forall p: nat :: old(Somewhere(managers, dset, p)) ==> Somewhere(managers, dset, p)
  {
    var out := Write(parts[run.part], o.partitioner, o.pcount, o.sorts, o.key, o.keyed, o.comb);
    assert OutputOf(out, parts, o, run.part);
    Keep(managers, dset, parts, o, run, out);
  }

  method Keep<T(!new), U(!new)>(
    managers: seq<ShuffleManager<U>>, dset: nat, ghost parts: seq<seq<T>>, ghost o: Options<T, U>, run: Run,
    out: seq<seq<Batch<U>>>)
    requires o.pcount > 0 && NoDuplicates(managers) && run.part < |parts| && run.node < |managers|
    requires HoldsAll(managers, dset, parts, o) && OutputOf(out, parts, o, run.part)
    modifies managers
    ensures HoldsAll(managers, dset, parts, o) && Somewhere(managers, dset, run.part)
    ensures forall p: nat :: old(Somewhere(managers, dset, p)) ==> Somewhere(managers, dset, p)
  {
    managers[run.node].SetBuckets(dset, run.part, out);
    forall dest: nat | dest < o.pcount ensures AllHold(managers, dset, SharesOf(parts, o, dest), dest, PreparingOf(o)) {
      assert old(AllHold(managers, dset, SharesOf(parts, o, dest), dest, PreparingOf(o)));
      forall m | 0 <= m < |managers|
        ensures HoldsShares(managers[m].StoreOf(dset), SharesOf(parts, o, dest), dest, PreparingOf(o))
      {
        assert old(HoldsShares(managers[m].StoreOf(dset), SharesOf(parts, o, dest), dest, PreparingOf(o)));
      }
    }
    forall p: nat | old(Somewhere(managers, dset, p)) ensures Somewhere(managers, dset, p) {
      var m :| 0 <= m < |managers| && old(p in managers[m].StoreOf(dset));
      assert p in managers[m].StoreOf(dset);
    }
    assert run.part in managers[run.node].StoreOf(dset);
  }

  method WriteAll<T(!new), U(!new)>(
    managers: seq<ShuffleManager<U>>, dset: nat, parts: seq<seq<T>>, o: Options<T, U>, runs: seq<Run>)
    requires Sensible(o) && NoDuplicates(managers) && Covering(runs, |parts|, |managers|)
      && HoldsAll(managers, dset, parts, o)
    modifies managers
    ensures HoldsAll(managers, dset, parts, o)
    ensures forall p: nat :: p < |parts| ==> Somewhere(managers, dset, p)
  {
    var n := 0;
    while n < |runs|
      invariant 0 <= n <= |runs| && HoldsAll(managers, dset, parts, o)
      invariant forall i :: 0 <= i < n ==> Somewhere(managers, dset, runs[i].part)
    {
      WritePart(managers, dset, parts, o, runs[n]);
      n := n + 1;
    }
    forall p: nat | p < |parts| ensures Somewhere(managers, dset, p) {
      assert HasRun(runs, p);
      var i :| 0 <= i < |runs| && runs[i].part == p;
      assert Somewhere(managers, dset, runs[i].part);
    }
  }

  /**
   For every placement and repetition of the writing tasks, every choice of spills, block and request
   sizes: each output partition is made from the elements destined for it, and sorted buckets give it
   sorted.
   */
  method RunShuffle<T(!new), U(!new)>(
    parts: seq<seq<T>>, o: Options<T, U>, nodes: nat, runs: seq<Run>) returns (out: seq<seq<U>>)
    requires Sensible(o) && Covering(runs, |parts|, nodes)
    ensures |out| == o.pcount
    ensures forall p: nat :: p < o.pcount ==> Shuffled(out[p], Destined(parts, o, p), PreparingOf(o))
    ensures o.sorts ==> forall p: nat :: p < o.pcount ==> IsSorted(out[p], o.combinedKey)
  {
    var managers: seq<ShuffleManager<U>> := MakeManagers(nodes);
    WriteAll(managers, 0, parts, o, runs);
    out := ReadAll(managers, 0, parts, o);
    assert forall p: nat :: p < o.pcount ==> RightAt(out[p], parts, o, p);
  }

  method MakeManagers<U>(nodes: nat) returns (managers: seq<ShuffleManager<U>>)
    ensures |managers| == nodes && fresh(managers) && NoDuplicates(managers)
    ensures forall m :: 0 <= m < nodes ==> managers[m].buckets == map[]
  {
    managers := [];
    while |managers| < nodes
      invariant |managers| <= nodes && fresh(managers) && NoDuplicates(managers)
      invariant forall m :: 0 <= m < |managers| ==> managers[m].buckets == map[]
    {
      var manager := new ShuffleManager<U>();
      managers := managers + [manager];
    }
  }

  ghost predicate RightAt<T(!new), U>(r: seq<U>, parts: seq<seq<T>>, o: Options<T, U>, dest: nat)
    requires o.pcount > 0
  {
    Shuffled(r, Destined(parts, o, dest), PreparingOf(o)) && (o.sorts ==> IsSorted(r, o.combinedKey))
  }

  method ReadAll<T(!new), U(!new)>(
    managers: seq<ShuffleManager<U>>, dset: nat, parts: seq<seq<T>>, o: Options<T, U>) returns (out: seq<seq<U>>)
    requires Sensible(o) && HoldsAll(managers, dset, parts, o) && forall p: nat :: p < |parts| ==>
      Somewhere(managers, dset, p)
    ensures |out| == o.pcount && forall p: nat :: p < o.pcount ==> RightAt(out[p], parts, o, p)
  {
    out := [];
    while |out| < o.pcount
      invariant |out| <= o.pcount && forall p: nat :: p < |out| ==> RightAt(out[p], parts, o, p)
    {
      var r := ReadDestination(managers, dset, parts, o, |out|);
      out := out + [r];
    }
  }

  method ReadDestination<T(!new), U(!new)>(
    managers: seq<ShuffleManager<U>>, dset: nat, parts: seq<seq<T>>, o: Options<T, U>, dest: nat)
    returns (r: seq<U>)
    requires Sensible(o) && dest < o.pcount && HoldsAll(managers, dset, parts, o)
    requires forall p: nat :: p < |parts| ==> Somewhere(managers, dset, p)
    ensures RightAt(r, parts, o, dest)
  {
    ghost var shares := SharesOf(parts, o, dest);
    SharesFlatten(parts, Place(o.partitioner, o.pcount), dest);
    assert Flatten(shares) == Destined(parts, o, dest);
    assert AllHold(managers, dset, shares, dest, PreparingOf(o));
    var outcome := ReadPartition(managers, dset, dest, o.size, o.limit, o.requested, o.sorts, o.combinedKey, o.keyed,
                                 |parts|, shares, PreparingOf(o));
    r := outcome.value;
  }

  // ---- without a combiner --------------------------------------------------------------------

  lemma {:induction false} PreparedKeeps<T>(pieces: seq<seq<T>>, prepare: seq<T> -> seq<T>)
    requires forall xs :: multiset(prepare(xs)) == multiset(xs)
    ensures multiset(Flatten(Prepared(pieces, prepare))) == multiset(Flatten(pieces))
  {
    if pieces == [] {
      assert Prepared(pieces, prepare) == [];
    } else {
      PreparedKeeps(pieces[1..], prepare);
      assert Prepared(pieces, prepare)[1..] == Prepared(pieces[1..], prepare);
      assert Flatten(Prepared(pieces, prepare)) == prepare(pieces[0]) + Flatten(Prepared(pieces[1..], prepare));
    }
  }

  /** Without a combiner a shuffle keeps the elements. */
  lemma ShuffledKeeps<T(!new)>(r: seq<T>, xs: seq<T>, sorts: bool, key: T -> int, comb: seq<T> -> seq<T>)
    requires Shuffled(r, xs, Preparing(sorts, key, comb)) && forall ys :: comb(ys) == ys
    ensures multiset(r) == multiset(xs)
  {
    var prepare := Preparing(sorts, key, comb);
    var pieces: seq<seq<T>> :| ShuffledAs(r, xs, prepare, pieces);
    forall ys ensures multiset(prepare(ys)) == multiset(ys) {
      assert prepare(ys) == Ordering(sorts, key)(ys);
      StableSortSorts(ys, key);
    }
    PreparedKeeps(pieces, prepare);
  }

  /** The elements placed below n. */
  function Under<T>(xs: seq<T>, place: T -> int, n: int): seq<T> {
    if xs == [] then [] else (if 0 <= place(xs[0]) < n then [xs[0]] else []) + Under(xs[1..], place, n)
  }

  lemma {:induction false} UnderNext<T>(xs: seq<T>, place: T -> int, n: nat)
    ensures multiset(Under(xs, place, n + 1)) == multiset(Under(xs, place, n)) + multiset(Select(xs, place, n))
  {
    if xs != [] {
      UnderNext(xs[1..], place, n);
    }
  }

  lemma {:induction false} UnderAll<T>(xs: seq<T>, place: T -> int, n: nat)
    requires forall i :: 0 <= i < |xs| ==> 0 <= place(xs[i]) < n
    ensures Under(xs, place, n) == xs
  {
    if xs != [] {
      UnderAll(xs[1..], place, n);
    }
  }

  lemma {:induction false} UnderNone<T>(xs: seq<T>, place: T -> int)
    ensures Under(xs, place, 0) == []
  {
    if xs != [] {
      UnderNone(xs[1..], place);
    }
  }

  lemma {:induction false} SelectBelow<T>(xs: seq<T>, place: T -> int, n: nat, all: seq<seq<T>>)
    requires |all| == n && forall p :: 0 <= p < n ==> all[p] == Select(xs, place, p)
    ensures multiset(Flatten(all)) == multiset(Under(xs, place, n))
  {
    if n == 0 {
      UnderNone(xs, place);
    } else {
      SelectBelow(xs, place, n - 1, all[..n - 1]);
      FlattenLast(all);
      UnderNext(xs, place, n - 1);
    }
  }

  lemma FlattenLast<T>(xss: seq<seq<T>>)
    requires xss != []
    ensures multiset(Flatten(xss)) == multiset(Flatten(xss[..|xss| - 1])) + multiset(xss[|xss| - 1])
  {
    var front, last := xss[..|xss| - 1], xss[|xss| - 1];
    assert xss == front + [last];
    FlattenAppend(front, last);
  }

  lemma {:induction false} FlattenMultisets<T>(xss: seq<seq<T>>, yss: seq<seq<T>>)
    requires |xss| == |yss| && forall i :: 0 <= i < |xss| ==> multiset(xss[i]) == multiset(yss[i])
    ensures multiset(Flatten(xss)) == multiset(Flatten(yss))
  {
    if xss != [] {
      FlattenMultisets(xss[1..], yss[1..]);
    }
  }

  lemma PartitionConserves<T(!new)>(parts: seq<seq<T>>, o: Options<T, T>, out: seq<T>, p: nat)
    requires o.pcount > 0 && (forall ys :: o.comb(ys) == ys) && Shuffled(out, Destined(parts, o, p), PreparingOf(o))
    ensures multiset(out) == multiset(Destined(parts, o, p))
    ensures forall x :: x in out ==> o.partitioner(x) % o.pcount == p
  {
    ShuffledKeeps(out, Destined(parts, o, p), o.sorts, o.key, o.comb);
    var place := Place(o.partitioner, o.pcount);
    SelectMembers(Flatten(parts), place, p);
    forall x | x in out ensures place(x) == p {
      assert x in multiset(out);
      assert x in multiset(Destined(parts, o, p));
    }
  }

  lemma TogetherAll<T>(parts: seq<seq<T>>, o: Options<T, T>, out: seq<seq<T>>)
    requires o.pcount > 0 && |out| == o.pcount && forall p: nat :: p < o.pcount ==>
      multiset(out[p]) == multiset(Destined(parts, o, p))
    ensures multiset(Flatten(out)) == multiset(Flatten(parts))
  {
    var shares := seq(o.pcount, p requires 0 <= p < o.pcount => Destined(parts, o, p));
    FlattenMultisets(out, shares);
    var place := Place(o.partitioner, o.pcount);
    SelectBelow(Flatten(parts), place, o.pcount, shares);
    UnderAll(Flatten(parts), place, o.pcount);
  }

  /** The output partitions together have the elements of the source, each where the partitioner puts it. */
  lemma ShuffleConserves<T(!new)>(parts: seq<seq<T>>, o: Options<T, T>, out: seq<seq<T>>)
    requires o.pcount > 0 && |out| == o.pcount && forall ys :: o.comb(ys) == ys
    requires forall p: nat :: p < o.pcount ==> Shuffled(out[p], Destined(parts, o, p), PreparingOf(o))
    ensures multiset(Flatten(out)) == multiset(Flatten(parts))
    ensures forall p: nat :: p < o.pcount ==> multiset(out[p]) == multiset(Destined(parts, o, p))
    ensures forall p: nat, x :: p < o.pcount && x in out[p] ==> o.partitioner(x) % o.pcount == p
  {
    forall p: nat | p < o.pcount ensures multiset(out[p]) == multiset(Destined(parts, o, p)) {
      PartitionConserves(parts, o, out[p], p);
    }
    forall p: nat, x | p < o.pcount && x in out[p] ensures o.partitioner(x) % o.pcount == p {
      PartitionConserves(parts, o, out[p], p);
    }
    TogetherAll(parts, o, out);
  }
}

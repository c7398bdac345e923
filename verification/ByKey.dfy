/**
 Combining by key: values are folded per key in each spilled piece of a bucket, and the results are
 folded again after the shuffle.  The reference is the plain fold over all values of a key.
 */
module ByKey {
  import opened Sequences
  import opened Sorting
  import opened Buckets
  import opened Shuffle
  import opened ShuffleRun
  import opened ShuffledDataset

  datatype Pair<V> = Pair(key: int, value: V)

  function KeyOf<V>(): Pair<V> -> int { (x: Pair<V>) => x.key }

  function Values<V>(xs: seq<Pair<V>>): seq<V> {
    seq(|xs|, i requires 0 <= i < |xs| => xs[i].value)
  }

  function FoldLeft<V, W>(acc: W, merge: (W, V) -> W, vs: seq<V>): W
    decreases |vs|
  {
    if vs == [] then acc else FoldLeft(merge(acc, vs[0]), merge, vs[1..])
  }

  /** The length of the leading run of pairs with the same key. */
  function Run<V>(xs: seq<Pair<V>>): (n: nat)
    requires xs != []
    ensures 0 < n <= |xs|
    ensures forall i :: 0 <= i < n ==> xs[i].key == xs[0].key
    ensures n < |xs| ==> xs[n].key != xs[0].key
  {
    if |xs| == 1 || xs[1].key != xs[0].key then 1 else 1 + Run(xs[1..])
  }

  /** Adjacent pairs with the same key are folded into one. */
  function GroupFold<V, W>(xs: seq<Pair<V>>, create: V -> W, merge: (W, V) -> W): seq<Pair<W>>
    decreases |xs|
  {
    if xs == [] then []
    else
      var n := Run(xs);
      var folded := FoldLeft(create(xs[0].value), merge, Values(xs[1..n]));
      [Pair(xs[0].key, folded)] + GroupFold(xs[n..], create, merge)
  }

  /** The reference: all values of a key, folded from left to right. */
  function Folded<V, W>(xs: seq<Pair<V>>, k: int, create: V -> W, merge: (W, V) -> W): Option<W> {
    var vs := Values(Select(xs, KeyOf(), k));
    if vs == [] then None else Some(FoldLeft(create(vs[0]), merge, vs[1..]))
  }

  // ---- the algebra ---------------------------------------------------------------------------

  ghost predicate Commutative<W(!new)>(op: (W, W) -> W) {
    forall a, b :: op(a, b) == op(b, a)
  }

  ghost predicate Associative<W(!new)>(op: (W, W) -> W) {
    forall a, b, c :: op(op(a, b), c) == op(a, op(b, c))
  }

  ghost predicate MergesCreated<V(!new), W(!new)>(create: V -> W, merge: (W, V) -> W, op: (W, W) -> W) {
    forall w, v :: merge(w, v) == op(w, create(v))
  }

  /** The order and grouping of merges do not matter, and merging a value is merging what is created from it. */
  ghost predicate Combinable<V(!new), W(!new)>(create: V -> W, merge: (W, V) -> W, op: (W, W) -> W) {
    Commutative(op) && Associative(op) && MergesCreated(create, merge, op)
  }

  function Join<W>(a: Option<W>, b: Option<W>, op: (W, W) -> W): Option<W> {
    match (a, b)
    case (None, _) => b
    case (_, None) => a
    case (Some(x), Some(y)) => Some(op(x, y))
  }

  lemma JoinLaws<W(!new)>(a: Option<W>, b: Option<W>, c: Option<W>, op: (W, W) -> W)
    requires Commutative(op) && Associative(op)
    ensures Join(Join(a, b, op), c, op) == Join(a, Join(b, c, op), op) && Join(a, b, op) == Join(b, a, op)
  {
  }

  function One<V, W>(x: Pair<V>, k: int, create: V -> W): Option<W> {
    if x.key == k then Some(create(x.value)) else None
  }

  function Total<V, W>(xs: seq<Pair<V>>, k: int, create: V -> W, op: (W, W) -> W): Option<W> {
    if xs == [] then None else Join(One(xs[0], k, create), Total(xs[1..], k, create, op), op)
  }

  lemma {:induction false} TotalConcat<V, W(!new)>(
    xs: seq<Pair<V>>, ys: seq<Pair<V>>, k: int, create: V -> W, op: (W, W) -> W)
    requires Commutative(op) && Associative(op)
    ensures Total(xs + ys, k, create, op) == Join(Total(xs, k, create, op), Total(ys, k, create, op), op)
  {
    if xs == [] {
      assert xs + ys == ys;
    } else {
      assert (xs + ys)[1..] == xs[1..] + ys;
      TotalConcat(xs[1..], ys, k, create, op);
      JoinLaws(One(xs[0], k, create), Total(xs[1..], k, create, op), Total(ys, k, create, op), op);
    }
  }

  lemma {:induction false} TotalPresent<V, W>(xs: seq<Pair<V>>, k: int, create: V -> W, op: (W, W) -> W)
    ensures Total(xs, k, create, op).Some? <==> HasKey(xs, k)
  {
    if xs != [] {
      TotalPresent(xs[1..], k, create, op);
      if i :| 0 <= i < |xs| && xs[i].key == k {
        assert i > 0 ==> xs[1..][i - 1].key == k;
      }
    }
  }

  // ---- rearrangements ------------------------------------------------------------------------

  lemma TotalWithout<V, W(!new)>(ys: seq<Pair<V>>, i: nat, k: int, create: V -> W, op: (W, W) -> W)
    requires Commutative(op) && Associative(op) && i < |ys|
    ensures Total(ys, k, create, op) == Join(One(ys[i], k, create), Total(ys[..i] + ys[i + 1..], k, create, op), op)
  {
    var front, tail, back := ys[..i], ys[i..], ys[i + 1..];
    assert ys == front + tail && tail[1..] == back;
    TotalConcat(front, tail, k, create, op);
    TotalConcat(front, back, k, create, op);
    var a, x, b := Total(front, k, create, op), One(ys[i], k, create), Total(back, k, create, op);
    JoinLaws(a, x, b, op);
    JoinLaws(x, a, b, op);
  }

  /** The total does not depend on the order. */
  lemma {:induction false} TotalPermuted<V, W(!new)>(
    xs: seq<Pair<V>>, ys: seq<Pair<V>>, k: int, create: V -> W, op: (W, W) -> W)
    requires Commutative(op) && Associative(op) && multiset(xs) == multiset(ys)
    ensures Total(xs, k, create, op) == Total(ys, k, create, op)
  {
    if xs == [] {
      assert |ys| == |multiset(ys)| == 0;
    } else {
      var i := Extract(xs, ys);
      TotalPermuted(xs[1..], ys[..i] + ys[i + 1..], k, create, op);
      TotalWithout(ys, i, k, create, op);
    }
  }

  // ---- folding is totalling ------------------------------------------------------------------

  lemma {:induction false} FoldTotal<V(!new), W(!new)>(
    acc: W, xs: seq<Pair<V>>, k: int, create: V -> W, merge: (W, V) -> W, op: (W, W) -> W)
    requires Combinable(create, merge, op) && forall i :: 0 <= i < |xs| ==> xs[i].key == k
    ensures Some(FoldLeft(acc, merge, Values(xs))) == Join(Some(acc), Total(xs, k, create, op), op)
    decreases |xs|
  {
    if xs != [] {
      assert Values(xs)[0] == xs[0].value && Values(xs)[1..] == Values(xs[1..]);
      FoldTotal(merge(acc, xs[0].value), xs[1..], k, create, merge, op);
      JoinLaws(Some(acc), One(xs[0], k, create), Total(xs[1..], k, create, op), op);
    }
  }

  lemma {:induction false} TotalElsewhere<V, W>(xs: seq<Pair<V>>, k: int, create: V -> W, op: (W, W) -> W)
    requires forall i :: 0 <= i < |xs| ==> xs[i].key != k
    ensures Total(xs, k, create, op) == None
  {
    if xs != [] {
      TotalElsewhere(xs[1..], k, create, op);
    }
  }

  function Same<W>(): W -> W { (w: W) => w }

  /** One run. */
  lemma RunTotal<V(!new), W(!new)>(run: seq<Pair<V>>, k: int, create: V -> W, merge: (W, V) -> W, op: (W, W) -> W)
    requires Combinable(create, merge, op) && run != [] && forall i :: 0 <= i < |run| ==> run[i].key == run[0].key
    ensures One(Pair(run[0].key, FoldLeft(create(run[0].value), merge, Values(run[1..]))), k, Same()) ==
      Total(run, k, create, op)
  {
    if run[0].key == k {
      FoldTotal(create(run[0].value), run[1..], k, create, merge, op);
    } else {
      TotalElsewhere(run, k, create, op);
    }
  }

  /** Grouping and folding keeps the total of each key. */
  lemma {:induction false} GroupTotal<V(!new), W(!new)>(
    xs: seq<Pair<V>>, k: int, create: V -> W, merge: (W, V) -> W, op: (W, W) -> W)
    requires Combinable(create, merge, op)
    ensures Total(GroupFold(xs, create, merge), k, Same(), op) == Total(xs, k, create, op)
    decreases |xs|
  {
    if xs != [] {
      var n := Run(xs);
      var run, rest := xs[..n], xs[n..];
      GroupTotal(rest, k, create, merge, op);
      assert xs == run + rest && run[1..] == xs[1..n];
      RunTotal(run, k, create, merge, op);
      TotalConcat(run, rest, k, create, op);
      var head := Pair(xs[0].key, FoldLeft(create(xs[0].value), merge, Values(xs[1..n])));
      assert ([head] + GroupFold(rest, create, merge))[1..] == GroupFold(rest, create, merge);
    }
  }

  /** The total is the fold of the reference. */
  lemma FoldedIsTotal<V(!new), W(!new)>(xs: seq<Pair<V>>, k: int, create: V -> W, merge: (W, V) -> W, op: (W, W) -> W)
    requires Combinable(create, merge, op)
    ensures Folded(xs, k, create, merge) == Total(xs, k, create, op)
  {
    var ys := Select(xs, KeyOf(), k);
    TotalSelected(xs, KeyOf(), k, k, create, op);
    SelectMembers(xs, KeyOf(), k);
    assert forall i :: 0 <= i < |ys| ==> ys[i] in ys;
    if ys != [] {
      assert Values(ys)[1..] == Values(ys[1..]);
      RunTotal(ys, k, create, merge, op);
    }
  }

  /** A selection with all the pairs of a key has its total. */
  lemma {:induction false} TotalSelected<V, W>(
    xs: seq<Pair<V>>, place: Pair<V> -> int, p: int, k: int, create: V -> W, op: (W, W) -> W)
    requires forall i :: 0 <= i < |xs| && xs[i].key == k ==> place(xs[i]) == p
    ensures Total(Select(xs, place, p), k, create, op) == Total(xs, k, create, op)
  {
    if xs != [] {
      TotalSelected(xs[1..], place, p, k, create, op);
      var rest := Select(xs[1..], place, p);
      assert ([xs[0]] + rest)[1..] == rest;
      assert [] + rest == rest;
      if place(xs[0]) == p {
        assert Select(xs, place, p) == [xs[0]] + rest;
      } else {
        assert Select(xs, place, p) == rest;
      }
    }
  }

  // ---- distinct keys -------------------------------------------------------------------------

  ghost predicate Increasing<V>(xs: seq<Pair<V>>) {
    forall i, j :: 0 <= i < j < |xs| ==> xs[i].key < xs[j].key
  }

  lemma {:induction false} GroupKeys<V, W>(xs: seq<Pair<V>>, create: V -> W, merge: (W, V) -> W)
    requires IsSorted(xs, KeyOf())
    ensures Increasing(GroupFold(xs, create, merge))
    ensures xs != [] ==> forall i :: 0 <= i < |GroupFold(xs, create, merge)| ==>
      xs[0].key <= GroupFold(xs, create, merge)[i].key
    decreases |xs|
  {
    if xs != [] {
      var n := Run(xs);
      GroupKeys(xs[n..], create, merge);
      assert n < |xs| ==> xs[0].key < xs[n].key;
    }
  }

  lemma {:induction false} IncreasingTotal<W>(xs: seq<Pair<W>>, i: nat, op: (W, W) -> W)
    requires Increasing(xs) && i < |xs|
    ensures Total(xs, xs[i].key, Same(), op) == Some(xs[i].value)
  {
    if i == 0 {
      TotalElsewhere(xs[1..], xs[0].key, Same(), op);
    } else {
      IncreasingTotal(xs[1..], i - 1, op);
    }
  }

  // ---- through the shuffle -------------------------------------------------------------------

  function LocalAggregation<V, W>(create: V -> W, merge: (W, V) -> W): seq<Pair<V>> -> seq<Pair<W>> {
    (xs: seq<Pair<V>>) => GroupFold(xs, create, merge)
  }

  lemma PreparedTotal<V(!new), W(!new)>(
    piece: seq<Pair<V>>, k: int, create: V -> W, merge: (W, V) -> W, op: (W, W) -> W)
    requires Combinable(create, merge, op)
    ensures Total(Preparing(true, KeyOf(), LocalAggregation(create, merge))(piece), k, Same(), op) ==
      Total(piece, k, create, op)
  {
    var sorted := StableSort(piece, KeyOf());
    StableSortSorts(piece, KeyOf());
    GroupTotal(sorted, k, create, merge, op);
    TotalPermuted(sorted, piece, k, create, op);
    var comb := LocalAggregation(create, merge);
    assert comb(sorted) == GroupFold(sorted, create, merge);
    assert Ordering(true, KeyOf())(piece) == sorted;
    assert Preparing(true, KeyOf(), comb)(piece) == comb(sorted);
  }

  lemma {:induction false} PiecesTotal<V(!new), W(!new)>(
    pieces: seq<seq<Pair<V>>>, prepare: seq<Pair<V>> -> seq<Pair<W>>, k: int, create: V -> W, op: (W, W) -> W)
    requires Commutative(op) && Associative(op)
    requires forall piece :: Total(prepare(piece), k, Same(), op) == Total(piece, k, create, op)
    ensures Total(Flatten(Prepared(pieces, prepare)), k, Same(), op) == Total(Flatten(pieces), k, create, op)
  {
    if pieces == [] {
      assert Prepared(pieces, prepare) == [];
    } else {
      PiecesTotal(pieces[1..], prepare, k, create, op);
      assert Prepared(pieces, prepare)[1..] == Prepared(pieces[1..], prepare);
      assert Flatten(Prepared(pieces, prepare)) == prepare(pieces[0]) + Flatten(Prepared(pieces[1..], prepare));
      TotalConcat(prepare(pieces[0]), Flatten(Prepared(pieces[1..], prepare)), k, Same(), op);
      TotalConcat(pieces[0], Flatten(pieces[1..]), k, create, op);
    }
  }

  /** A shuffle with local aggregation keeps the total of each key. */
  lemma ShuffledTotal<V(!new), W(!new)>(
    r: seq<Pair<W>>, xs: seq<Pair<V>>, k: int, create: V -> W, merge: (W, V) -> W, op: (W, W) -> W)
    requires Combinable(create, merge, op) && Shuffled(r, xs, Preparing(true, KeyOf(), LocalAggregation(create, merge)))
    ensures Total(r, k, Same(), op) == Total(xs, k, create, op)
  {
    var prepare := Preparing(true, KeyOf(), LocalAggregation(create, merge));
    var pieces: seq<seq<Pair<V>>> :| ShuffledAs(r, xs, prepare, pieces);
    forall piece ensures Total(prepare(piece), k, Same(), op) == Total(piece, k, create, op) {
      PreparedTotal(piece, k, create, merge, op);
    }
    PiecesTotal(pieces, prepare, k, create, op);
    TotalPermuted(r, Flatten(Prepared(pieces, prepare)), k, Same(), op);
    TotalPermuted(Flatten(pieces), xs, k, create, op);
  }

  lemma AggregationKeepsSome<V(!new), W(!new)>(create: V -> W, merge: (W, V) -> W)
    ensures KeepsSome(LocalAggregation(create, merge))
  {
  }

  lemma SameCombines<W(!new)>(op: (W, W) -> W)
    requires Commutative(op) && Associative(op)
    ensures Combinable(Same(), op, op)
  {
  }

  // ---- the operators -------------------------------------------------------------------------

  function ByKeyOptions<V, W>(
    create: V -> W, merge: (W, V) -> W, partitioner: int -> int, pcount: nat, size: Block<Pair<W>> -> nat,
    limit: nat)
    : Options<Pair<V>, Pair<W>>
  {
    Options(pcount, (x: Pair<V>) => partitioner(x.key), true, false, true, KeyOf(), KeyOf(),
      LocalAggregation(create, merge), size, limit)
  }

  /** One partition of the result. */
  ghost predicate CombinedAt<V, W>(out: seq<Pair<W>>, xs: seq<Pair<V>>, partitioner: int -> int, pcount: nat, p: nat,
                                   create: V -> W, merge: (W, V) -> W)
    requires pcount > 0
  {
    && Increasing(out)
    && (forall i :: 0 <= i < |out| ==>
      partitioner(out[i].key) % pcount == p && Folded(xs, out[i].key, create, merge) == Some(out[i].value))
    && forall j :: 0 <= j < |xs| && partitioner(xs[j].key) % pcount == p ==> HasKey(out, xs[j].key)
  }

  ghost predicate HasKey<V>(xs: seq<Pair<V>>, k: int) {
    exists i :: 0 <= i < |xs| && xs[i].key == k
  }

  lemma DestinedTotal<V(!new), W(!new)>(
    xs: seq<Pair<V>>, partitioner: int -> int, pcount: nat, p: nat, k: int, create: V -> W, op: (W, W) -> W)
    requires pcount > 0
    ensures Total(Select(xs, Place((x: Pair<V>) => partitioner(x.key), pcount), p), k, create, op) ==
      if partitioner(k) % pcount == p then Total(xs, k, create, op) else None
  {
    var place := Place((x: Pair<V>) => partitioner(x.key), pcount);
    if partitioner(k) % pcount == p {
      TotalSelected(xs, place, p, k, create, op);
    } else {
      SelectMembers(xs, place, p);
      var ys := Select(xs, place, p);
      assert forall i :: 0 <= i < |ys| ==> ys[i] in ys;
      TotalElsewhere(ys, k, create, op);
    }
  }

  lemma MergedTotal<V(!new), W(!new)>(
    r: seq<Pair<W>>, xs: seq<Pair<V>>, partitioner: int -> int, pcount: nat, p: nat, k: int, create: V -> W,
    merge: (W, V) -> W, op: (W, W) -> W)
    requires pcount > 0 && Combinable(create, merge, op)
    requires Shuffled(r, Select(xs, Place((x: Pair<V>) => partitioner(x.key), pcount), p),
      Preparing(true, KeyOf(), LocalAggregation(create, merge)))
    ensures Total(GroupFold(r, Same(), op), k, Same(), op) ==
      if partitioner(k) % pcount == p then Total(xs, k, create, op) else None
  {
    ShuffledTotal(r, Select(xs, Place((x: Pair<V>) => partitioner(x.key), pcount), p), k, create, merge, op);
    DestinedTotal(xs, partitioner, pcount, p, k, create, op);
    SameCombines(op);
    GroupTotal(r, k, Same(), op, op);
  }

  lemma MergedIsCombined<V(!new), W(!new)>(
    r: seq<Pair<W>>, xs: seq<Pair<V>>, partitioner: int -> int, pcount: nat, p: nat, create: V -> W,
    merge: (W, V) -> W, op: (W, W) -> W)
    requires pcount > 0 && Combinable(create, merge, op) && IsSorted(r, KeyOf())
    requires Shuffled(r, Select(xs, Place((x: Pair<V>) => partitioner(x.key), pcount), p),
      Preparing(true, KeyOf(), LocalAggregation(create, merge)))
    ensures CombinedAt(GroupFold(r, Same(), op), xs, partitioner, pcount, p, create, merge)
  {
    var out := GroupFold(r, Same(), op);
    GroupKeys(r, Same(), op);
    forall i | 0 <= i < |out|
      ensures partitioner(out[i].key) % pcount == p && Folded(xs, out[i].key, create, merge) == Some(out[i].value)
    {
      IncreasingTotal(out, i, op);
      MergedTotal(r, xs, partitioner, pcount, p, out[i].key, create, merge, op);
      FoldedIsTotal(xs, out[i].key, create, merge, op);
    }
    forall j | 0 <= j < |xs| && partitioner(xs[j].key) % pcount == p ensures HasKey(out, xs[j].key) {
      var k := xs[j].key;
      MergedTotal(r, xs, partitioner, pcount, p, k, create, merge, op);
      assert HasKey(xs, k);
      TotalPresent(xs, k, create, op);
      TotalPresent(out, k, Same(), op);
    }
  }

  /** Each key of the source is in exactly one partition, once, with the fold of all its values. */
  method CombineByKey<V(!new), W(!new)>(
    parts: seq<seq<Pair<V>>>, create: V -> W, merge: (W, V) -> W, op: (W, W) -> W, partitioner: int -> int,
    pcount: nat, nodes: nat, runs: seq<Run>, size: Block<Pair<W>> -> nat, limit: nat)
    returns (out: seq<seq<Pair<W>>>)
    requires pcount > 0 && Combinable(create, merge, op) && Covering(runs, |parts|, nodes)
      && forall block :: size(block) > 0
    ensures |out| == pcount
    ensures forall p: nat :: p < pcount ==> CombinedAt(out[p], Flatten(parts), partitioner, pcount, p, create, merge)
  {
    AggregationKeepsSome(create, merge);
    var o := ByKeyOptions(create, merge, partitioner, pcount, size, limit);
    var shuffled := RunShuffle(parts, o, nodes, runs);
    out := [];
    while |out| < pcount
      invariant |out| <= pcount
      invariant forall p: nat :: p < |out| ==> CombinedAt(out[p], Flatten(parts), partitioner, pcount, p, create, merge)
    {
      var r := shuffled[|out|];
      assert Shuffled(r, Destined(parts, o, |out|), PreparingOf(o));
      MergedIsCombined(r, Flatten(parts), partitioner, pcount, |out|, create, merge, op);
      out := out + [GroupFold(r, Same(), op)];
    }
  }

  /** Reducing by key, for an associative and commutative reduction. */
  method ReduceByKey<V(!new)>(parts: seq<seq<Pair<V>>>, reduction: (V, V) -> V, partitioner: int -> int, pcount: nat,
                              nodes: nat, runs: seq<Run>, size: Block<Pair<V>> -> nat, limit: nat)
    returns (out: seq<seq<Pair<V>>>)
    requires pcount > 0 && Commutative(reduction) && Associative(reduction) && Covering(runs, |parts|, nodes)
      && forall block :: size(block) > 0
    ensures |out| == pcount
    ensures forall p: nat :: p < pcount ==>
      CombinedAt(out[p], Flatten(parts), partitioner, pcount, p, Same(), reduction)
  {
    SameCombines(reduction);
    out := CombineByKey(parts, Same(), reduction, reduction, partitioner, pcount, nodes, runs, size, limit);
  }

  /** What the partitions say together: every key of the source exactly once, and no other. */
  lemma EachKeyOnce<V(!new), W(!new)>(out: seq<seq<Pair<W>>>, xs: seq<Pair<V>>, partitioner: int -> int, pcount: nat,
                                      create: V -> W, merge: (W, V) -> W, k: int)
    requires pcount > 0 && |out| == pcount
    requires forall p: nat :: p < pcount ==> CombinedAt(out[p], xs, partitioner, pcount, p, create, merge)
    ensures forall p: nat, q: nat, i, j ::
      p < pcount && q < pcount && 0 <= i < |out[p]| && 0 <= j < |out[q]| && out[p][i].key == out[q][j].key ==>
        p == q && i == j
    ensures HasKey(xs, k) <==> exists p :: 0 <= p < pcount && HasKey(out[p], k)
  {
    if j :| 0 <= j < |xs| && xs[j].key == k {
      var p := partitioner(k) % pcount;
      assert CombinedAt(out[p], xs, partitioner, pcount, p, create, merge);
      assert HasKey(out[p], k);
    }
    if p :| 0 <= p < pcount && HasKey(out[p], k) {
      var i :| 0 <= i < |out[p]| && out[p][i].key == k;
      var ys := Select(xs, KeyOf(), k);
      assert Folded(xs, k, create, merge).Some?;
      assert ys[0] in ys;
      SelectMembers(xs, KeyOf(), k);
    }
  }
}

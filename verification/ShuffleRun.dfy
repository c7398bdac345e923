/**
 A shuffle from end to end: whatever the spills of writers and readers, the placement of the written
 buckets and the sizes of blocks and requests, each output partition holds its elements.
 */
module ShuffleRun {
  import opened Sequences
  import opened Sorting
  import opened Buckets
  import opened Shuffle
  import opened Fetch
  import opened Requests

  function Prepared<T, U>(pieces: seq<seq<T>>, prepare: seq<T> -> seq<U>): seq<seq<U>> {
    seq(|pieces|, i requires 0 <= i < |pieces| => prepare(pieces[i]))
  }

  /** r has the elements of some cut of some rearrangement of xs, each piece of which was prepared on its own. */
  ghost predicate Shuffled<T(!new), U>(r: seq<U>, xs: seq<T>, prepare: seq<T> -> seq<U>) {
    exists pieces: seq<seq<T>> :: ShuffledAs(r, xs, prepare, pieces)
  }

  ghost predicate ShuffledAs<T, U>(r: seq<U>, xs: seq<T>, prepare: seq<T> -> seq<U>, pieces: seq<seq<T>>) {
    && (forall i :: 0 <= i < |pieces| ==> pieces[i] != [])
    && multiset(Flatten(pieces)) == multiset(xs)
    && multiset(r) == multiset(Flatten(Prepared(pieces, prepare)))
  }

  lemma ShuffledNothing<T(!new), U>(prepare: seq<T> -> seq<U>)
    ensures Shuffled([], [], prepare)
  {
    var none: seq<seq<T>> := [];
    assert Prepared(none, prepare) == [];
    assert ShuffledAs([], [], prepare, none);
  }

  lemma PreparedConcat<T, U>(first: seq<seq<T>>, second: seq<seq<T>>, prepare: seq<T> -> seq<U>)
    ensures Flatten(Prepared(first + second, prepare))
         == Flatten(Prepared(first, prepare)) + Flatten(Prepared(second, prepare))
  {
    assert Prepared(first + second, prepare) == Prepared(first, prepare) + Prepared(second, prepare);
    FlattenConcat(Prepared(first, prepare), Prepared(second, prepare));
  }

  lemma ShuffledBoth<T(!new), U>(r: seq<U>, xs: seq<T>, q: seq<U>, ys: seq<T>, prepare: seq<T> -> seq<U>)
    requires Shuffled(r, xs, prepare) && Shuffled(q, ys, prepare)
    ensures Shuffled(r + q, xs + ys, prepare)
  {
    var first: seq<seq<T>> :| ShuffledAs(r, xs, prepare, first);
    var second: seq<seq<T>> :| ShuffledAs(q, ys, prepare, second);
    var all := first + second;
    FlattenConcat(first, second);
    PreparedConcat(first, second, prepare);
    assert ShuffledAs(r + q, xs + ys, prepare, all);
  }

  lemma ShuffledAgain<T(!new), U>(r: seq<U>, xs: seq<T>, q: seq<U>, ys: seq<T>, prepare: seq<T> -> seq<U>)
    requires Shuffled(r, xs, prepare) && multiset(q) == multiset(r) && multiset(ys) == multiset(xs)
    ensures Shuffled(q, ys, prepare)
  {
    var pieces: seq<seq<T>> :| ShuffledAs(r, xs, prepare, pieces);
    assert ShuffledAs(q, ys, prepare, pieces);
  }

  lemma {:induction false} BatchContents<T>(batches: seq<Batch<T>>)
    ensures multiset(Contents(Flatten(batches))) == multiset(Flatten(Streams(batches)))
  {
    if batches == [] {
      assert Streams(batches) == [];
    } else {
      BatchContents(batches[1..]);
      ContentsOfBatch(batches[0]);
      ContentsConcat(batches[0], Flatten(batches[1..]));
      assert Streams(batches)[1..] == Streams(batches[1..]);
      assert Flatten(Streams(batches)) == Stream(batches[0]) + Flatten(Streams(batches[1..]));
    }
  }

  /** The blocks of a written bucket. */
  lemma WrittenShuffled<T(!new), U>(batches: seq<Batch<U>>, xs: seq<T>, prepare: seq<T> -> seq<U>)
    requires Written(batches, xs, prepare)
    ensures Shuffled(Contents(Flatten(batches)), xs, prepare) && Whole(Flatten(batches))
  {
    var pieces: seq<seq<T>> :| Flatten(pieces) == xs && SpilledAs(batches, pieces, prepare);
    BatchContents(batches);
    assert Streams(batches) == Prepared(pieces, prepare);
    assert ShuffledAs(Contents(Flatten(batches)), xs, prepare, pieces);
    WholeFlatten(batches);
  }

  lemma {:induction false} WholeFlatten<T>(batches: seq<Batch<T>>)
    requires forall i :: 0 <= i < |batches| ==> Whole(batches[i])
    ensures Whole(Flatten(batches))
  {
    if batches != [] {
      WholeFlatten(batches[1..]);
    }
  }

  // ---- gathering the source partitions -------------------------------------------------------

  predicate Within(order: seq<nat>, n: nat) {
    forall k :: 0 <= k < |order| ==> order[k] < n
  }

  /** The elements of the partitions, in a given order of the partitions. */
  function Gather<T>(order: seq<nat>, xss: seq<seq<T>>): seq<T>
    requires Within(order, |xss|)
  {
    if order == [] then [] else xss[order[0]] + Gather(order[1..], xss)
  }

  lemma {:induction false} GatherConcat<T>(a: seq<nat>, b: seq<nat>, xss: seq<seq<T>>)
    requires Within(a, |xss|) && Within(b, |xss|)
    ensures Gather(a + b, xss) == Gather(a, xss) + Gather(b, xss)
  {
    if a == [] {
      assert a + b == b;
    } else {
      assert (a + b)[1..] == a[1..] + b;
      GatherConcat(a[1..], b, xss);
    }
  }

  lemma {:induction false} GatherPrefix<T>(order: seq<nat>, xss: seq<seq<T>>, n: nat)
    requires n <= |xss| && Within(order, n)
    ensures Gather(order, xss) == Gather(order, xss[..n])
  {
    if order != [] {
      GatherPrefix(order[1..], xss, n);
    }
  }

  lemma WithoutLast(order: seq<nat>, n: nat) returns (at: nat, rest: seq<nat>)
    requires Permutes(order, n + 1)
    ensures at < |order| && order[at] == n && rest == order[..at] + order[at + 1..] && Permutes(rest, n)
  {
    assert n in order;
    at :| 0 <= at < |order| && order[at] == n;
    rest := order[..at] + order[at + 1..];
    forall i: nat ensures i in rest <==> i < n {
      if i in order && i != n {
        var j :| 0 <= j < |order| && order[j] == i;
        assert rest[if j < at then j else j - 1] == i;
      }
    }
    assert NoDuplicates(rest);
  }

  lemma GatherWithout<T>(order: seq<nat>, at: nat, xss: seq<seq<T>>)
    requires at < |order| && Within(order, |xss|)
    ensures multiset(Gather(order, xss)) == multiset(Gather(order[..at] + order[at + 1..], xss))
      + multiset(xss[order[at]])
  {
    var front, back := order[..at], order[at + 1..];
    GatherConcat(front, back, xss);
    assert order == front + order[at..] && order[at..][1..] == back;
    GatherConcat(front, order[at..], xss);
  }

  /** The order of the partitions does not change their elements. */
  lemma {:induction false} GatherAll<T>(order: seq<nat>, xss: seq<seq<T>>)
    requires Permutes(order, |xss|)
    ensures Within(order, |xss|) && multiset(Gather(order, xss)) == multiset(Flatten(xss))
    decreases |xss|
  {
    assert Within(order, |xss|) by {
      assert forall k :: 0 <= k < |order| ==> order[k] in order;
    }
    if xss == [] {
      assert order == [];
    } else {
      var n := |xss| - 1;
      var at, rest := WithoutLast(order, n);
      GatherWithout(order, at, xss);
      GatherAll(rest, xss[..n]);
      GatherPrefix(rest, xss, n);
      assert xss == xss[..n] + [xss[n]];
      FlattenAppend(xss[..n], xss[n]);
    }
  }

  /** The elements of each source partition that belong to a destination. */
  function Shares<T>(parts: seq<seq<T>>, place: T -> int, dest: int): seq<seq<T>> {
    seq(|parts|, i requires 0 <= i < |parts| => Select(parts[i], place, dest))
  }

  lemma {:induction false} SharesFlatten<T>(parts: seq<seq<T>>, place: T -> int, dest: int)
    ensures Flatten(Shares(parts, place, dest)) == Select(Flatten(parts), place, dest)
  {
    if parts != [] {
      SharesFlatten(parts[1..], place, dest);
      assert Shares(parts, place, dest)[1..] == Shares(parts[1..], place, dest);
      SelectConcat(parts[0], Flatten(parts[1..]), place, dest);
    }
  }

  // ---- the blocks fetched --------------------------------------------------------------------

  /** The store holds what the writers made of some of the source partitions. */
  ghost predicate HoldsShares<T(!new), U>(store: Store<U>, shares: seq<seq<T>>, dest: nat, prepare: seq<T> -> seq<U>) {
    forall part :: part in store ==>
      part < |shares| && dest < |store[part]| && Written(store[part][dest], shares[part], prepare)
  }

  lemma GatherNext<T>(part: nat, parts: seq<nat>, shares: seq<seq<T>>)
    requires part < |shares| && Within(parts, |shares|)
    ensures Within([part] + parts, |shares|) && Gather([part] + parts, shares) == shares[part] + Gather(parts, shares)
  {
    assert ([part] + parts)[1..] == parts;
  }

  lemma {:induction false} BlocksShuffled<T(!new), U>(
    entries: seq<Entry>, store: Store<U>, shares: seq<seq<T>>, dest: nat, prepare: seq<T> -> seq<U>)
    requires HoldsShares(store, shares, dest, prepare) && forall i :: 0 <= i < |entries| ==> entries[i].part in store
    ensures Within(PartsOf(entries), |shares|)
    ensures Shuffled(Contents(AllBlocks(entries, store, dest)), Gather(PartsOf(entries), shares), prepare)
    ensures Whole(AllBlocks(entries, store, dest))
  {
    if entries == [] {
      ShuffledNothing(prepare);
    } else {
      var part := entries[0].part;
      var batches := store[part][dest];
      BlocksShuffled(entries[1..], store, shares, dest, prepare);
      WrittenShuffled(batches, shares[part], prepare);
      var rest := AllBlocks(entries[1..], store, dest);
      ContentsConcat(Flatten(batches), rest);
      GatherNext(part, PartsOf(entries[1..]), shares);
      ShuffledBoth(Contents(Flatten(batches)), shares[part], Contents(rest), Gather(PartsOf(entries[1..]), shares),
        prepare);
    }
  }

  /** The blocks of a source, request by request. */
  method FetchFrom<U(!new)>(
    manager: ShuffleManager<U>, dset: nat, dest: nat, entries: seq<Entry>, limit: nat, size: Block<U> -> nat)
    returns (blocks: seq<Block<U>>)
    requires Describes(entries, manager.StoreOf(dset), dest, size) && forall block :: size(block) > 0
    ensures blocks == AllBlocks(entries, manager.StoreOf(dset), dest)
  {
    ghost var store := manager.StoreOf(dset);
    ghost var items := Items(entries);
    ItemsServed(entries, store, dest, size);
    ItemsPositive(entries, store, dest, size);
    PositiveSizes(items, limit);
    var requests := BuildRequests(entries, limit);
    blocks := FetchAhead(manager, dset, dest, requests, AllBlocks(entries, store, dest));
    ServesUnique(blocks, AllBlocks(entries, store, dest), items, store, dest);
  }

  /** The answers under way are those to the requests after the first `yielded` ones, in order. */
  ghost predicate Pending<U>(
    pending: seq<seq<Block<U>>>, requests: seq<seq<Item>>, yielded: nat, called: nat, store: Store<U>, dest: nat)
  {
    && yielded <= called <= |requests| && |pending| == called - yielded
    && forall j :: 0 <= j < |pending| ==> Serves(pending[j], requests[yielded + j], store, dest)
  }

  /** Requests are sent one ahead of the answers that are read. */
  method FetchAhead<U>(
    manager: ShuffleManager<U>, dset: nat, dest: nat, requests: seq<seq<Item>>, ghost all: seq<Block<U>>)
    returns (blocks: seq<Block<U>>)
    requires Serves(all, Flatten(requests), manager.StoreOf(dset), dest)
    ensures Serves(blocks, Flatten(requests), manager.StoreOf(dset), dest)
  {
    ghost var store := manager.StoreOf(dset);
    var events := Prefetch(requests);
    var pending: seq<seq<Block<U>>> := [];
    blocks := [];
    var k := 0;
    ghost var y, c := 0, 0;
    assert requests[..0] == [];
    while k < |events|
      invariant 0 <= k <= |events| && y == |Yields(events[..k])| && c == |Calls(events[..k])|
      invariant Pending(pending, requests, y, c, store, dest)
      invariant Serves(blocks, Flatten(requests[..y]), store, dest)
    {
      AheadNext(requests, k);
      if events[k].Called? {
        var got := Answer(manager, dset, dest, events[k].argument, requests, c, all);
        PendingCalled(pending, requests, y, c, got, store, dest);
        pending, c := pending + [got], c + 1;
      } else {
        PendingYielded(blocks, pending, requests, y, c, store, dest);
        blocks, pending, y := blocks + pending[0], pending[1..], y + 1;
      }
      k := k + 1;
    }
    PrefetchOrder(requests);
    assert events[..k] == events && requests[..|requests|] == requests;
  }

  /** A request whose blocks are held is answered. */
  method Answer<U>(
    manager: ShuffleManager<U>, dset: nat, dest: nat, request: seq<Item>, ghost requests: seq<seq<Item>>, ghost c: nat,
    ghost all: seq<Block<U>>)
    returns (got: seq<Block<U>>)
    requires c < |requests| && request == requests[c]
    requires Serves(all, Flatten(requests), manager.StoreOf(dset), dest)
    ensures Serves(got, request, manager.StoreOf(dset), dest)
  {
    RequestServed(requests, c, all, manager.StoreOf(dset), dest);
    var r := GetBlocks(manager, dset, dest, request);
    got := r.value;
  }

  lemma PendingCalled<U>(
    pending: seq<seq<Block<U>>>, requests: seq<seq<Item>>, y: nat, c: nat, got: seq<Block<U>>, store: Store<U>,
    dest: nat)
    requires Pending(pending, requests, y, c, store, dest) && c < |requests| && Serves(got, requests[c], store, dest)
    ensures Pending(pending + [got], requests, y, c + 1, store, dest)
  {
  }

  lemma PendingYielded<U>(
    blocks: seq<Block<U>>, pending: seq<seq<Block<U>>>, requests: seq<seq<Item>>, y: nat, c: nat, store: Store<U>,
    dest: nat)
    requires Pending(pending, requests, y, c, store, dest) && y < c
    requires Serves(blocks, Flatten(requests[..y]), store, dest)
    ensures Pending(pending[1..], requests, y + 1, c, store, dest)
    ensures Serves(blocks + pending[0], Flatten(requests[..y + 1]), store, dest)
  {
    FlattenPrefix(requests, y);
    assert requests[y + 0] == requests[y];
    ServesBoth(blocks, Flatten(requests[..y]), pending[0], requests[y], store, dest);
    forall j | 0 <= j < |pending| - 1 ensures Serves(pending[1..][j], requests[y + 1 + j], store, dest) {
      assert Serves(pending[j + 1], requests[y + (j + 1)], store, dest);
    }
  }

  lemma ServesBoth<U>(a: seq<Block<U>>, x: seq<Item>, b: seq<Block<U>>, y: seq<Item>, store: Store<U>, dest: nat)
    requires Serves(a, x, store, dest) && Serves(b, y, store, dest)
    ensures Serves(a + b, x + y, store, dest)
  {
  }

  lemma RequestServed<U>(requests: seq<seq<Item>>, i: nat, blocks: seq<Block<U>>, store: Store<U>, dest: nat)
    requires i < |requests| && Serves(blocks, Flatten(requests), store, dest)
    ensures forall k :: 0 <= k < |requests[i]| ==> BlockAt(store, dest, requests[i][k].coordinate).Found?
  {
    FlattenSplit(requests, i);
    var before := Flatten(requests[..i]);
    forall k | 0 <= k < |requests[i]| ensures BlockAt(store, dest, requests[i][k].coordinate).Found? {
      assert Flatten(requests)[|before| + k] == requests[i][k];
    }
  }

  lemma {:induction false} ItemsPositive<U(!new)>(
    entries: seq<Entry>, store: Store<U>, dest: nat, size: Block<U> -> nat)
    requires Describes(entries, store, dest, size) && forall block :: size(block) > 0
    ensures forall x :: x in Items(entries) ==> x.size > 0
  {
    if entries != [] {
      ItemsPositive(entries[1..], store, dest, size);
      EntryPositive(entries[0].part, entries[0].sizes, |entries[0].sizes|, store[entries[0].part][dest], size);
    }
  }

  lemma {:induction false} EntryPositive<U(!new)>(
    part: nat, sizes: seq<seq<nat>>, n: nat, batches: seq<Batch<U>>, size: Block<U> -> nat)
    requires sizes == SizesOf(batches, size) && n <= |sizes| && forall block :: size(block) > 0
    ensures forall x :: x in EntryItems(part, sizes, n) ==> x.size > 0
  {
    if n > 0 {
      EntryPositive(part, sizes, n - 1, batches, size);
    }
  }

  // ---- a reading partition -------------------------------------------------------------------

  datatype Outcome<T> = Done(value: T) | DependenciesFailed(parts: set<nat>) | Failed

  ghost predicate AllHold<T(!new), U>(
    managers: seq<ShuffleManager<U>>, dset: nat, shares: seq<seq<T>>, dest: nat, prepare: seq<T> -> seq<U>)
    reads managers
  {
    forall m :: 0 <= m < |managers| ==> HoldsShares(managers[m].StoreOf(dset), shares, dest, prepare)
  }

  ghost predicate AllDescribe<U>(
    managers: seq<ShuffleManager<U>>, dset: nat, dest: nat, size: Block<U> -> nat, sizes: seq<seq<Entry>>)
    reads managers
  {
    |sizes| <= |managers| && forall m :: 0 <= m < |sizes| ==> Describes(sizes[m], managers[m].StoreOf(dset), dest, size)
  }

  /** Some node holds the part. */
  ghost predicate Somewhere<U>(managers: seq<ShuffleManager<U>>, dset: nat, part: nat)
    reads managers
  {
    exists m :: 0 <= m < |managers| && part in managers[m].StoreOf(dset)
  }

  ghost predicate NoneAbsent<U>(managers: seq<ShuffleManager<U>>, dset: nat, count: nat)
    reads managers
  {
    forall i: nat :: i < count ==> Somewhere(managers, dset, i)
  }

  method AskSizes<T(!new), U>(managers: seq<ShuffleManager<U>>, dset: nat, dest: nat, size: Block<U> -> nat,
                              ghost shares: seq<seq<T>>, ghost prepare: seq<T> -> seq<U>)
    returns (sizes: seq<seq<Entry>>)
    requires AllHold(managers, dset, shares, dest, prepare)
    ensures |sizes| == |managers| && AllDescribe(managers, dset, dest, size, sizes)
    ensures forall part: nat :: Held(sizes, part) <==> Somewhere(managers, dset, part)
  {
    sizes := [];
    while |sizes| < |managers|
      invariant |sizes| <= |managers| && AllDescribe(managers, dset, dest, size, sizes)
      invariant forall m :: 0 <= m < |sizes| ==> forall part: nat :: part in managers[m].StoreOf(dset) <==>
        Listed(sizes[m], part)
    {
      assert HoldsShares(managers[|sizes|].StoreOf(dset), shares, dest, prepare);
      var entries := managers[|sizes|].GetSizes(dset, dest, size);
      sizes := sizes + [entries];
    }
    HeldSomewhere(managers, dset, sizes);
  }

  lemma HeldSomewhere<U>(managers: seq<ShuffleManager<U>>, dset: nat, sizes: seq<seq<Entry>>)
    requires |sizes| == |managers|
    requires forall m :: 0 <= m < |sizes| ==> forall part: nat :: part in managers[m].StoreOf(dset) <==>
      Listed(sizes[m], part)
    ensures forall part: nat :: Held(sizes, part) <==> Somewhere(managers, dset, part)
  {
    forall part: nat ensures Held(sizes, part) <==> Somewhere(managers, dset, part) {
      if m :| 0 <= m < |sizes| && Listed(sizes[m], part) {
        assert part in managers[m].StoreOf(dset);
      }
      if m :| 0 <= m < |managers| && part in managers[m].StoreOf(dset) {
        assert Listed(sizes[m], part);
      }
    }
  }

  method FetchAll<T(!new), U(!new)>(
    managers: seq<ShuffleManager<U>>, dset: nat, dest: nat, size: Block<U> -> nat, limit: nat,
    selected: seq<seq<Entry>>, ghost shares: seq<seq<T>>, ghost prepare: seq<T> -> seq<U>)
    returns (blocks: seq<Block<U>>)
    requires AllHold(managers, dset, shares, dest, prepare) && AllDescribe(managers, dset, dest, size, selected)
    requires forall block :: size(block) > 0
    ensures Whole(blocks) && Within(AllParts(selected), |shares|)
    ensures Shuffled(Contents(blocks), Gather(AllParts(selected), shares), prepare)
  {
    blocks := [];
    var s := 0;
    ShuffledNothing(prepare);
    while s < |selected|
      invariant 0 <= s <= |selected| && Whole(blocks) && Within(AllParts(selected[..s]), |shares|)
      invariant Shuffled(Contents(blocks), Gather(AllParts(selected[..s]), shares), prepare)
    {
      var more := FetchFrom(managers[s], dset, dest, selected[s], limit, size);
      AllPartsPrefix(selected, s);
      FetchedMore(
        blocks, AllParts(selected[..s]), managers[s].StoreOf(dset), selected[s], shares, dest, prepare);
      blocks := blocks + more;
      s := s + 1;
    }
    assert selected[..s] == selected;
  }

  lemma FetchedMore<T(!new), U>(blocks: seq<Block<U>>, before: seq<nat>, store: Store<U>, entries: seq<Entry>,
                                shares: seq<seq<T>>, dest: nat, prepare: seq<T> -> seq<U>)
    requires HoldsShares(store, shares, dest, prepare) && forall i :: 0 <= i < |entries| ==> entries[i].part in store
    requires Whole(blocks) && Within(before, |shares|) && Shuffled(Contents(blocks), Gather(before, shares), prepare)
    ensures Within(before + PartsOf(entries), |shares|) && Whole(blocks + AllBlocks(entries, store, dest))
    ensures Shuffled(Contents(blocks + AllBlocks(entries, store, dest)), Gather(before + PartsOf(entries), shares),
      prepare)
  {
    BlocksShuffled(entries, store, shares, dest, prepare);
    var more, parts := AllBlocks(entries, store, dest), PartsOf(entries);
    ShuffledBoth(Contents(blocks), Gather(before, shares), Contents(more), Gather(parts, shares), prepare);
    BothWhole(blocks, before, more, parts, shares);
  }

  lemma BothWhole<T, U>(a: seq<Block<U>>, x: seq<nat>, b: seq<Block<U>>, y: seq<nat>, shares: seq<seq<T>>)
    requires Whole(a) && Within(x, |shares|) && Whole(b) && Within(y, |shares|)
    ensures Within(x + y, |shares|) && Whole(a + b)
    ensures Contents(a + b) == Contents(a) + Contents(b)
      && Gather(x + y, shares) == Gather(x, shares) + Gather(y, shares)
  {
    GatherConcat(x, y, shares);
    ContentsConcat(a, b);
  }

  /** Reading what was fetched in the order of any rearrangement of the source partitions. */
  lemma ReadShuffled<T(!new), U(!new)>(
    fetched: seq<U>, order: seq<nat>, shares: seq<seq<T>>, out: seq<U>, prepare: seq<T> -> seq<U>, sorts: bool,
    key: U -> int)
    requires Permutes(order, |shares|) && Within(order, |shares|)
    requires Shuffled(fetched, Gather(order, shares), prepare) && multiset(out) == multiset(fetched)
    requires sorts ==> out == StableSort(fetched, key)
    ensures Shuffled(out, Flatten(shares), prepare) && (sorts ==> IsSorted(out, key))
  {
    GatherAll(order, shares);
    ShuffledAgain(fetched, Gather(order, shares), out, Flatten(shares), prepare);
    StableSortSorts(fetched, key);
  }

  method ReadSelected<T(!new), U(!new)>(
    managers: seq<ShuffleManager<U>>, dset: nat, dest: nat, size: Block<U> -> nat, limit: nat,
    requested: bool, sorts: bool, key: U -> int, keyed: bool, selected: seq<seq<Entry>>, ghost shares: seq<seq<T>>,
    ghost prepare: seq<T> -> seq<U>)
    returns (out: seq<U>)
    requires AllHold(managers, dset, shares, dest, prepare) && AllDescribe(managers, dset, dest, size, selected)
    requires Permutes(AllParts(selected), |shares|) && forall block :: size(block) > 0
    ensures Shuffled(out, Flatten(shares), prepare) && (sorts ==> IsSorted(out, key))
  {
    var blocks := FetchAll(managers, dset, dest, size, limit, selected, shares, prepare);
    out := Read(blocks, requested, sorts, key, keyed);
    ReadShuffled(Contents(blocks), AllParts(selected), shares, out, prepare, sorts, key);
  }

  /**
   A reading partition, over nodes that hold written source partitions, possibly several times or not
   at all: it reports exactly the partitions that are nowhere, and otherwise shuffles each once.
   */
  method ReadPartition<T(!new), U(!new)>(
    managers: seq<ShuffleManager<U>>, dset: nat, dest: nat, size: Block<U> -> nat, limit: nat,
    requested: bool, sorts: bool, key: U -> int, keyed: bool, count: nat, ghost shares: seq<seq<T>>,
    ghost prepare: seq<T> -> seq<U>)
    returns (r: Outcome<seq<U>>)
    requires count == |shares| && AllHold(managers, dset, shares, dest, prepare) && forall block :: size(block) > 0
    ensures !r.Failed?
    ensures r.DependenciesFailed? ==> r.parts != {} && forall i: nat :: i in r.parts <==>
      i < count && !Somewhere(managers, dset, i)
    ensures r.Done? ==> Shuffled(r.value, Flatten(shares), prepare) && NoneAbsent(managers, dset, count)
    ensures r.Done? && sorts ==> IsSorted(r.value, key)
  {
    var sizes := AskSizes(managers, dset, dest, size, shares, prepare);
    assert forall i: nat :: Somewhere(managers, dset, i) ==> i < count;
    var selection := SelectSources(sizes, count);
    if selection.Unknown? {
      return Failed;
    }
    if selection.Missing? {
      return DependenciesFailed(selection.parts);
    }
    assert NoneAbsent(managers, dset, count);
    assert AllDescribe(managers, dset, dest, size, selection.entries) by {
      ChosenDescribe(managers, dset, dest, size, sizes, selection.entries);
    }
    var out := ReadSelected(
      managers, dset, dest, size, limit, requested, sorts, key, keyed, selection.entries, shares, prepare);
    return Done(out);
  }

  lemma ChosenDescribe<U>(
    managers: seq<ShuffleManager<U>>, dset: nat, dest: nat, size: Block<U> -> nat, sizes: seq<seq<Entry>>,
    selected: seq<seq<Entry>>)
    requires |sizes| == |managers| && AllDescribe(managers, dset, dest, size, sizes) && ChosenFrom(selected, sizes)
    ensures AllDescribe(managers, dset, dest, size, selected)
  {
    forall m, i | 0 <= m < |selected| && 0 <= i < |selected[m]|
      ensures exists j :: 0 <= j < |sizes[m]| && sizes[m][j] == selected[m][i]
    {
      assert selected[m][i] in selected[m];
    }
  }
}

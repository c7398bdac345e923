/**
 Multi-get requests: the blocks of a source are requested in order, in batches limited by size, one
 request ahead of the results.
 */
module Requests {
  import opened Sequences
  import opened Buckets
  import opened Fetch

  datatype Item = Item(coordinate: Coordinate, size: nat)

  function BatchItems(part: nat, batch: nat, sizes: seq<nat>): seq<Item> {
    seq(|sizes|, k requires 0 <= k < |sizes| => Item(Coordinate(part, batch, k), sizes[k]))
  }

  function EntryItems(part: nat, sizes: seq<seq<nat>>, batches: nat): seq<Item>
    requires batches <= |sizes|
  {
    if batches == 0 then []
      else EntryItems(part, sizes, batches - 1) + BatchItems(part, batches - 1, sizes[batches - 1])
  }

  /** The blocks of a source in order, with their coordinates and sizes. */
  function Items(entries: seq<Entry>): seq<Item> {
    if entries == [] then []
      else EntryItems(entries[0].part, entries[0].sizes, |entries[0].sizes|) + Items(entries[1..])
  }

  function Total(items: seq<Item>): nat {
    if items == [] then 0 else Total(items[..|items| - 1]) + items[|items| - 1].size
  }

  // ---- building the requests -----------------------------------------------------------------

  datatype Builder = Builder(requests: seq<seq<Item>>, request: seq<Item>, size: nat)

  const Start := Builder([], [], 0)

  function NewBatch(b: Builder): Builder {
    if b.size != 0 then Builder(b.requests + [b.request], [], 0) else b
  }

  function Append(b: Builder, item: Item, limit: nat): Builder {
    var c := if b.size + item.size > limit then NewBatch(b) else b;
    c.(request := c.request + [item], size := c.size + item.size)
  }

  function Build(items: seq<Item>, limit: nat): Builder {
    if items == [] then Start else Append(Build(items[..|items| - 1], limit), items[|items| - 1], limit)
  }

  function RequestsFor(items: seq<Item>, limit: nat): seq<seq<Item>> {
    NewBatch(Build(items, limit)).requests
  }

  /** The nested loops over source partitions, batches and blocks. */
  method BuildRequests(entries: seq<Entry>, limit: nat) returns (requests: seq<seq<Item>>)
    ensures requests == RequestsFor(Items(entries), limit)
  {
    var b := Start;
    ghost var done: seq<Item> := [];
    var e := 0;
    assert entries[..0] == [];
    while e < |entries|
      invariant 0 <= e <= |entries| && done == Items(entries[..e]) && b == Build(done, limit)
    {
      ghost var before := done;
      b, done := BuildEntry(entries[e], limit, b, done);
      ItemsNext(entries, e);
      e := e + 1;
    }
    assert entries[..e] == entries;
    requests := NewBatch(b).requests;
  }

  method BuildEntry(
    entry: Entry, limit: nat, b: Builder, ghost done: seq<Item>) returns (c: Builder, ghost after: seq<Item>)
    requires b == Build(done, limit)
    ensures after == done + EntryItems(entry.part, entry.sizes, |entry.sizes|) && c == Build(after, limit)
  {
    c, after := b, done;
    var batch := 0;
    while batch < |entry.sizes|
      invariant 0 <= batch <= |entry.sizes|
      invariant after == done + EntryItems(entry.part, entry.sizes, batch) && c == Build(after, limit)
    {
      c, after := BuildBatch(entry.part, batch, entry.sizes[batch], limit, c, after);
      batch := batch + 1;
    }
  }

  method BuildBatch(part: nat, batch: nat, sizes: seq<nat>, limit: nat, b: Builder, ghost done: seq<Item>)
    returns (c: Builder, ghost after: seq<Item>)
    requires b == Build(done, limit)
    ensures after == done + BatchItems(part, batch, sizes) && c == Build(after, limit)
  {
    c, after := b, done;
    var k := 0;
    ghost var items := BatchItems(part, batch, sizes);
    while k < |sizes|
      invariant 0 <= k <= |sizes| && after == done + items[..k] && c == Build(after, limit)
    {
      var item := Item(Coordinate(part, batch, k), sizes[k]);
      assert items[..k + 1] == items[..k] + [item];
      assert (after + [item])[..|after|] == after;
      c := Append(c, item, limit);
      after := after + [item];
      k := k + 1;
    }
    assert items[..k] == items;
  }

  lemma {:induction false} ItemsConcat(xs: seq<Entry>, ys: seq<Entry>)
    ensures Items(xs + ys) == Items(xs) + Items(ys)
  {
    if xs == [] {
      assert xs + ys == ys;
    } else {
      assert (xs + ys)[1..] == xs[1..] + ys;
      ItemsConcat(xs[1..], ys);
    }
  }

  lemma ItemsNext(entries: seq<Entry>, e: nat)
    requires e < |entries|
    ensures Items(entries[..e + 1]) == Items(entries[..e])
      + EntryItems(entries[e].part, entries[e].sizes, |entries[e].sizes|)
  {
    assert entries[..e + 1] == entries[..e] + [entries[e]];
    ItemsConcat(entries[..e], [entries[e]]);
    assert Items([entries[e]]) == EntryItems(entries[e].part, entries[e].sizes, |entries[e].sizes|) + Items([]);
  }

  // ---- what the requests cover ---------------------------------------------------------------

  function LastPositive(items: seq<Item>): nat {
    if items == [] then 0
    else if items[|items| - 1].size > 0 then items[|items| - 1].size
    else LastPositive(items[..|items| - 1])
  }

  /** The size of the open request, told from the sizes alone. */
  lemma {:induction false} OpenRequest(items: seq<Item>, limit: nat)
    ensures var b := Build(items, limit);
      && b.size == Total(b.request)
      && (b.size > limit <==> items != [] && items[|items| - 1].size > limit)
      && (b.size == 0 <==> LastPositive(items) == 0 || (items[|items| - 1].size == 0 && LastPositive(items) > limit))
      && (b.request == [] <==> items == [])
      && (LastPositive(items) > 0 ==> items != [])
  {
    if items != [] {
      var before, last := items[..|items| - 1], items[|items| - 1];
      OpenRequest(before, limit);
      var b := Build(before, limit);
      assert (b.request + [last])[..|b.request|] == b.request;
      assert ([] + [last])[..0] == [];
      assert Total([last]) == Total([]) + last.size;
    }
  }

  lemma {:induction false} BuildKeeps(items: seq<Item>, limit: nat)
    ensures Flatten(Build(items, limit).requests) + Build(items, limit).request == items
  {
    if items != [] {
      var before, last := items[..|items| - 1], items[|items| - 1];
      BuildKeeps(before, limit);
      AppendKeeps(Build(before, limit), last, limit);
      assert Build(items, limit) == Append(Build(before, limit), last, limit);
      assert items == before + [last];
    }
  }

  lemma AppendKeeps(b: Builder, item: Item, limit: nat)
    ensures var c := Append(b, item, limit);
      Flatten(c.requests) + c.request == Flatten(b.requests) + b.request + [item]
  {
    FlattenAppend(b.requests, b.request);
  }

  /**
   The requests concatenate to all the blocks of the source, in order, unless the last ones are empty
   and follow either nothing else or a block above the limit: then those are not requested.
   */
  lemma RequestsCover(items: seq<Item>, limit: nat)
    ensures Flatten(RequestsFor(items, limit)) == items <==>
      (items == [] || items[|items| - 1].size > 0 || 0 < LastPositive(items) <= limit)
    ensures Flatten(RequestsFor(items, limit)) <= items
  {
    var b := Build(items, limit);
    BuildKeeps(items, limit);
    OpenRequest(items, limit);
    FlattenAppend(b.requests, b.request);
    if b.size == 0 && b.request != [] {
      assert |Flatten(b.requests)| < |items|;
    }
  }

  /** A single empty block is never requested. */
  lemma EmptyBlockLost(limit: nat)
    ensures RequestsFor([Item(Coordinate(0, 0, 0), 0)], limit) == []
  {
    var items := [Item(Coordinate(0, 0, 0), 0)];
    assert items[..0] == [];
    assert Build(items, limit) == Append(Start, items[0], limit);
  }

  /** A request within the limit, or one that exceeds it by its last block alone. */
  predicate Fits(request: seq<Item>, limit: nat) {
    request != [] && (Total(request) <= limit || Total(request) == request[|request| - 1].size)
  }

  lemma {:induction false} BuildFits(items: seq<Item>, limit: nat)
    ensures var b := Build(items, limit);
      (forall i :: 0 <= i < |b.requests| ==> Fits(b.requests[i], limit)) && (b.request != [] ==> Fits(b.request, limit))
  {
    if items != [] {
      var before, last := items[..|items| - 1], items[|items| - 1];
      BuildFits(before, limit);
      OpenRequest(before, limit);
      var b := Build(before, limit);
      assert (b.request + [last])[..|b.request|] == b.request;
      assert ([] + [last])[..0] == [];
      assert Total([last]) == Total([]) + last.size;
      assert b.size > 0 ==> b.request != [];
    }
  }

  lemma RequestsFit(items: seq<Item>, limit: nat)
    ensures forall i :: 0 <= i < |RequestsFor(items, limit)| ==> Fits(RequestsFor(items, limit)[i], limit)
  {
    BuildFits(items, limit);
    OpenRequest(items, limit);
  }

  /** A request had no space for the first block of the next one. */
  ghost predicate NoSpace(request: seq<Item>, next: seq<Item>, limit: nat) {
    next != [] && Total(request) + next[0].size > limit
  }

  ghost predicate Greedy(requests: seq<seq<Item>>, limit: nat) {
    forall i :: 0 <= i < |requests| - 1 ==> NoSpace(requests[i], requests[i + 1], limit)
  }

  function Opened(b: Builder): seq<seq<Item>> { if b.request == [] then b.requests else b.requests + [b.request] }

  lemma {:induction false} BuildGreedy(items: seq<Item>, limit: nat)
    ensures var b := Build(items, limit); Greedy(Opened(b), limit) && (b.requests != [] ==> b.request != [])
  {
    if items != [] {
      var before, last := items[..|items| - 1], items[|items| - 1];
      BuildGreedy(before, limit);
      OpenRequest(before, limit);
      AppendGreedy(Build(before, limit), last, limit);
    }
  }

  lemma AppendGreedy(b: Builder, item: Item, limit: nat)
    requires Greedy(Opened(b), limit) && b.size == Total(b.request) && (b.requests != [] ==> b.request != [])
    ensures var c := Append(b, item, limit); Greedy(Opened(c), limit) && c.request != []
  {
    var all, was := Opened(Append(b, item, limit)), Opened(b);
    forall i | 0 <= i < |all| - 1 ensures NoSpace(all[i], all[i + 1], limit) {
      if i < |was| - 1 {
        assert NoSpace(was[i], was[i + 1], limit);
      }
    }
  }

  /** A request is closed only when the next block would exceed the limit. */
  lemma RequestsGreedy(items: seq<Item>, limit: nat)
    ensures Greedy(RequestsFor(items, limit), limit)
  {
    var b := Build(items, limit);
    BuildGreedy(items, limit);
    OpenRequest(items, limit);
    ClosedPrefix(b);
    GreedyPrefix(Opened(b), limit, |RequestsFor(items, limit)|);
  }

  lemma ClosedPrefix(b: Builder)
    requires b.size == Total(b.request)
    ensures NewBatch(b).requests <= Opened(b)
  {
  }

  lemma GreedyPrefix(requests: seq<seq<Item>>, limit: nat, n: nat)
    requires Greedy(requests, limit) && n <= |requests|
    ensures Greedy(requests[..n], limit)
  {
    forall i | 0 <= i < n - 1 ensures NoSpace(requests[..n][i], requests[..n][i + 1], limit) {
      assert NoSpace(requests[i], requests[i + 1], limit);
    }
  }

  lemma {:induction false} TotalBounds(request: seq<Item>)
    requires forall x :: x in request ==> x.size > 0
    ensures Total(request) >= |request|
    ensures request != [] && Total(request) == request[|request| - 1].size ==> |request| == 1
  {
    if request != [] {
      assert request[|request| - 1] in request;
      TotalBounds(request[..|request| - 1]);
    }
  }

  /** With positive sizes everything is requested, and a request above the limit is a single block. */
  lemma PositiveSizes(items: seq<Item>, limit: nat)
    requires forall x :: x in items ==> x.size > 0
    ensures Flatten(RequestsFor(items, limit)) == items
    ensures forall i :: 0 <= i < |RequestsFor(items, limit)| ==>
      Total(RequestsFor(items, limit)[i]) <= limit || |RequestsFor(items, limit)[i]| == 1
  {
    RequestsCover(items, limit);
    RequestsFit(items, limit);
    var requests := RequestsFor(items, limit);
    if items != [] {
      assert items[|items| - 1] in items;
    }
    forall i | 0 <= i < |requests| ensures Total(requests[i]) <= limit || |requests[i]| == 1 {
      forall x: Item | x in requests[i] ensures x.size > 0 {
        InFlatten(requests, x);
        assert x in items;
      }
      TotalBounds(requests[i]);
    }
  }

  // ---- serving the requests ------------------------------------------------------------------

  ghost predicate Serves<T>(blocks: seq<Block<T>>, items: seq<Item>, store: Store<T>, dest: nat) {
    |blocks| == |items| && forall i :: 0 <= i < |items| ==>
      BlockAt(store, dest, items[i].coordinate) == Found(blocks[i])
  }

  /** All the blocks for a destination of the parts of the entries, in order. */
  function AllBlocks<T>(entries: seq<Entry>, store: Store<T>, dest: nat): seq<Block<T>>
    requires forall i :: 0 <= i < |entries| ==> entries[i].part in store && dest < |store[entries[i].part]|
  {
    if entries == [] then [] else Flatten(store[entries[0].part][dest]) + AllBlocks(entries[1..], store, dest)
  }

  lemma {:induction false} EntryServed<T>(
    part: nat, sizes: seq<seq<nat>>, batches: nat, store: Store<T>, dest: nat, size: Block<T> -> nat)
    requires part in store && dest < |store[part]| && sizes == SizesOf(store[part][dest], size) && batches <= |sizes|
    ensures Serves(Flatten(store[part][dest][..batches]), EntryItems(part, sizes, batches), store, dest)
  {
    if batches > 0 {
      EntryServed(part, sizes, batches - 1, store, dest, size);
      var all := store[part][dest];
      assert all[..batches] == all[..batches - 1] + [all[batches - 1]];
      FlattenAppend(all[..batches - 1], all[batches - 1]);
    }
  }

  /** The size of an item is that of the block at its coordinate. */
  ghost predicate RightSizes<T>(items: seq<Item>, store: Store<T>, dest: nat, size: Block<T> -> nat) {
    forall x :: x in items ==>
      BlockAt(store, dest, x.coordinate).Found? && x.size == size(BlockAt(store, dest, x.coordinate).value)
  }

  lemma {:induction false} EntryRightSizes<T>(
    part: nat, sizes: seq<seq<nat>>, batches: nat, store: Store<T>, dest: nat, size: Block<T> -> nat)
    requires part in store && dest < |store[part]| && sizes == SizesOf(store[part][dest], size) && batches <= |sizes|
    ensures RightSizes(EntryItems(part, sizes, batches), store, dest, size)
  {
    if batches > 0 {
      EntryRightSizes(part, sizes, batches - 1, store, dest, size);
    }
  }

  /** Requests are made with the sizes of the blocks that they will get. */
  lemma {:induction false} ItemsRightSizes<T>(entries: seq<Entry>, store: Store<T>, dest: nat, size: Block<T> -> nat)
    requires Describes(entries, store, dest, size)
    ensures RightSizes(Items(entries), store, dest, size)
  {
    if entries != [] {
      EntryRightSizes(entries[0].part, entries[0].sizes, |entries[0].sizes|, store, dest, size);
      ItemsRightSizes(entries[1..], store, dest, size);
    }
  }

  /** The blocks at the coordinates of the items are all the blocks of the parts, in order. */
  lemma {:induction false} ItemsServed<T>(entries: seq<Entry>, store: Store<T>, dest: nat, size: Block<T> -> nat)
    requires Describes(entries, store, dest, size)
    ensures Serves(AllBlocks(entries, store, dest), Items(entries), store, dest)
  {
    if entries != [] {
      var part := entries[0].part;
      EntryServed(part, entries[0].sizes, |entries[0].sizes|, store, dest, size);
      assert store[part][dest][..|entries[0].sizes|] == store[part][dest];
      ItemsServed(entries[1..], store, dest, size);
    }
  }

  /** The blocks at the coordinates of a request; nothing if one of them is not there. */
  method GetBlocks<T>(
    manager: ShuffleManager<T>, dset: nat, dest: nat, request: seq<Item>) returns (r: Lookup<seq<Block<T>>>)
    ensures r.Found? ==> Serves(r.value, request, manager.StoreOf(dset), dest)
    ensures r.KeyError? ==>
      exists i :: 0 <= i < |request| && BlockAt(manager.StoreOf(dset), dest, request[i].coordinate).KeyError?
  {
    var blocks: seq<Block<T>> := [];
    while |blocks| < |request|
      invariant |blocks| <= |request| && Serves(blocks, request[..|blocks|], manager.StoreOf(dset), dest)
    {
      var block := manager.GetBlock(dset, dest, request[|blocks|].coordinate);
      if block.KeyError? {
        return KeyError;
      }
      blocks := blocks + [block.value];
    }
    assert request[..|blocks|] == request;
    return Found(blocks);
  }

  lemma ServesUnique<T>(xs: seq<Block<T>>, ys: seq<Block<T>>, items: seq<Item>, store: Store<T>, dest: nat)
    requires Serves(xs, items, store, dest) && Serves(ys, items, store, dest)
    ensures xs == ys
  {
  }

  // ---- one request ahead ---------------------------------------------------------------------

  datatype Event<A> = Called(argument: A) | Yielded(argument: A)

  /** What `prefetch` does with its arguments, and when: the next call comes before each result but the last. */
  method Prefetch<A>(arguments: seq<A>) returns (events: seq<Event<A>>)
    ensures events == Ahead(arguments)
  {
    events := [];
    if arguments == [] {
      return;
    }
    var pending := arguments[0];
    events := [Called(pending)];
    var i := 1;
    while i < |arguments|
      invariant 1 <= i <= |arguments| && pending == arguments[i - 1]
      invariant events + AheadOf(pending, arguments[i..]) == Ahead(arguments)
    {
      assert arguments[i..][0] == arguments[i] && arguments[i..][1..] == arguments[i + 1..];
      events := events + [Called(arguments[i]), Yielded(pending)];
      pending := arguments[i];
      i := i + 1;
    }
    events := events + [Yielded(pending)];
  }

  function Ahead<A>(arguments: seq<A>): seq<Event<A>> {
    if arguments == [] then [] else [Called(arguments[0])] + AheadOf(arguments[0], arguments[1..])
  }

  function AheadOf<A>(pending: A, rest: seq<A>): seq<Event<A>> {
    if rest == [] then [Yielded(pending)]
    else [Called(rest[0]), Yielded(pending)] + AheadOf(rest[0], rest[1..])
  }

  function YieldOf<A>(e: Event<A>): seq<A> { if e.Yielded? then [e.argument] else [] }

  function CallOf<A>(e: Event<A>): seq<A> { if e.Called? then [e.argument] else [] }

  function Yields<A>(events: seq<Event<A>>): seq<A> {
    if events == [] then [] else YieldOf(events[0]) + Yields(events[1..])
  }

  function Calls<A>(events: seq<Event<A>>): seq<A> {
    if events == [] then [] else CallOf(events[0]) + Calls(events[1..])
  }

  /** The results come in the order of the arguments, which are called once each. */
  lemma {:induction false} PrefetchOrder<A>(arguments: seq<A>)
    ensures Yields(Ahead(arguments)) == arguments && Calls(Ahead(arguments)) == arguments
  {
    if arguments != [] {
      AheadOrder(arguments[0], arguments[1..]);
      assert Ahead(arguments)[1..] == AheadOf(arguments[0], arguments[1..]);
    }
  }

  lemma {:induction false} AheadOrder<A>(pending: A, rest: seq<A>)
    ensures Yields(AheadOf(pending, rest)) == [pending] + rest && Calls(AheadOf(pending, rest)) == rest
  {
    if rest != [] {
      AheadOrder(rest[0], rest[1..]);
      var tail := AheadOf(rest[0], rest[1..]);
      assert AheadOf(pending, rest)[1..] == [Yielded(pending)] + tail;
      assert ([Yielded(pending)] + tail)[1..] == tail;
    }
  }

  /** At any moment at most two calls are outstanding, and one more call than result until the last. */
  lemma {:induction false} PrefetchDistance<A>(pending: A, rest: seq<A>, n: nat)
    requires n <= |AheadOf(pending, rest)|
    ensures 0 <= 1 + |Calls(AheadOf(pending, rest)[..n])| - |Yields(AheadOf(pending, rest)[..n])| <= 2
    ensures n < |AheadOf(pending, rest)| ==>
      1 + |Calls(AheadOf(pending, rest)[..n])| > |Yields(AheadOf(pending, rest)[..n])|
  {
    var events := AheadOf(pending, rest);
    if rest == [] {
      assert n == 1 ==> events[..n] == events && events[1..] == [];
    } else if n >= 2 {
      var tail := AheadOf(rest[0], rest[1..]);
      assert events[..n] == [Called(rest[0]), Yielded(pending)] + tail[..n - 2];
      assert events[..n][1..] == [Yielded(pending)] + tail[..n - 2];
      assert events[..n][1..][1..] == tail[..n - 2];
      PrefetchDistance(rest[0], rest[1..], n - 2);
    } else if n == 1 {
      assert events[..n] == [Called(rest[0])] && events[..n][1..] == [];
    }
  }

  lemma {:induction false} YieldsConcat<A>(a: seq<Event<A>>, b: seq<Event<A>>)
    ensures Yields(a + b) == Yields(a) + Yields(b)
  {
    if a == [] {
      assert a + b == b;
    } else {
      assert (a + b)[1..] == a[1..] + b;
      YieldsConcat(a[1..], b);
    }
  }

  lemma {:induction false} CallsConcat<A>(a: seq<Event<A>>, b: seq<Event<A>>)
    ensures Calls(a + b) == Calls(a) + Calls(b)
  {
    if a == [] {
      assert a + b == b;
    } else {
      assert (a + b)[1..] == a[1..] + b;
      CallsConcat(a[1..], b);
    }
  }

  lemma YieldsNext<A>(events: seq<Event<A>>, k: nat)
    requires k < |events|
    ensures Yields(events[..k + 1]) == Yields(events[..k]) + YieldOf(events[k])
  {
    assert events[..k + 1] == events[..k] + [events[k]];
    YieldsConcat(events[..k], [events[k]]);
    assert Yields([events[k]]) == YieldOf(events[k]) + Yields([]);
  }

  lemma CallsNext<A>(events: seq<Event<A>>, k: nat)
    requires k < |events|
    ensures Calls(events[..k + 1]) == Calls(events[..k]) + CallOf(events[k])
  {
    assert events[..k + 1] == events[..k] + [events[k]];
    CallsConcat(events[..k], [events[k]]);
    assert Calls([events[k]]) == CallOf(events[k]) + Calls([]);
  }

  lemma EventsPrefix<A>(events: seq<Event<A>>, k: nat)
    requires k <= |events|
    ensures Yields(events[..k]) <= Yields(events) && Calls(events[..k]) <= Calls(events)
  {
    var front, rest := events[..k], events[k..];
    assert events == front + rest;
    YieldsConcat(front, rest);
    CallsConcat(front, rest);
  }

  /** Calls and results follow the arguments; a result comes only when its call was made. */
  lemma AheadNext<A>(arguments: seq<A>, k: nat)
    requires k < |Ahead(arguments)|
    ensures var events := Ahead(arguments);
      var y, c := |Yields(events[..k])|, |Calls(events[..k])|;
      if events[k].Called? then
        && c < |arguments| && events[k].argument == arguments[c]
        && |Calls(events[..k + 1])| == c + 1 && |Yields(events[..k + 1])| == y
      else
        && y < c && y < |arguments| && events[k].argument == arguments[y]
        && |Calls(events[..k + 1])| == c && |Yields(events[..k + 1])| == y + 1
  {
    var events := Ahead(arguments);
    PrefetchOrder(arguments);
    YieldsNext(events, k);
    CallsNext(events, k);
    EventsPrefix(events, k + 1);
    if events[k].Yielded? {
      AheadCalled(arguments, k);
      assert Yields(events[..k + 1])[|Yields(events[..k])|] == events[k].argument;
    } else {
      assert Calls(events[..k + 1])[|Calls(events[..k])|] == events[k].argument;
    }
  }

  lemma AheadCalled<A>(arguments: seq<A>, k: nat)
    requires 0 < k < |Ahead(arguments)|
    ensures |Yields(Ahead(arguments)[..k])| < |Calls(Ahead(arguments)[..k])|
  {
    var events := Ahead(arguments);
    var tail := AheadOf(arguments[0], arguments[1..]);
    PrefetchDistance(arguments[0], arguments[1..], k - 1);
    assert events[..k] == [Called(arguments[0])] + tail[..k - 1];
    assert events[..k][1..] == tail[..k - 1];
  }
}

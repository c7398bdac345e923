/**
 The download of a block by one node: chunks are fetched from peers that advertise them or from the
 source, written to the block, and then advertised.
 */
module Download {
  import opened Sequences
  import opened Intervals

  /** What a peer answers to a request for a chunk at some moment; a failed request has no answer. */
  type Network = (nat, Chunk, nat) -> Option<seq<Byte>>

  /** What the nodes report to have, at any moment. */
  type Reports = (nat, nat) -> seq<Chunk>

  /** The answer is none, of the wrong size, or the range of the block asked for. */
  ghost predicate Right(net: Network, peer: nat, c: Chunk, time: nat, content: seq<Byte>) {
    0 <= c.start <= c.end <= |content| && net(peer, c, time).Some?
      && |net(peer, c, time).value| == c.end - c.start ==>
      net(peer, c, time).value == content[c.start..c.end]
  }

  /** The source answers rightly, and a peer does for chunks it reported before. */
  ghost predicate Honest(net: Network, source: nat, available: Reports, content: seq<Byte>) {
    && (forall c, time: nat :: Right(net, source, c, time, content))
    && forall peer: nat, c, asked: nat, time: nat ::
         asked <= time && Contains(available(peer, asked), c) ==> Right(net, peer, c, time, content)
  }

  /** The chunks of a block, from an offset. */
  function Tiles(start: nat, size: nat, step: nat): seq<Chunk>
    requires step > 0
    decreases size - start
  {
    if start >= size then [] else [Chunk(start, Smaller(size, start + step))] + Tiles(start + step, size, step)
  }

  /** Non-empty chunks within the block, in order and not overlapping. */
  ghost predicate Ordered(todo: seq<Chunk>, size: nat) {
    && (forall i :: 0 <= i < |todo| ==> 0 <= todo[i].start < todo[i].end <= size)
    && forall i, j :: 0 <= i < j < |todo| ==> todo[i].end <= todo[j].start
  }

  ghost predicate Separate(done: seq<Chunk>, todo: seq<Chunk>) {
    forall i :: 0 <= i < |todo| ==> Apart(done, todo[i])
  }

  /** Each byte of the block is done or to do. */
  ghost predicate Complete(done: seq<Chunk>, todo: seq<Chunk>, size: nat) {
    forall x :: 0 <= x < size <==> Covered(done, x) || Covered(todo, x)
  }

  lemma {:induction false} TilesCover(start: nat, size: nat, step: nat, x: int)
    requires step > 0
    ensures Covered(Tiles(start, size, step), x) <==> start <= x < size
    decreases size - start
  {
    if start < size {
      TilesCover(start + step, size, step, x);
      var head := Chunk(start, Smaller(size, start + step));
      CoveredConcat([head], Tiles(start + step, size, step), x);
      CoveredOne(head, x);
    }
  }

  /** All chunks but the last are of the size given. */
  ghost predicate Even(todo: seq<Chunk>, step: nat) {
    forall i :: 0 <= i < |todo| - 1 ==> todo[i].end - todo[i].start == step
  }

  lemma {:induction false} TilesOrdered(start: nat, size: nat, step: nat)
    requires step > 0
    ensures Ordered(Tiles(start, size, step), size)
    ensures forall i :: 0 <= i < |Tiles(start, size, step)| ==> start <= Tiles(start, size, step)[i].start
    ensures Even(Tiles(start, size, step), step)
    decreases size - start
  {
    if start < size {
      TilesOrdered(start + step, size, step);
    }
  }

  // ---- removing a chunk ----------------------------------------------------------------------

  function Without(todo: seq<Chunk>, k: nat): seq<Chunk>
    requires k < |todo|
  {
    todo[..k] + todo[k + 1..]
  }

  lemma WithoutCovers(todo: seq<Chunk>, k: nat, size: nat, x: int)
    requires Ordered(todo, size) && k < |todo|
    ensures Covered(Without(todo, k), x) <==> Covered(todo, x) && !Within(todo[k], x)
  {
    CoveredThree(todo[..k], todo[k], todo[k + 1..], x);
    assert todo == todo[..k] + [todo[k]] + todo[k + 1..];
    CoveredConcat(todo[..k], todo[k + 1..], x);
    var front, back := todo[..k], todo[k + 1..];
    if i :| 0 <= i < |front| && Within(front[i], x) {
      assert todo[i].end <= todo[k].start;
    }
    if i :| 0 <= i < |back| && Within(back[i], x) {
      assert todo[k].end <= todo[k + 1 + i].start;
    }
  }

  lemma WithoutOrdered(todo: seq<Chunk>, k: nat, size: nat)
    requires Ordered(todo, size) && k < |todo|
    ensures Ordered(Without(todo, k), size)
  {
    var r := Without(todo, k);
    assert forall i :: 0 <= i < |r| ==> r[i] == todo[if i < k then i else i + 1];
  }

  lemma ApartByBytes(done: seq<Chunk>, c: Chunk)
    requires Canonical(done) && c.start < c.end && forall x :: Within(c, x) ==> !Covered(done, x)
    ensures Apart(done, c)
  {
    forall i | 0 <= i < |done| ensures c.end <= done[i].start || done[i].end <= c.start {
      var x := if c.start <= done[i].start then done[i].start else c.start;
      assert Within(done[i], x) ==> Covered(done, x);
      assert !(Within(done[i], x) && Within(c, x));
    }
  }

  lemma BytesApart(done: seq<Chunk>, c: Chunk, x: int)
    requires Apart(done, c) && Within(c, x)
    ensures !Covered(done, x)
  {
  }

  /** A chunk moves from to do to done. */
  lemma MovedChunk(done: seq<Chunk>, todo: seq<Chunk>, size: nat, k: nat)
    requires Canonical(done) && Ordered(todo, size) && Separate(done, todo) && Complete(done, todo, size) && k < |todo|
    ensures Canonical(MarkDone(done, todo[k])) && Ordered(Without(todo, k), size)
    ensures Separate(MarkDone(done, todo[k]), Without(todo, k))
      && Complete(MarkDone(done, todo[k]), Without(todo, k), size)
  {
    MarkDoneCanonical(done, todo[k]);
    WithoutOrdered(todo, k, size);
    MovedComplete(done, todo, size, k);
    MovedApart(done, todo, size, k);
  }

  lemma MovedComplete(done: seq<Chunk>, todo: seq<Chunk>, size: nat, k: nat)
    requires Canonical(done) && Ordered(todo, size) && Separate(done, todo) && Complete(done, todo, size) && k < |todo|
    ensures Complete(MarkDone(done, todo[k]), Without(todo, k), size)
  {
    forall x ensures 0 <= x < size <==> Covered(MarkDone(done, todo[k]), x) || Covered(Without(todo, k), x) {
      MarkDoneCovers(done, todo[k], x);
      WithoutCovers(todo, k, size, x);
      assert Within(todo[k], x) ==> Covered(todo, x);
    }
  }

  lemma MovedApart(done: seq<Chunk>, todo: seq<Chunk>, size: nat, k: nat)
    requires Canonical(done) && Ordered(todo, size) && Separate(done, todo) && k < |todo|
    ensures Separate(MarkDone(done, todo[k]), Without(todo, k))
  {
    var after, rest := MarkDone(done, todo[k]), Without(todo, k);
    MarkDoneCanonical(done, todo[k]);
    forall i | 0 <= i < |rest| ensures Apart(after, rest[i]) {
      var d := todo[if i < k then i else i + 1];
      assert rest[i] == d;
      forall x | Within(d, x) ensures !Covered(after, x) {
        MarkDoneCovers(done, todo[k], x);
        BytesApart(done, d, x);
      }
      ApartByBytes(after, d);
    }
  }

  /** The bytes that are done are those of the content. */
  ghost predicate Matches(done: seq<Chunk>, bytes: seq<Byte>, content: seq<Byte>) {
    |content| == |bytes| && forall x :: 0 <= x < |bytes| && Covered(done, x) ==> bytes[x] == content[x]
  }

  lemma WriteMatches(
    done: seq<Chunk>, c: Chunk, before: seq<Byte>, data: seq<Byte>, after: seq<Byte>, content: seq<Byte>)
    requires Canonical(done) && Apart(done, c) && 0 <= c.start < c.end <= |before| == |after|
      && |data| == c.end - c.start
    requires Matches(done, before, content) && data == content[c.start..c.end]
    requires forall x :: 0 <= x < |after| ==> after[x] == if Within(c, x) then data[x - c.start] else before[x]
    ensures Matches(MarkDone(done, c), after, content)
  {
    forall x | 0 <= x < |after| && Covered(MarkDone(done, c), x) ensures after[x] == content[x] {
      MarkDoneCovers(done, c, x);
    }
  }

  datatype Offer = Offer(peer: nat, chunks: seq<Chunk>)

  function Offered(offers: seq<Offer>): nat {
    if offers == [] then 0 else |offers[0].chunks| + Offered(offers[1..])
  }

  lemma {:induction false} OfferedConcat(a: seq<Offer>, b: seq<Offer>)
    ensures Offered(a + b) == Offered(a) + Offered(b)
  {
    if a == [] {
      assert a + b == b;
    } else {
      assert (a + b)[1..] == a[1..] + b;
      OfferedConcat(a[1..], b);
    }
  }

  lemma OfferedWithout(offers: seq<Offer>, k: nat)
    requires k < |offers|
    ensures Offered(offers[..k] + offers[k + 1..]) == Offered(offers) - |offers[k].chunks|
  {
    OfferedConcat(offers[..k], offers[k + 1..]);
    assert offers == offers[..k] + offers[k..] && offers[k..][1..] == offers[k + 1..];
    OfferedConcat(offers[..k], offers[k..]);
  }

  lemma OfferedMore(offers: seq<Offer>, offer: Offer)
    ensures Offered(offers + [offer]) == Offered(offers) + |offer.chunks|
  {
    OfferedConcat(offers, [offer]);
    assert Offered([offer]) == |offer.chunks| + Offered([]);
  }

  ghost predicate NonEmpty(offers: seq<Offer>) { forall i :: 0 <= i < |offers| ==> offers[i].chunks != [] }

  /** The chunks offered are exactly those to do that the peer reports to have. */
  ghost predicate Advertised(offers: seq<Offer>, available: Reports, time: nat, todo: seq<Chunk>) {
    forall i, c :: 0 <= i < |offers| ==>
      (c in offers[i].chunks <==> c in todo && Contains(available(offers[i].peer, time), c))
  }

  /** Each chunk offered was reported by the peer. */
  ghost predicate Reported(offers: seq<Offer>, available: Reports, time: nat) {
    forall i, c :: 0 <= i < |offers| && c in offers[i].chunks ==> Contains(available(offers[i].peer, time), c)
  }

  lemma AdvertisedReported(offers: seq<Offer>, available: Reports, time: nat, todo: seq<Chunk>)
    requires Advertised(offers, available, time, todo)
    ensures Reported(offers, available, time)
  {
    forall i, c | 0 <= i < |offers| && c in offers[i].chunks ensures Contains(available(offers[i].peer, time), c) {
      assert c in offers[i].chunks <==> c in todo && Contains(available(offers[i].peer, time), c);
    }
  }

  /** The request has no answer, or one of the wrong size. */
  predicate Fails(net: Network, peer: nat, c: Chunk, time: nat) {
    net(peer, c, time).None? || |net(peer, c, time).value| != c.end - c.start
  }

  ghost predicate Failed(net: Network, peer: nat, c: Chunk, from: nat, to: nat) {
    exists time: nat :: from <= time < to && Fails(net, peer, c, time)
  }

  /** What was offered is still to be tried, or failed. */
  ghost predicate Pending(
    net: Network, offered: seq<Offer>, offers: seq<Offer>, todo: seq<Chunk>, clock: nat, time: nat)
  {
    forall peer, c :: c in todo && Offers(offered, peer, c) ==>
      Offers(offers, peer, c) || Failed(net, peer, c, clock, time)
  }

  lemma StillPending(
    net: Network, offered: seq<Offer>, offers: seq<Offer>, rest: seq<Offer>, todo: seq<Chunk>, clock: nat, was: nat,
    time: nat, at: nat, which: nat)
    requires clock <= was <= time && at < |offers| && which < |offers[at].chunks|
    requires Pending(net, offered, offers, todo, clock, was)
    requires var chunks := offers[at].chunks[..which] + offers[at].chunks[which + 1..];
      rest == offers[..at] + offers[at + 1..] + if chunks == [] then [] else [Offer(offers[at].peer, chunks)]
    requires var c := offers[at].chunks[which];
      c in todo ==> was < time && Fails(net, offers[at].peer, c, was)
    ensures Pending(net, offered, rest, todo, clock, time)
  {
    forall peer, c | c in todo && Offers(offered, peer, c)
      ensures Offers(rest, peer, c) || Failed(net, peer, c, clock, time)
    {
      if Failed(net, peer, c, clock, was) {
        var t: nat :| clock <= t < was && Fails(net, peer, c, t);
      } else {
        var i :| 0 <= i < |offers| && offers[i].peer == peer && c in offers[i].chunks;
        StillOffered(offers, rest, at, which, i, c);
      }
    }
  }

  /** Only the chunk that was tried is offered no more. */
  lemma StillOffered(offers: seq<Offer>, rest: seq<Offer>, at: nat, which: nat, i: nat, c: Chunk)
    requires at < |offers| && which < |offers[at].chunks| && i < |offers| && c in offers[i].chunks
    requires var chunks := offers[at].chunks[..which] + offers[at].chunks[which + 1..];
      rest == offers[..at] + offers[at + 1..] + if chunks == [] then [] else [Offer(offers[at].peer, chunks)]
    ensures Offers(rest, offers[i].peer, c) || (i == at && c == offers[at].chunks[which])
  {
    if i < at {
      assert rest[i] == offers[i];
    } else if i > at {
      assert rest[i - 1] == offers[i];
    } else if c != offers[at].chunks[which] {
      var chunks := offers[at].chunks[..which] + offers[at].chunks[which + 1..];
      var k :| 0 <= k < |offers[at].chunks| && offers[at].chunks[k] == c;
      assert chunks[if k < which then k else k - 1] == c;
      assert rest[|offers| - 1] == Offer(offers[at].peer, chunks);
    }
  }

  ghost predicate Offers(offers: seq<Offer>, peer: nat, c: Chunk) {
    exists i :: 0 <= i < |offers| && offers[i].peer == peer && c in offers[i].chunks
  }

  lemma ReportedWithout(offers: seq<Offer>, available: Reports, time: nat, k: nat)
    requires Reported(offers, available, time) && k < |offers|
    ensures Reported(offers[..k] + offers[k + 1..], available, time)
  {
  }

  ghost predicate Contains(available: seq<Chunk>, c: Chunk) {
    exists i :: 0 <= i < |available| && available[i].start <= c.start && available[i].end >= c.end
  }

  lemma ContainsNext(available: seq<Chunk>, i: nat, c: Chunk)
    requires i < |available|
    ensures Contains(available[..i + 1], c) <==>
      Contains(available[..i], c) || (available[i].start <= c.start && available[i].end >= c.end)
  {
    var shorter, longer := available[..i], available[..i + 1];
    if j :| 0 <= j < |shorter| && shorter[j].start <= c.start && shorter[j].end >= c.end {
      assert longer[j] == shorter[j];
    }
    if j :| 0 <= j < |longer| && longer[j].start <= c.start && longer[j].end >= c.end {
      assert j < i ==> shorter[j] == longer[j];
    }
    assert longer[i] == available[i];
  }

  /** The chunks to do that lie within one of the intervals available. */
  method Interesting(available: seq<Chunk>, todo: seq<Chunk>) returns (chunks: seq<Chunk>)
    ensures forall c :: c in chunks <==> c in todo && Contains(available, c)
  {
    chunks := [];
    var i := 0;
    while i < |available|
      invariant 0 <= i <= |available|
      invariant forall c :: c in chunks <==> c in todo && Contains(available[..i], c)
    {
      var more := WithinOne(available[i], todo);
      forall c
        ensures Contains(available[..i + 1], c) <==>
          Contains(available[..i], c) || (available[i].start <= c.start && available[i].end >= c.end)
      {
        ContainsNext(available, i, c);
      }
      chunks := chunks + more;
      i := i + 1;
    }
    assert available[..i] == available;
  }

  method WithinOne(interval: Chunk, todo: seq<Chunk>) returns (chunks: seq<Chunk>)
    ensures forall c :: c in chunks <==> c in todo && interval.start <= c.start && interval.end >= c.end
  {
    chunks := [];
    var k := 0;
    while k < |todo|
      invariant 0 <= k <= |todo|
      invariant forall c :: c in chunks <==> c in todo[..k] && interval.start <= c.start && interval.end >= c.end
    {
      if interval.start <= todo[k].start && interval.end >= todo[k].end {
        chunks := chunks + [todo[k]];
      }
      assert todo[..k + 1] == todo[..k] + [todo[k]];
      k := k + 1;
    }
    assert todo[..k] == todo;
  }

  /** The chunks found interesting are exactly those to do that the peer has in full. */
  lemma InterestingIsAvailable(available: seq<Chunk>, c: Chunk)
    requires Canonical(available) && c.start < c.end
    ensures Contains(available, c) <==> forall x :: Within(c, x) ==> Covered(available, x)
  {
    OneIntervalSuffices(available, c);
  }

  method Pick(n: nat) returns (i: nat)
    requires n > 0
    ensures i < n
  {
    var x: int := *;
    i := if 0 <= x < n then x else n - 1;
  }

  method Find(todo: seq<Chunk>, c: Chunk) returns (k: nat)
    requires c in todo
    ensures k < |todo| && todo[k] == c
  {
    k := 0;
    while todo[k] != c
      invariant 0 <= k < |todo| && c in todo[k..]
      decreases |todo| - k
    {
      assert todo[k..] == [todo[k]] + todo[k + 1..];
      k := k + 1;
    }
  }

  class Transfer {
    const size: nat
    const block: array<Byte>
    var done: seq<Chunk>
    var todo: seq<Chunk>

    ghost predicate Valid()
      reads this
    {
      block.Length == size && Canonical(done) && Ordered(todo, size) && Separate(done, todo)
        && Complete(done, todo, size)
    }

    ghost predicate Agrees(content: seq<Byte>)
      reads this, block
    {
      Matches(done, block[..], content)
    }

    constructor (size: nat, chunkSize: nat)
      requires chunkSize > 0
      ensures Valid() && fresh(block) && this.size == size && done == [] && Even(todo, chunkSize)
        && forall content: seq<Byte> :: |content| == size ==> Agrees(content)
    {
      this.size := size;
      block := new Byte[size](_ => 0);
      done := [];
      todo := Tiles(0, size, chunkSize);
      TilesOrdered(0, size, chunkSize);
      forall x ensures Covered(Tiles(0, size, chunkSize), x) <==> 0 <= x < size {
        TilesCover(0, size, chunkSize, x);
      }
    }

    /** In place, with an index of -1 for the interval before the first. */
    method Mark(c: Chunk)
      requires Canonical(done) && Apart(done, c) && c.start < c.end
      modifies this`done
      ensures done == MarkDone(old(done), c)
    {
      if done == [] {
        done := done + [c];
        return;
      }
      var idx := Bisect(done, c);
      var prev := Previous(done, idx);
      var before := c.start == done[prev].end;
      var after := idx < |done| && c.end == done[idx].start;
      if before && after {
        done := done[prev := Chunk(done[prev].start, done[idx].end)];
        done := done[..idx] + done[idx + 1..];
      } else if before {
        done := done[prev := Chunk(done[prev].start, c.end)];
      } else if after {
        done := done[idx := Chunk(c.start, done[idx].end)];
      } else {
        done := done[..idx] + [c] + done[idx..];
      }
    }

    method WriteAt(start: nat, data: seq<Byte>)
      requires start + |data| <= block.Length
      modifies block
      ensures forall x :: 0 <= x < block.Length ==>
        block[x] == if start <= x < start + |data| then data[x - start] else old(block[x])
    {
      var i := 0;
      while i < |data|
        invariant 0 <= i <= |data|
        invariant forall x :: 0 <= x < block.Length ==>
          block[x] == if start <= x < start + i then data[x - start] else old(block[x])
      {
        block[start + i] := data[i];
        i := i + 1;
      }
    }

    /** The bytes are written first; only then is the chunk advertised. */
    method Store(k: nat, data: seq<Byte>)
      requires Valid() && k < |todo| && |data| == todo[k].end - todo[k].start
      modifies this`done, this`todo, block
      ensures Valid() && todo == Without(old(todo), k) && done == MarkDone(old(done), old(todo[k]))
      ensures forall x :: 0 <= x < size ==>
        block[x] == if Within(old(todo[k]), x) then data[x - old(todo[k]).start] else old(block[x])
    {
      var c := todo[k];
      WriteAt(c.start, data);
      MovedChunk(done, todo, size, k);
      todo := todo[..k] + todo[k + 1..];
      Mark(c);
    }

    /** A request to a peer: an error, or an answer of the wrong size, changes nothing. */
    method Request(net: Network, peer: nat, k: nat, time: nat, ghost content: seq<Byte>) returns (ok: bool)
      requires Valid() && k < |todo|
      modifies this`done, this`todo, block
      ensures Valid() && (Right(net, peer, old(todo[k]), time, content) && old(Agrees(content)) ==> Agrees(content))
      ensures ok ==> todo == Without(old(todo), k)
      ensures !ok ==> todo == old(todo) && done == old(done) && block[..] == old(block[..])
      ensures ok <==> !Fails(net, peer, old(todo[k]), time)
    {
      var answer := net(peer, todo[k], time);
      if answer.None? || |answer.value| != todo[k].end - todo[k].start {
        return false;
      }
      ghost var before, c, was := block[..], todo[k], done;
      Store(k, answer.value);
      if Right(net, peer, c, time, content) && Matches(was, before, content) {
        WriteMatches(was, c, before, answer.value, block[..], content);
      }
      return true;
    }

    /** Asks the peers what they have: every one with chunks still to do offers exactly these. */
    method Ask(peers: nat, available: Reports, time: nat) returns (offers: seq<Offer>)
      ensures NonEmpty(offers) && Advertised(offers, available, time, todo)
      ensures forall peer: nat, c :: peer < peers && c in todo && Contains(available(peer, time), c) ==>
        Offers(offers, peer, c)
      ensures forall i :: 0 <= i < |offers| ==> offers[i].peer < peers
      ensures forall i, j :: 0 <= i < j < |offers| ==> offers[i].peer < offers[j].peer
    {
      offers := [];
      var peer := 0;
      while peer < peers
        invariant 0 <= peer <= peers && NonEmpty(offers) && Advertised(offers, available, time, todo)
        invariant forall p: nat, c :: p < peer && c in todo && Contains(available(p, time), c) ==>
          Offers(offers, p, c)
        invariant forall i :: 0 <= i < |offers| ==> offers[i].peer < peer
        invariant forall i, j :: 0 <= i < j < |offers| ==> offers[i].peer < offers[j].peer
      {
        var chunks := Interesting(available(peer, time), todo);
        ghost var before := offers;
        if chunks != [] {
          offers := offers + [Offer(peer, chunks)];
          assert offers[|before|] == Offer(peer, chunks);
        }
        forall p: nat, c | p < peer + 1 && c in todo && Contains(available(p, time), c) ensures Offers(offers, p, c) {
          if p < peer {
            var i :| 0 <= i < |before| && before[i].peer == p && c in before[i].chunks;
            assert offers[i] == before[i];
          } else {
            assert c in chunks;
          }
        }
        peer := peer + 1;
      }
    }

    /**
     Tries offered chunks, and no others, until one has been downloaded or none is left: if nothing was
     downloaded, every peer failed to answer for each chunk it offered.
     */
    method FromPeers(
      net: Network, source: nat, available: Reports, offered: seq<Offer>, clock: nat, ghost content: seq<Byte>)
      returns (time: nat)
      requires Valid() && NonEmpty(offered) && Reported(offered, available, clock)
      modifies this`done, this`todo, block
      ensures Valid() && old(|todo|) - 1 <= |todo| <= old(|todo|) && time >= clock
      ensures Honest(net, source, available, content) && old(Agrees(content)) ==> Agrees(content)
      ensures |todo| == old(|todo|) ==> todo == old(todo) && forall peer, c ::
        c in todo && Offers(offered, peer, c) ==> Failed(net, peer, c, clock, time)
    {
      var offers := offered;
      time := clock;
      var found := false;
      while offers != [] && !found
        invariant Valid() && time >= clock && (found ==> |todo| == old(|todo|) - 1) && (!found ==> todo == old(todo))
        invariant NonEmpty(offers) && Reported(offers, available, clock)
        invariant Honest(net, source, available, content) && old(Agrees(content)) ==> Agrees(content)
        invariant !found ==> Pending(net, offered, offers, todo, clock, time)
        decreases Offered(offers)
      {
        var at := Pick(|offers|);
        var which := Pick(|offers[at].chunks|);
        var peer, c := offers[at].peer, offers[at].chunks[which];
        var chunks := offers[at].chunks[..which] + offers[at].chunks[which + 1..];
        ghost var before, was := offers, time;
        OfferedWithout(offers, at);
        ReportedWithout(offers, available, clock, at);
        assert c in offers[at].chunks;
        offers := offers[..at] + offers[at + 1..];
        if c in todo {
          var k := Find(todo, c);
          found := Request(net, peer, k, time, content);
          time := time + 1;
        }
        if chunks != [] && !found {
          OfferedMore(offers, Offer(peer, chunks));
          offers := offers + [Offer(peer, chunks)];
        }
        if !found {
          StillPending(net, offered, before, offers, todo, clock, was, time, at, which);
        }
      }
    }

    /** No peer answered for any chunk that it had to offer. */
    ghost predicate Unanswered(
      net: Network, peers: nat, available: Reports, wanted: seq<Chunk>, from: nat, to: nat) {
      forall peer: nat, c :: peer < peers && c in wanted && Contains(available(peer, from), c) ==>
        Failed(net, peer, c, from, to)
    }

    /**
     One chunk is taken from a peer and one from the source; only the source is used when no peer
     answered for anything that it offered.
     */
    method Round(net: Network, source: nat, peers: nat, available: Reports, clock: nat, ghost content: seq<Byte>)
      returns (ok: bool, time: nat)
      requires Valid() && todo != []
      modifies this`done, this`todo, block
      ensures Valid() && time >= clock && |todo| <= old(|todo|)
      ensures Honest(net, source, available, content) && old(Agrees(content)) ==> Agrees(content)
      ensures ok ==> |todo| < old(|todo|)
      ensures ok && todo != [] && |todo| != old(|todo|) - 2 ==>
        Unanswered(net, peers, available, old(todo), clock, time)
      ensures !ok ==> exists c, at: nat :: c in todo && Fails(net, source, c, at)
    {
      var offers := Ask(peers, available, clock);
      AdvertisedReported(offers, available, clock, todo);
      time := FromPeers(net, source, available, offers, clock, content);
      if todo != [] {
        var k := Pick(|todo|);
        ghost var c := todo[k];
        ok := Request(net, source, k, time, content);
        assert !ok ==> c in todo && Fails(net, source, c, time);
      } else {
        ok := true;
      }
    }

    /**
     Rounds of downloads: each moves at least one chunk or fails.  On success the whole block is
     advertised, and with right answers to what was advertised it is the content.
     */
    method Run(net: Network, source: nat, peers: nat, available: Reports, ghost content: seq<Byte>)
      returns (ok: bool)
      requires Valid() && Agrees(content)
      modifies this`done, this`todo, block
      ensures Valid() && (ok <==> todo == [])
      ensures ok ==> done == if size == 0 then [] else [Chunk(0, size)]
      ensures !ok ==> exists c, at: nat :: c in todo && Fails(net, source, c, at)
      ensures Honest(net, source, available, content) ==> Agrees(content) && (ok ==> block[..] == content)
    {
      var time := 0;
      while todo != []
        invariant Valid() && (Honest(net, source, available, content) ==> Agrees(content))
        decreases |todo|
      {
        ok, time := Round(net, source, peers, available, time, content);
        if !ok {
          return false;
        }
      }
      AllDone(done, block[..], content);
      return true;
    }
  }

  lemma AllDone(done: seq<Chunk>, bytes: seq<Byte>, content: seq<Byte>)
    requires Canonical(done) && Complete(done, [], |bytes|)
    ensures done == if |bytes| == 0 then [] else [Chunk(0, |bytes|)]
    ensures Matches(done, bytes, content) ==> bytes == content
  {
    forall x ensures Covered(done, x) <==> 0 <= x < |bytes| {
      assert !Covered([], x);
    }
    if |bytes| > 0 {
      WholeBlock(done, |bytes|);
    } else {
      StartCovered(done);
    }
  }
}

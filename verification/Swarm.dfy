/**
 The swarm: any number of nodes download a block from the seeder and from one another.  Nodes learn
 what others have from reports, which may be old by the time they are used; chunks travel while the
 others go on.
 */
module Swarm {
  import opened Sequences
  import opened Intervals
  import opened Download

  datatype Node = Node(data: seq<Byte>, done: seq<Chunk>)

  /** What an observer believes another node has. */
  datatype Report = Report(observer: nat, about: nat, available: seq<Chunk>)

  /** A chunk on its way. */
  datatype Flight = Flight(chunk: Chunk, bytes: seq<Byte>)

  datatype State = State(nodes: map<nat, Node>, reports: set<Report>, flights: map<nat, Flight>)

  datatype Event =
    | Join(node: nat)
    | Ask(node: nat, about: nat, reporter: nat)
    | Fetch(node: nat, from: nat, chunk: Chunk)
    | Arrive(node: nat)
    | Lose(node: nat)

  const Seeder: nat := 0

  function Zeros(size: nat): seq<Byte> { seq(size, _ => 0) }

  function Initial(content: seq<Byte>): State {
    State(map[Seeder := Node(content, [Chunk(0, |content|)])], {}, map[])
  }

  ghost predicate Enabled(s: State, size: nat, e: Event) {
    match e
    case Join(i) => i !in s.nodes
    case Ask(i, about, reporter) => i in s.nodes && about in s.nodes && reporter in s.nodes
    case Fetch(i, j, c) =>
      && i in s.nodes && i != Seeder && i !in s.flights && j in s.nodes && |s.nodes[j].data| == size
      && 0 <= c.start < c.end <= size && Apart(s.nodes[i].done, c)
      && (j == Seeder || exists r :: r in s.reports && r.observer == i && r.about == j && Contains(r.available, c))
    case Arrive(i) => i in s.flights && i in s.nodes && |s.nodes[i].data| == size && 0 <= s.flights[i].chunk.start
      && s.flights[i].chunk.start + |s.flights[i].bytes| <= size
    case Lose(i) => i in s.flights
  }

  function Written(data: seq<Byte>, start: nat, bytes: seq<Byte>): seq<Byte>
    requires start + |bytes| <= |data|
  {
    data[..start] + bytes + data[start + |bytes|..]
  }

  /** The answer to a question is filed under the name of a peer, not necessarily that of the node that gave it. */
  function Step(s: State, size: nat, e: Event): State
    requires Enabled(s, size, e)
  {
    match e
    case Join(i) => s.(nodes := s.nodes[i := Node(Zeros(size), [])])
    case Ask(i, about, reporter) => s.(reports := s.reports + {Report(i, about, s.nodes[reporter].done)})
    case Fetch(i, j, c) => s.(flights := s.flights[i := Flight(c, s.nodes[j].data[c.start..c.end])])
    case Arrive(i) =>
      var f, n := s.flights[i], s.nodes[i];
      s.(nodes := s.nodes[i := Node(Written(n.data, f.chunk.start, f.bytes), MarkDone(n.done, f.chunk))],
        flights := s.flights - {i})
    case Lose(i) => s.(flights := s.flights - {i})
  }

  // ---- soundness -----------------------------------------------------------------------------

  /** The node holds the content where it says so and nothing elsewhere. */
  ghost predicate SoundNode(n: Node, content: seq<Byte>) {
    && Canonical(n.done) && |n.data| == |content|
    && (forall x :: Covered(n.done, x) ==> 0 <= x < |content|)
    && forall x :: 0 <= x < |content| ==> n.data[x] == if Covered(n.done, x) then content[x] else 0
  }

  /** A chunk under way to its place, whose bytes are right exactly if `right` says so. */
  ghost predicate FairFlight(n: Node, f: Flight, content: seq<Byte>, right: bool) {
    && 0 <= f.chunk.start < f.chunk.end <= |content| && Apart(n.done, f.chunk)
    && |f.bytes| == f.chunk.end - f.chunk.start
    && (f.bytes == content[f.chunk.start..f.chunk.end] <==> right)
  }

  /** All nodes are sound; `right` are the nodes for which the right bytes are under way. */
  ghost predicate Fair(s: State, content: seq<Byte>, right: set<nat>) {
    && Seeder in s.nodes && s.nodes[Seeder] == Node(content, [Chunk(0, |content|)]) && Seeder !in s.flights
    && (forall i :: i in s.nodes && i != Seeder ==> SoundNode(s.nodes[i], content))
    && (forall i :: i in s.flights ==> i in s.nodes && FairFlight(s.nodes[i], s.flights[i], content, i in right))
    && forall i :: i in right ==> i in s.flights
  }

  /** All bytes under way are right. */
  ghost predicate Sound(s: State, content: seq<Byte>) { Fair(s, content, s.flights.Keys) }

  /** The node asked has every byte of the chunk, or the block has a zero there. */
  ghost predicate Backed(s: State, content: seq<Byte>, e: Event) {
    e.Fetch? && e.from in s.nodes ==>
      forall x :: Within(e.chunk, x) && 0 <= x < |content| ==> Covered(s.nodes[e.from].done, x) || content[x] == 0
  }

  lemma SeederHas(s: State, content: seq<Byte>, right: set<nat>, x: int)
    requires Fair(s, content, right) && 0 <= x < |content|
    ensures Covered(s.nodes[Seeder].done, x)
  {
    CoveredOne(Chunk(0, |content|), x);
  }

  lemma NodeData(s: State, content: seq<Byte>, right: set<nat>, j: nat, x: int)
    requires Fair(s, content, right) && j in s.nodes && 0 <= x < |content|
    ensures |s.nodes[j].data| == |content|
    ensures s.nodes[j].data[x] == if Covered(s.nodes[j].done, x) then content[x] else 0
  {
    if j == Seeder {
      SeederHas(s, content, right, x);
    }
  }

  /** A node's bytes for a chunk are right exactly when it has them, zeros aside. */
  lemma FetchedBytes(s: State, content: seq<Byte>, right: set<nat>, j: nat, c: Chunk)
    requires Fair(s, content, right) && j in s.nodes && 0 <= c.start < c.end <= |content|
    ensures |s.nodes[j].data| == |content|
    ensures s.nodes[j].data[c.start..c.end] == content[c.start..c.end] <==>
      forall x :: Within(c, x) && 0 <= x < |content| ==> Covered(s.nodes[j].done, x) || content[x] == 0
  {
    var data := s.nodes[j].data;
    forall x | 0 <= x < |content|
      ensures |data| == |content| && data[x] == if Covered(s.nodes[j].done, x) then content[x] else 0
    {
      NodeData(s, content, right, j, x);
    }
    NodeData(s, content, right, j, c.start);
    if data[c.start..c.end] == content[c.start..c.end] {
      forall x | Within(c, x) && 0 <= x < |content| ensures Covered(s.nodes[j].done, x) || content[x] == 0 {
        assert data[c.start..c.end][x - c.start] == content[c.start..c.end][x - c.start];
      }
    }
  }

  function Arrived(n: Node, f: Flight): Node
    requires 0 <= f.chunk.start && f.chunk.start + |f.bytes| <= |n.data|
  {
    Node(Written(n.data, f.chunk.start, f.bytes), MarkDone(n.done, f.chunk))
  }

  lemma ArrivedNode(n: Node, f: Flight, content: seq<Byte>)
    requires SoundNode(n, content) && FairFlight(n, f, content, true)
    ensures SoundNode(Arrived(n, f), content)
  {
    MarkDoneCanonical(n.done, f.chunk);
    forall x ensures Covered(MarkDone(n.done, f.chunk), x) <==> Covered(n.done, x) || Within(f.chunk, x) {
      MarkDoneCovers(n.done, f.chunk, x);
    }
    ArrivedBytes(n, f, content);
  }

  lemma ArrivedBytes(n: Node, f: Flight, content: seq<Byte>)
    requires |n.data| == |content| && FairFlight(n, f, content, true)
    ensures var r := Arrived(n, f);
      |r.data| == |content| && forall x :: 0 <= x < |content| ==>
        r.data[x] == if Within(f.chunk, x) then content[x] else n.data[x]
  {
  }

  /** When wrong bytes arrive, one of them is advertised. */
  lemma WrongBytesShow(n: Node, f: Flight, content: seq<Byte>) returns (x: int)
    requires SoundNode(n, content) && FairFlight(n, f, content, false)
    ensures 0 <= x < |content| && Covered(Arrived(n, f).done, x) && Arrived(n, f).data[x] != content[x]
  {
    var k := Difference(f.bytes, content[f.chunk.start..f.chunk.end]);
    x := f.chunk.start + k;
    MarkDoneCovers(n.done, f.chunk, x);
    assert Arrived(n, f).data[x] == f.bytes[k];
  }

  lemma Difference(a: seq<Byte>, b: seq<Byte>) returns (k: nat)
    requires |a| == |b| && a != b
    ensures k < |a| && a[k] != b[k]
  {
    k :| k < |a| && a[k] != b[k];
  }

  lemma JoinedNode(content: seq<Byte>)
    ensures SoundNode(Node(Zeros(|content|), []), content)
  {
  }

  /** Which nodes the right bytes are on their way to, after an event. */
  ghost function RightAfter(s: State, content: seq<Byte>, e: Event, right: set<nat>): set<nat> {
    match e
    case Fetch(i, _, _) => if Backed(s, content, e) then right + {i} else right - {i}
    case Arrive(i) => right - {i}
    case Lose(i) => right - {i}
    case _ => right
  }

  lemma FetchFair(s: State, content: seq<Byte>, right: set<nat>, i: nat, j: nat, c: Chunk)
    requires Fair(s, content, right) && Enabled(s, |content|, Fetch(i, j, c))
    ensures Fair(Step(s, |content|, Fetch(i, j, c)), content, RightAfter(s, content, Fetch(i, j, c), right))
  {
    var t := Step(s, |content|, Fetch(i, j, c));
    FetchedBytes(s, content, right, j, c);
    assert t.flights[i] == Flight(c, s.nodes[j].data[c.start..c.end]);
    assert forall k :: k in t.flights && k != i ==> k in s.flights && t.flights[k] == s.flights[k];
  }

  lemma ArriveFair(s: State, content: seq<Byte>, right: set<nat>, i: nat)
    requires Fair(s, content, right) && Enabled(s, |content|, Arrive(i)) && i in right
    ensures Fair(Step(s, |content|, Arrive(i)), content, right - {i})
  {
    ArrivedNode(s.nodes[i], s.flights[i], content);
    var t := Step(s, |content|, Arrive(i));
    assert forall k :: k in t.flights ==>
      k in s.flights && k != i && t.flights[k] == s.flights[k] && t.nodes[k] == s.nodes[k];
  }

  /** Only the arrival of wrong bytes makes a node unsound. */
  lemma StepFair(s: State, content: seq<Byte>, right: set<nat>, e: Event)
    requires Fair(s, content, right) && Enabled(s, |content|, e) && (e.Arrive? ==> e.node in right)
    ensures Fair(Step(s, |content|, e), content, RightAfter(s, content, e, right))
  {
    match e
    case Join(i) =>
      JoinedNode(content);
    case Ask(i, about, reporter) =>
    case Fetch(i, j, c) =>
      FetchFair(s, content, right, i, j, c);
    case Arrive(i) =>
      ArriveFair(s, content, right, i);
    case Lose(i) =>
  }

  /** A step keeps soundness exactly when a fetch is backed. */
  lemma StepSound(s: State, content: seq<Byte>, e: Event)
    requires Sound(s, content) && Enabled(s, |content|, e)
    ensures Sound(Step(s, |content|, e), content) <==> Backed(s, content, e)
  {
    var t := Step(s, |content|, e);
    StepFair(s, content, s.flights.Keys, e);
    if Backed(s, content, e) {
      assert RightAfter(s, content, e, s.flights.Keys) == t.flights.Keys;
    } else {
      assert e.node in t.flights && e.node !in RightAfter(s, content, e, s.flights.Keys);
      assert !FairFlight(t.nodes[e.node], t.flights[e.node], content, true);
    }
  }

  // ---- runs ----------------------------------------------------------------------------------

  ghost predicate IsRun(s: State, size: nat, events: seq<Event>)
    decreases |events|
  {
    events == [] || (Enabled(s, size, events[0]) && IsRun(Step(s, size, events[0]), size, events[1..]))
  }

  ghost function Run(s: State, size: nat, events: seq<Event>): State
    requires IsRun(s, size, events)
    decreases |events|
  {
    if events == [] then s else Run(Step(s, size, events[0]), size, events[1..])
  }

  ghost predicate AlwaysSound(s: State, content: seq<Byte>, events: seq<Event>)
    requires IsRun(s, |content|, events)
    decreases |events|
  {
    Sound(s, content) && (events != [] ==> AlwaysSound(Step(s, |content|, events[0]), content, events[1..]))
  }

  ghost predicate AlwaysBacked(s: State, content: seq<Byte>, events: seq<Event>)
    requires IsRun(s, |content|, events)
    decreases |events|
  {
    events != [] ==> Backed(s, content, events[0]) && AlwaysBacked(Step(s, |content|, events[0]), content, events[1..])
  }

  /** A run is sound throughout exactly when all its fetches are backed. */
  lemma {:induction false} SoundExactlyWhenBacked(s: State, content: seq<Byte>, events: seq<Event>)
    requires IsRun(s, |content|, events) && Sound(s, content)
    ensures AlwaysSound(s, content, events) <==> AlwaysBacked(s, content, events)
    decreases |events|
  {
    if events != [] {
      StepSound(s, content, events[0]);
      var t := Step(s, |content|, events[0]);
      if Backed(s, content, events[0]) {
        SoundExactlyWhenBacked(t, content, events[1..]);
      } else {
        assert !AlwaysSound(t, content, events[1..]);
      }
    }
  }

  // ---- what is advertised --------------------------------------------------------------------

  /** Every byte that a node advertises is the seeder's. */
  ghost predicate AdvertisedRight(s: State, content: seq<Byte>) {
    forall i, x :: i in s.nodes && 0 <= x < |content| && Covered(s.nodes[i].done, x) ==>
      x < |s.nodes[i].data| && s.nodes[i].data[x] == content[x]
  }

  ghost predicate AlwaysAdvertisedRight(s: State, content: seq<Byte>, events: seq<Event>)
    requires IsRun(s, |content|, events)
    decreases |events|
  {
    && AdvertisedRight(s, content)
    && (events != [] ==> AlwaysAdvertisedRight(Step(s, |content|, events[0]), content, events[1..]))
  }

  /** Every chunk that arrives was served by a node that had it, zeros aside. */
  ghost predicate ArrivalsBacked(s: State, content: seq<Byte>, events: seq<Event>, right: set<nat>)
    requires IsRun(s, |content|, events)
    decreases |events|
  {
    events != [] ==>
      && (events[0].Arrive? ==> events[0].node in right)
      && ArrivalsBacked(Step(s, |content|, events[0]), content, events[1..], RightAfter(s, content, events[0], right))
  }

  lemma FairAdvertises(s: State, content: seq<Byte>, right: set<nat>)
    requires Fair(s, content, right)
    ensures AdvertisedRight(s, content)
  {
    forall i, x | i in s.nodes && 0 <= x < |content| && Covered(s.nodes[i].done, x)
      ensures x < |s.nodes[i].data| && s.nodes[i].data[x] == content[x]
    {
      NodeData(s, content, right, i, x);
    }
  }

  lemma WrongArrivalShows(s: State, content: seq<Byte>, right: set<nat>, i: nat)
    requires Fair(s, content, right) && Enabled(s, |content|, Arrive(i)) && i !in right
    ensures !AdvertisedRight(Step(s, |content|, Arrive(i)), content)
  {
    var x := WrongBytesShow(s.nodes[i], s.flights[i], content);
    var t := Step(s, |content|, Arrive(i));
    assert t.nodes[i] == Arrived(s.nodes[i], s.flights[i]);
  }

  lemma {:induction false} AdvertisedFrom(s: State, content: seq<Byte>, events: seq<Event>, right: set<nat>)
    requires IsRun(s, |content|, events) && Fair(s, content, right)
    ensures AlwaysAdvertisedRight(s, content, events) <==> ArrivalsBacked(s, content, events, right)
    decreases |events|
  {
    FairAdvertises(s, content, right);
    if events != [] {
      var e := events[0];
      var t := Step(s, |content|, e);
      if e.Arrive? && e.node !in right {
        WrongArrivalShows(s, content, right, e.node);
        assert !AlwaysAdvertisedRight(t, content, events[1..]);
      } else {
        StepFair(s, content, right, e);
        AdvertisedFrom(t, content, events[1..], RightAfter(s, content, e, right));
      }
    }
  }

  /**
   In every run of any number of nodes: all bytes advertised are the seeder's at all times if and only
   if every chunk that arrives was, when it was served, held by the node asked.
   */
  lemma RightExactlyWhenBacked(content: seq<Byte>, events: seq<Event>)
    requires IsRun(Initial(content), |content|, events)
    ensures AlwaysAdvertisedRight(Initial(content), content, events) <==>
      ArrivalsBacked(Initial(content), content, events, {})
  {
    InitialSound(content);
    AdvertisedFrom(Initial(content), content, events, {});
  }

  lemma {:induction false} AdvertisedAtEnd(s: State, content: seq<Byte>, events: seq<Event>)
    requires IsRun(s, |content|, events) && AlwaysAdvertisedRight(s, content, events)
    ensures AdvertisedRight(Run(s, |content|, events), content)
    decreases |events|
  {
    if events != [] {
      AdvertisedAtEnd(Step(s, |content|, events[0]), content, events[1..]);
    }
  }

  lemma {:induction false} SizesKept(s: State, size: nat, events: seq<Event>)
    requires IsRun(s, size, events) && forall i :: i in s.nodes ==> |s.nodes[i].data| == size
    ensures forall i :: i in Run(s, size, events).nodes ==> |Run(s, size, events).nodes[i].data| == size
    decreases |events|
  {
    if events != [] {
      SizesKept(Step(s, size, events[0]), size, events[1..]);
    }
  }

  // ---- reports filed under the right name ----------------------------------------------------

  /** Whatever is reported of a node, the node still has. */
  ghost predicate ReportsHold(s: State) {
    forall r :: r in s.reports ==> r.about in s.nodes && forall x :: Covered(r.available, x) ==>
      Covered(s.nodes[r.about].done, x)
  }

  /** Answers are filed under the name of the node that gave them. */
  ghost predicate Attributed(events: seq<Event>) {
    forall i :: 0 <= i < |events| && events[i].Ask? ==> events[i].about == events[i].reporter
  }

  lemma ContainedCovered(available: seq<Chunk>, c: Chunk, x: int)
    requires Contains(available, c) && Within(c, x)
    ensures Covered(available, x)
  {
    var i :| 0 <= i < |available| && available[i].start <= c.start && available[i].end >= c.end;
    assert Within(available[i], x);
  }

  lemma AttributedBacked(s: State, content: seq<Byte>, e: Event)
    requires Sound(s, content) && ReportsHold(s) && Enabled(s, |content|, e)
    ensures Backed(s, content, e)
  {
    if e.Fetch? {
      forall x | Within(e.chunk, x) && 0 <= x < |content| ensures Covered(s.nodes[e.from].done, x) {
        if e.from == Seeder {
          SeederHas(s, content, s.flights.Keys, x);
        } else {
          var r :| r in s.reports && r.observer == e.node && r.about == e.from && Contains(r.available, e.chunk);
          ContainedCovered(r.available, e.chunk, x);
        }
      }
    }
  }

  /** Nodes never lose what they have, so reports grow old but not wrong. */
  lemma StepReports(s: State, content: seq<Byte>, e: Event)
    requires Sound(s, content) && ReportsHold(s) && Enabled(s, |content|, e) && (e.Ask? ==> e.about == e.reporter)
    ensures ReportsHold(Step(s, |content|, e))
  {
    var t := Step(s, |content|, e);
    forall r | r in t.reports
      ensures r.about in t.nodes && forall x :: Covered(r.available, x) ==> Covered(t.nodes[r.about].done, x)
    {
      if e.Arrive? && r.about == e.node {
        forall x | Covered(r.available, x) ensures Covered(t.nodes[r.about].done, x) {
          MarkDoneCovers(s.nodes[e.node].done, s.flights[e.node].chunk, x);
        }
      }
    }
  }

  lemma {:induction false} AttributedRun(s: State, content: seq<Byte>, events: seq<Event>)
    requires IsRun(s, |content|, events) && Sound(s, content) && ReportsHold(s) && Attributed(events)
    ensures AlwaysBacked(s, content, events) && AlwaysSound(s, content, events)
    ensures Sound(Run(s, |content|, events), content)
    decreases |events|
  {
    if events != [] {
      var t := Step(s, |content|, events[0]);
      AttributedBacked(s, content, events[0]);
      StepSound(s, content, events[0]);
      StepReports(s, content, events[0]);
      AttributedRun(t, content, events[1..]);
    }
  }

  lemma InitialSound(content: seq<Byte>)
    ensures Fair(Initial(content), content, {}) && Sound(Initial(content), content) && ReportsHold(Initial(content))
  {
    assert Initial(content).flights.Keys == {};
  }

  /** Where all fetches are backed, so are all arrivals. */
  lemma {:induction false} BackedArrivals(s: State, content: seq<Byte>, events: seq<Event>)
    requires IsRun(s, |content|, events) && Sound(s, content) && AlwaysBacked(s, content, events)
    ensures ArrivalsBacked(s, content, events, s.flights.Keys)
    decreases |events|
  {
    if events != [] {
      var t := Step(s, |content|, events[0]);
      StepSound(s, content, events[0]);
      BackedArrivals(t, content, events[1..]);
      assert RightAfter(s, content, events[0], s.flights.Keys) == t.flights.Keys;
    }
  }

  /**
   In every run in which answers are filed under the right name: every byte a node advertises is the
   seeder's, and a node that advertises the whole block has the seeder's block.
   */
  lemma SwarmSafety(content: seq<Byte>, events: seq<Event>, i: nat)
    requires IsRun(Initial(content), |content|, events) && Attributed(events)
    requires i in Run(Initial(content), |content|, events).nodes
    ensures var n := Run(Initial(content), |content|, events).nodes[i];
      && |n.data| == |content|
      && (forall x :: 0 <= x < |content| && Covered(n.done, x) ==> n.data[x] == content[x])
      && (n.done == [Chunk(0, |content|)] ==> n.data == content)
  {
    var s0 := Initial(content);
    InitialSound(content);
    AttributedRun(s0, content, events);
    BackedArrivals(s0, content, events);
    assert s0.flights.Keys == {};
    RightExactlyWhenBacked(content, events);
    AdvertisedAtEnd(s0, content, events);
    SizesKept(s0, |content|, events);
    var n := Run(s0, |content|, events).nodes[i];
    if n.done == [Chunk(0, |content|)] {
      forall x | 0 <= x < |content| ensures n.data[x] == content[x] {
        CoveredOne(Chunk(0, |content|), x);
      }
    }
  }

  // ---- answers filed under another name ------------------------------------------------------

  const Bit := Chunk(0, 1)

  function Four(one: Node, three: Node): map<nat, Node> {
    map[0 := Node([7], [Bit]), 1 := one, 2 := Node([0], []), 3 := three]
  }

  const Fresh := Node([0], [])

  function Mixup(): seq<Event> {
    [Join(1), Join(2), Join(3), Fetch(1, 0, Bit), Arrive(1), Ask(3, 2, 1), Fetch(3, 2, Bit), Arrive(3)]
  }

  /** The answer of node 1, filed under node 2: node 3 takes the chunk from node 2, which does not have it. */
  lemma WrongAttribution()
    ensures IsRun(Initial([7]), 1, Mixup())
    ensures 3 in Run(Initial([7]), 1, Mixup()).nodes && Run(Initial([7]), 1, Mixup()).nodes[3] == Node([0], [Bit])
  {
    var e := Mixup();
    MixupEnds();
    assert e[5..] == [Ask(3, 2, 1), Fetch(3, 2, Bit), Arrive(3)];
    MixupStarts();
    var s1 := Step(Initial([7]), 1, Join(1));
    var s2 := Step(s1, 1, Join(2));
    var s3 := State(Four(Fresh, Fresh), {}, map[]);
    var s4 := Step(s3, 1, Fetch(1, 0, Bit));
    Unroll(s4, 1, e[4..]);
    Unroll(s3, 1, e[3..]);
    Unroll(s2, 1, e[2..]);
    Unroll(s1, 1, e[1..]);
    Unroll(Initial([7]), 1, e);
  }

  lemma MixupStarts()
    ensures var s1 := Step(Initial([7]), 1, Join(1));
      Enabled(s1, 1, Join(2)) && Enabled(Step(s1, 1, Join(2)), 1, Join(3))
      && Step(Step(s1, 1, Join(2)), 1, Join(3)) == State(Four(Fresh, Fresh), {}, map[])
    ensures var s3 := State(Four(Fresh, Fresh), {}, map[]);
      Enabled(s3, 1, Fetch(1, 0, Bit)) && Enabled(Step(s3, 1, Fetch(1, 0, Bit)), 1, Arrive(1))
      && Step(Step(s3, 1, Fetch(1, 0, Bit)), 1, Arrive(1)) == State(Four(Node([7], [Bit]), Fresh), {}, map[])
  {
    assert Zeros(1) == [0];
    var s3 := State(Four(Fresh, Fresh), {}, map[]);
    var s4 := Step(s3, 1, Fetch(1, 0, Bit));
    assert s4.flights[1] == Flight(Bit, [7]);
    assert Written([0], 0, [7]) == [7];
    assert Step(s4, 1, Arrive(1)).flights == map[];
  }

  lemma MixupEnds()
    ensures var s5 := State(Four(Node([7], [Bit]), Fresh), {}, map[]);
      var rest := [Ask(3, 2, 1), Fetch(3, 2, Bit), Arrive(3)];
      IsRun(s5, 1, rest) && 3 in Run(s5, 1, rest).nodes && Run(s5, 1, rest).nodes[3] == Node([0], [Bit])
  {
    var s5 := State(Four(Node([7], [Bit]), Fresh), {}, map[]);
    var rest := [Ask(3, 2, 1), Fetch(3, 2, Bit), Arrive(3)];
    var s6 := Step(s5, 1, rest[0]);
    var r := Report(3, 2, [Bit]);
    assert r in s6.reports && r.available[0] == Bit && Contains(r.available, Bit);
    var s7 := Step(s6, 1, rest[1]);
    assert s7.flights[3] == Flight(Bit, [0]);
    assert Written([0], 0, [0]) == [0];
    var s8 := Step(s7, 1, rest[2]);
    assert rest[1..] == [rest[1], rest[2]] && rest[2..] == [rest[2]] && rest[3..] == [];
    Unroll(s7, 1, rest[2..]);
    assert rest[1..][1..] == rest[2..];
    Unroll(s6, 1, rest[1..]);
    Unroll(s5, 1, rest);
  }

  lemma Unroll(s: State, size: nat, events: seq<Event>)
    requires events != [] && Enabled(s, size, events[0]) && IsRun(Step(s, size, events[0]), size, events[1..])
    ensures IsRun(s, size, events) && Run(s, size, events) == Run(Step(s, size, events[0]), size, events[1..])
  {
  }
}

/**
 The tasks of a dataset: one for each partition of each dataset that must be synchronized on, and a
 barrier between a synchronized dataset and those that read it.  Datasets are numbered so that
 sources have smaller numbers.
 */
module TaskGraph {
  import opened Sequences

  import SchedulerModel
  import SchedulerProgress

  type Dset = nat

  datatype Dag = Dag(sources: Dset -> seq<Dset>, sync: Dset -> bool, parts: Dset -> nat)

  ghost predicate Acyclic(dag: Dag) {
    forall d: Dset, i :: 0 <= i < |dag.sources(d)| ==> dag.sources(d)[i] < d
  }

  datatype TaskId = Compute(dset: Dset, part: nat) | Barrier(dset: Dset)

  /** The ordered dictionary of tasks, and the edges kept by the tasks. */
  datatype Tasks = Tasks(order: seq<TaskId>, dependencies: map<TaskId, set<TaskId>>, dependents: map<TaskId,
    set<TaskId>>)
  {
    function Dependencies(t: TaskId): set<TaskId> { if t in dependencies then dependencies[t] else {} }

    function Dependents(t: TaskId): set<TaskId> { if t in dependents then dependents[t] else {} }
  }

  // ---- what a dataset waits for --------------------------------------------------------------

  /** The synchronized datasets reached from the sources of d, from position i on, through others. */
  function SyncFrom(dag: Dag, d: Dset, i: nat): set<Dset>
    requires Acyclic(dag) && i <= |dag.sources(d)|
    decreases d, |dag.sources(d)| - i
  {
    if i == |dag.sources(d)| then {}
    else
      var s := dag.sources(d)[i];
      (if dag.sync(s) then {s} else SyncFrom(dag, s, 0)) + SyncFrom(dag, d, i + 1)
  }

  function SyncSources(dag: Dag, d: Dset): set<Dset>
    requires Acyclic(dag)
  {
    SyncFrom(dag, d, 0)
  }

  function SyncOf(dag: Dag, d: Dset): set<Dset>
    requires Acyclic(dag)
  {
    if dag.sync(d) then {d} else SyncFrom(dag, d, 0)
  }

  function SyncOfAll(dag: Dag, q: seq<Dset>): set<Dset>
    requires Acyclic(dag)
  {
    if q == [] then {} else SyncOf(dag, q[0]) + SyncOfAll(dag, q[1..])
  }

  lemma {:induction false} SyncOfConcat(dag: Dag, a: seq<Dset>, b: seq<Dset>)
    requires Acyclic(dag)
    ensures SyncOfAll(dag, a + b) == SyncOfAll(dag, a) + SyncOfAll(dag, b)
  {
    if a == [] {
      assert a + b == b;
    } else {
      assert (a + b)[1..] == a[1..] + b;
      SyncOfConcat(dag, a[1..], b);
    }
  }

  lemma {:induction false} SyncOfSources(dag: Dag, d: Dset, i: nat)
    requires Acyclic(dag) && i <= |dag.sources(d)|
    ensures SyncOfAll(dag, dag.sources(d)[i..]) == SyncFrom(dag, d, i)
    decreases |dag.sources(d)| - i
  {
    if i < |dag.sources(d)| {
      SyncOfSources(dag, d, i + 1);
      assert dag.sources(d)[i..][1..] == dag.sources(d)[i + 1..];
    }
  }

  lemma {:induction false} SyncBelow(dag: Dag, d: Dset, i: nat)
    requires Acyclic(dag) && i <= |dag.sources(d)|
    ensures forall x :: x in SyncFrom(dag, d, i) ==> x < d && dag.sync(x)
    decreases d, |dag.sources(d)| - i
  {
    if i < |dag.sources(d)| {
      var s := dag.sources(d)[i];
      SyncBelow(dag, d, i + 1);
      if !dag.sync(s) {
        SyncBelow(dag, s, 0);
      }
    }
  }

  // ---- paths ---------------------------------------------------------------------------------

  /** Each dataset on the path is read by the one before it. */
  ghost predicate SourcePath(dag: Dag, p: seq<Dset>) {
    |p| >= 2 && forall i :: 0 <= i < |p| - 1 ==> p[i + 1] in dag.sources(p[i])
  }

  /** A path to a synchronized dataset with no other one on the way. */
  ghost predicate WaitPath(dag: Dag, p: seq<Dset>) {
    SourcePath(dag, p) && dag.sync(p[|p| - 1]) && forall i :: 0 < i < |p| - 1 ==> !dag.sync(p[i])
  }

  ghost predicate WaitsFor(dag: Dag, d: Dset, x: Dset) {
    exists p :: WaitPath(dag, p) && p[0] == d && p[|p| - 1] == x
  }

  ghost predicate Upstream(dag: Dag, d: Dset, x: Dset) {
    exists p :: SourcePath(dag, p) && p[0] == d && p[|p| - 1] == x
  }

  lemma {:induction false} SyncPath(dag: Dag, d: Dset, i: nat, x: Dset) returns (p: seq<Dset>)
    requires Acyclic(dag) && i <= |dag.sources(d)| && x in SyncFrom(dag, d, i)
    ensures WaitPath(dag, p) && p[0] == d && p[|p| - 1] == x
    decreases d, |dag.sources(d)| - i
  {
    var s := dag.sources(d)[i];
    if x in SyncFrom(dag, d, i + 1) {
      p := SyncPath(dag, d, i + 1, x);
    } else if dag.sync(s) {
      p := [d, s];
    } else {
      var rest := SyncPath(dag, s, 0, x);
      p := [d] + rest;
    }
  }

  lemma {:induction false} SyncFromSource(dag: Dag, d: Dset, i: nat, j: nat)
    requires Acyclic(dag) && i <= j < |dag.sources(d)|
    ensures SyncOf(dag, dag.sources(d)[j]) <= SyncFrom(dag, d, i)
    decreases j - i
  {
    if i < j {
      SyncFromSource(dag, d, i + 1, j);
    }
  }

  lemma {:induction false} PathSync(dag: Dag, p: seq<Dset>)
    requires Acyclic(dag) && WaitPath(dag, p)
    ensures p[|p| - 1] in SyncSources(dag, p[0])
    decreases |p|
  {
    assert p[0 + 1] in dag.sources(p[0]);
    var j :| 0 <= j < |dag.sources(p[0])| && dag.sources(p[0])[j] == p[1];
    SyncFromSource(dag, p[0], 0, j);
    if |p| > 2 {
      var rest := p[1..];
      forall i | 0 <= i < |rest| - 1 ensures rest[i + 1] in dag.sources(rest[i]) {
        assert p[i + 1 + 1] in dag.sources(p[i + 1]);
      }
      PathSync(dag, rest);
    }
  }

  /** What a dataset waits for: the synchronized datasets on paths from it with no other one on the way. */
  lemma SyncSourcesArePaths(dag: Dag, d: Dset, x: Dset)
    requires Acyclic(dag)
    ensures x in SyncSources(dag, d) <==> WaitsFor(dag, d, x)
  {
    if x in SyncSources(dag, d) {
      var p := SyncPath(dag, d, 0, x);
    }
    if p :| WaitPath(dag, p) && p[0] == d && p[|p| - 1] == x {
      PathSync(dag, p);
    }
  }

  // ---- the traversal -------------------------------------------------------------------------

  /** The number of paths that start at a dataset: what the traversal has to go through. */
  function Weight(dag: Dag, d: Dset, i: nat): nat
    requires Acyclic(dag) && i <= |dag.sources(d)|
    decreases d, |dag.sources(d)| - i
  {
    if i == |dag.sources(d)| then 1 else Weight(dag, dag.sources(d)[i], 0) + Weight(dag, d, i + 1)
  }

  function WeightOfAll(dag: Dag, q: seq<Dset>): nat
    requires Acyclic(dag)
  {
    if q == [] then 0 else Weight(dag, q[0], 0) + WeightOfAll(dag, q[1..])
  }

  lemma {:induction false} WeightConcat(dag: Dag, a: seq<Dset>, b: seq<Dset>)
    requires Acyclic(dag)
    ensures WeightOfAll(dag, a + b) == WeightOfAll(dag, a) + WeightOfAll(dag, b)
  {
    if a == [] {
      assert a + b == b;
    } else {
      assert (a + b)[1..] == a[1..] + b;
      WeightConcat(dag, a[1..], b);
    }
  }

  lemma {:induction false} WeightOfSources(dag: Dag, d: Dset, i: nat)
    requires Acyclic(dag) && i <= |dag.sources(d)|
    ensures WeightOfAll(dag, dag.sources(d)[i..]) + 1 == Weight(dag, d, i)
    decreases |dag.sources(d)| - i
  {
    if i < |dag.sources(d)| {
      WeightOfSources(dag, d, i + 1);
      assert dag.sources(d)[i..][1..] == dag.sources(d)[i + 1..];
    }
  }

  lemma {:induction false} WeightPositive(dag: Dag, d: Dset, i: nat)
    requires Acyclic(dag) && i <= |dag.sources(d)|
    ensures Weight(dag, d, i) > 0
    decreases d, |dag.sources(d)| - i
  {
    if i < |dag.sources(d)| {
      WeightPositive(dag, d, i + 1);
    }
  }

  /** Breadth first, without remembering what was seen, and not beyond synchronized datasets. */
  method Traverse(dag: Dag, d: Dset) returns (found: seq<Dset>)
    requires Acyclic(dag)
    ensures forall x :: x in found <==> WaitsFor(dag, d, x)
  {
    var q := dag.sources(d);
    found := [];
    SyncOfSources(dag, d, 0);
    assert dag.sources(d)[0..] == q;
    while q != []
      invariant forall x :: x in found || x in SyncOfAll(dag, q) <==> x in SyncSources(dag, d)
      decreases WeightOfAll(dag, q)
    {
      var x := q[0];
      WeightPositive(dag, x, 0);
      if dag.sync(x) {
        found := found + [x];
        q := q[1..];
      } else {
        var sources := dag.sources(x);
        assert sources[0..] == sources;
        SyncOfConcat(dag, q[1..], sources);
        SyncOfSources(dag, x, 0);
        WeightConcat(dag, q[1..], sources);
        WeightOfSources(dag, x, 0);
        q := q[1..] + sources;
      }
    }
    forall x ensures x in found <==> WaitsFor(dag, d, x) {
      SyncSourcesArePaths(dag, d, x);
    }
  }

  // ---- the edges -----------------------------------------------------------------------------

  function Computes(dag: Dag, d: Dset, n: nat): (r: set<TaskId>)
    ensures forall t :: t in r <==> t.Compute? && t.dset == d && t.part < n
  {
    if n == 0 then {} else Computes(dag, d, n - 1) + {Compute(d, n - 1)}
  }

  function TasksOf(dag: Dag, d: Dset): (r: set<TaskId>)
    ensures forall t :: t in r <==> t.Compute? && t.dset == d && t.part < dag.parts(d)
  {
    Computes(dag, d, dag.parts(d))
  }

  function Barriers(ds: set<Dset>): (r: set<TaskId>)
    ensures forall t :: t in r <==> t.Barrier? && t.dset in ds
  {
    set d | d in ds :: Barrier(d)
  }

  /** The dependencies a task must have. */
  function Expected(dag: Dag, t: TaskId): set<TaskId>
    requires Acyclic(dag)
  {
    match t
    case Compute(d, p) => Barriers(SyncSources(dag, d))
    case Barrier(d) => TasksOf(dag, d)
  }

  ghost predicate Mirrored(g: Tasks) {
    forall t, u :: u in g.Dependents(t) <==> t in g.Dependencies(u)
  }

  /** The tasks of a dataset are in the order of its partitions. */
  ghost predicate InPartOrder(order: seq<TaskId>) {
    forall i, j :: 0 <= i < j < |order| && order[i].Compute? && order[j].Compute? && order[i].dset == order[j].dset ==>
      order[i].part < order[j].part
  }

  /** Each task comes after its dependencies and only once, those of a dataset in the order of its partitions. */
  ghost predicate Sorted(g: Tasks) {
    && NoDuplicates(g.order) && InPartOrder(g.order)
    && forall i, t :: 0 <= i < |g.order| && t in g.Dependencies(g.order[i]) ==> t in g.order[..i]
  }

  /** Listed tasks are in range and have exactly their dependencies. */
  ghost predicate ListedExpected(dag: Dag, g: Tasks)
    requires Acyclic(dag)
  {
    forall t :: t in g.order ==> g.Dependencies(t) == Expected(dag, t) && (t.Compute? ==> t.part < dag.parts(t.dset))
  }

  /** Other tasks have no dependencies, apart from those being made. */
  ghost predicate NoStrays(g: Tasks, making: set<TaskId>) {
    forall t :: t !in g.order && t !in making ==> g.Dependencies(t) == {}
  }

  /** The tasks of a dataset are listed together. */
  ghost predicate Together(dag: Dag, g: Tasks) {
    forall t, u :: t in g.order && t.Compute? && u in TasksOf(dag, t.dset) ==> u in g.order
  }

  ghost predicate Exact(dag: Dag, g: Tasks, making: set<TaskId>)
    requires Acyclic(dag)
  {
    ListedExpected(dag, g) && NoStrays(g, making) && Together(dag, g)
  }

  ghost predicate Good(dag: Dag, g: Tasks, making: set<TaskId>)
    requires Acyclic(dag)
  {
    Mirrored(g) && Sorted(g) && Exact(dag, g, making)
  }

  // ---- generating ----------------------------------------------------------------------------

  /** A barrier between the tasks it waits for and those that wait for it. */
  function Linked(g: Tasks, b: TaskId, readers: set<TaskId>, written: set<TaskId>): Tasks {
    Tasks(
      if b in g.order then g.order else g.order + [b],
      map t | t in g.dependencies.Keys + readers + {b} ::
        g.Dependencies(t) + (if t in readers then {b} else {}) + (if t == b then written else {}),
      map t | t in g.dependents.Keys + written + {b} ::
        g.Dependents(t) + (if t in written then {b} else {}) + (if t == b then readers else {}))
  }

  lemma LinkedEdges(g: Tasks, b: TaskId, readers: set<TaskId>, written: set<TaskId>, t: TaskId)
    ensures var h := Linked(g, b, readers, written);
      && h.Dependencies(t) == g.Dependencies(t) + (if t in readers then {b} else {}) + (if t == b then written else {})
      && h.Dependents(t) == g.Dependents(t) + (if t in written then {b} else {}) + (if t == b then readers else {})
  {
  }

  lemma LinkedMirrored(g: Tasks, b: TaskId, readers: set<TaskId>, written: set<TaskId>)
    requires Mirrored(g)
    ensures Mirrored(Linked(g, b, readers, written))
  {
    var h := Linked(g, b, readers, written);
    forall t, u ensures u in h.Dependents(t) <==> t in h.Dependencies(u) {
      LinkedEdges(g, b, readers, written, t);
      LinkedEdges(g, b, readers, written, u);
    }
  }

  function LinkedTo(
    dag: Dag, g: Tasks, d: Dset, x: Dset): Tasks { Linked(g, Barrier(x), TasksOf(dag, d), TasksOf(dag, x)) }

  lemma LinkedListed(dag: Dag, g: Tasks, d: Dset, x: Dset, making: set<TaskId>, t: TaskId)
    requires Acyclic(dag) && Exact(dag, g, making) && x in SyncSources(dag, d) && t in g.order
    ensures LinkedTo(dag, g, d, x).Dependencies(t) == g.Dependencies(t)
  {
    LinkedEdges(g, Barrier(x), TasksOf(dag, d), TasksOf(dag, x), t);
    assert g.Dependencies(t) == Expected(dag, t);
    if t in TasksOf(dag, d) {
      assert Barrier(x) in Expected(dag, t);
    }
  }

  lemma LinkedBarrier(dag: Dag, g: Tasks, d: Dset, x: Dset, making: set<TaskId>)
    requires Acyclic(dag) && Exact(dag, g, making) && Barrier(x) !in g.order && Barrier(x) !in making
    ensures LinkedTo(dag, g, d, x).Dependencies(Barrier(x)) == TasksOf(dag, x)
  {
    LinkedEdges(g, Barrier(x), TasksOf(dag, d), TasksOf(dag, x), Barrier(x));
  }

  lemma LinkedOther(dag: Dag, g: Tasks, d: Dset, x: Dset, t: TaskId)
    requires t !in TasksOf(dag, d) && t != Barrier(x)
    ensures LinkedTo(dag, g, d, x).Dependencies(t) == g.Dependencies(t)
  {
    LinkedEdges(g, Barrier(x), TasksOf(dag, d), TasksOf(dag, x), t);
  }

  /** Linking a dataset to a barrier it waits for. */
  lemma LinkedExact(dag: Dag, g: Tasks, d: Dset, x: Dset, making: set<TaskId>)
    requires Acyclic(dag) && Exact(dag, g, making) && x in SyncSources(dag, d) && TasksOf(dag, d) <= making
    requires Barrier(x) !in making
    ensures Exact(dag, LinkedTo(dag, g, d, x), making)
  {
    var h := LinkedTo(dag, g, d, x);
    forall t | t in h.order
      ensures h.Dependencies(t) == Expected(dag, t) && (t.Compute? ==> t.part < dag.parts(t.dset))
    {
      if t in g.order {
        LinkedListed(dag, g, d, x, making, t);
      } else {
        assert t == Barrier(x);
        LinkedBarrier(dag, g, d, x, making);
      }
    }
    forall t | t !in h.order && t !in making ensures h.Dependencies(t) == {} {
      LinkedOther(dag, g, d, x, t);
    }
    forall t, u | t in h.order && t.Compute? && u in TasksOf(dag, t.dset) ensures u in h.order {
      assert t in g.order && u in g.order;
    }
  }

  /** The computing tasks are of datasets with no task listed. */
  ghost predicate NewDatasets(g: Tasks, extra: seq<TaskId>) {
    forall i, t :: 0 <= i < |extra| && extra[i].Compute? && t in g.order && t.Compute? ==> t.dset != extra[i].dset
  }

  lemma AppendInPartOrder(g: Tasks, extra: seq<TaskId>)
    requires InPartOrder(g.order) && InPartOrder(extra) && NewDatasets(g, extra)
    ensures InPartOrder(g.order + extra)
  {
    var all, n := g.order + extra, |g.order|;
    assert forall i :: 0 <= i < n ==> all[i] == g.order[i] && all[i] in g.order;
    assert forall i :: n <= i < |all| ==> all[i] == extra[i - n];
  }

  /** New tasks at the end of the order, after their dependencies. */
  lemma AppendSorted(g: Tasks, h: Tasks, extra: seq<TaskId>)
    requires Sorted(g) && h.order == g.order + extra
    requires NoDuplicates(extra)
    requires forall i :: 0 <= i < |extra| ==> extra[i] !in g.order
    requires forall i :: 0 <= i < |g.order| ==> h.Dependencies(g.order[i]) == g.Dependencies(g.order[i])
    requires forall i, t :: 0 <= i < |extra| && t in h.Dependencies(extra[i]) ==> t in g.order
    requires InPartOrder(extra) && NewDatasets(g, extra)
    ensures Sorted(h)
  {
    var n := |g.order|;
    AppendInPartOrder(g, extra);
    forall i, j | 0 <= i < j < |h.order| ensures h.order[i] != h.order[j] {
      assert h.order[i] == if i < n then g.order[i] else extra[i - n];
      assert h.order[j] == if j < n then g.order[j] else extra[j - n];
    }
    forall i, t | 0 <= i < |h.order| && t in h.Dependencies(h.order[i]) ensures t in h.order[..i] {
      if i < n {
        assert h.order[i] == g.order[i] && h.order[..i] == g.order[..i];
      } else {
        assert h.order[i] == extra[i - n] && t in g.order;
        assert h.order[..i] == g.order + extra[..i - n];
      }
    }
  }

  lemma LinkedSorted(dag: Dag, g: Tasks, d: Dset, x: Dset, making: set<TaskId>)
    requires Acyclic(dag) && Sorted(g) && Exact(dag, g, making) && x in SyncSources(dag, d) && Barrier(x) !in making
    requires forall t :: t in TasksOf(dag, x) ==> t in g.order
    ensures Sorted(LinkedTo(dag, g, d, x))
  {
    var h := LinkedTo(dag, g, d, x);
    var extra := if Barrier(x) in g.order then [] else [Barrier(x)];
    assert h.order == g.order + extra;
    forall i | 0 <= i < |g.order| ensures h.Dependencies(g.order[i]) == g.Dependencies(g.order[i]) {
      LinkedListed(dag, g, d, x, making, g.order[i]);
    }
    if Barrier(x) !in g.order {
      LinkedBarrier(dag, g, d, x, making);
    }
    AppendSorted(g, h, extra);
  }

  /** The tasks of d have been linked to the barriers of some of the datasets they wait for. */
  ghost predicate Progress(dag: Dag, g: Tasks, d: Dset, seen: set<Dset>)
    requires Acyclic(dag)
  {
    && (forall t :: t in TasksOf(dag, d) && t !in g.order ==> g.Dependencies(t) == Barriers(seen))
    && forall x :: x in seen ==> Barrier(x) in g.order
  }

  /** The order only grows, and the tasks being made elsewhere are left alone. */
  ghost predicate Extends(g: Tasks, h: Tasks, making: set<TaskId>) {
    && (forall t :: t in g.order ==> t in h.order)
    && forall t :: t in making ==> h.Dependencies(t) == g.Dependencies(t)
  }

  lemma LinkStep(dag: Dag, g: Tasks, d: Dset, x: Dset, making: set<TaskId>, seen: set<Dset>)
    requires Acyclic(dag) && Good(dag, g, making + TasksOf(dag, d)) && x in SyncSources(dag, d)
      && Progress(dag, g, d, seen)
    requires (forall t :: t in making ==> t.Compute? && t.dset > d) && forall t :: t in TasksOf(dag, x) ==> t in g.order
    ensures var h := LinkedTo(dag, g, d, x);
      Good(dag, h, making + TasksOf(dag, d)) && Progress(dag, h, d, seen + {x}) && Extends(g, h, making)
  {
    var h, all := LinkedTo(dag, g, d, x), making + TasksOf(dag, d);
    assert Good(dag, h, all) by {
      LinkedMirrored(g, Barrier(x), TasksOf(dag, d), TasksOf(dag, x));
      LinkedExact(dag, g, d, x, all);
      LinkedSorted(dag, g, d, x, all);
    }
    LinkProgress(dag, g, d, x, seen);
    forall t | t in making ensures h.Dependencies(t) == g.Dependencies(t) {
      LinkedOther(dag, g, d, x, t);
    }
  }

  lemma LinkProgress(dag: Dag, g: Tasks, d: Dset, x: Dset, seen: set<Dset>)
    requires Acyclic(dag) && Progress(dag, g, d, seen)
    ensures Progress(dag, LinkedTo(dag, g, d, x), d, seen + {x})
  {
    var h := LinkedTo(dag, g, d, x);
    forall t | t in TasksOf(dag, d) && t !in h.order ensures h.Dependencies(t) == Barriers(seen + {x}) {
      LinkedEdges(g, Barrier(x), TasksOf(dag, d), TasksOf(dag, x), t);
      assert t !in g.order;
      BarriersNext(seen, x);
    }
  }

  lemma BarriersNext(seen: set<Dset>, x: Dset)
    ensures Barriers(seen) + {Barrier(x)} == Barriers(seen + {x})
  {
  }

  // ---- listing the tasks of a dataset --------------------------------------------------------

  function ComputeSeq(d: Dset, n: nat): (r: seq<TaskId>)
    ensures |r| == n && forall i :: 0 <= i < n ==> r[i] == Compute(d, i)
  {
    if n == 0 then [] else ComputeSeq(d, n - 1) + [Compute(d, n - 1)]
  }

  /** Tasks that are listed keep their place. */
  method List(g: Tasks, d: Dset, n: nat) returns (h: Tasks)
    requires (forall i :: 0 <= i < n ==> Compute(d, i) in g.order)
      || (forall i :: 0 <= i < n ==> Compute(d, i) !in g.order)
    ensures h.dependencies == g.dependencies && h.dependents == g.dependents
    ensures h.order == if n > 0 && Compute(d, 0) in g.order then g.order else g.order + ComputeSeq(d, n)
  {
    h := g;
    var i := 0;
    while i < n
      invariant 0 <= i <= n && h.dependencies == g.dependencies && h.dependents == g.dependents
      invariant h.order == if n > 0 && Compute(d, 0) in g.order then g.order else g.order + ComputeSeq(d, i)
    {
      if Compute(d, i) !in h.order {
        h := h.(order := h.order + [Compute(d, i)]);
      }
      i := i + 1;
    }
  }

  /** The same edges, and the tasks of d at the end of the order. */
  ghost predicate ListedAfter(dag: Dag, g: Tasks, h: Tasks, d: Dset, mine: seq<TaskId>) {
    && (forall t :: h.Dependencies(t) == g.Dependencies(t)) && (forall t :: h.Dependents(t) == g.Dependents(t))
    && (forall t :: t in h.order <==> t in g.order || t in mine)
    && (forall t :: t in mine <==> t in TasksOf(dag, d))
    && (forall t :: t in mine ==> t !in g.order)
  }

  lemma ListedGood(dag: Dag, g: Tasks, h: Tasks, d: Dset, making: set<TaskId>, mine: seq<TaskId>)
    requires Acyclic(dag) && Good(dag, g, making + TasksOf(dag, d)) && Progress(dag, g, d, SyncSources(dag, d))
    requires ListedAfter(dag, g, h, d, mine) && h.order == g.order + mine && NoDuplicates(mine) && InPartOrder(mine)
    ensures Good(dag, h, making)
  {
    ListedExact(dag, g, h, d, making, mine);
    AfterBarriers(dag, g, h, d, mine);
    forall i, t | 0 <= i < |mine| && mine[i].Compute? && t in g.order && t.Compute? ensures t.dset != mine[i].dset {
      assert mine[i] in mine && mine[i] in TasksOf(dag, d);
    }
    AppendSorted(g, h, mine);
  }

  lemma AfterBarriers(dag: Dag, g: Tasks, h: Tasks, d: Dset, mine: seq<TaskId>)
    requires Acyclic(dag) && Progress(dag, g, d, SyncSources(dag, d)) && ListedAfter(dag, g, h, d, mine)
    ensures forall i, t :: 0 <= i < |mine| && t in h.Dependencies(mine[i]) ==> t in g.order
  {
    forall i, t | 0 <= i < |mine| && t in h.Dependencies(mine[i]) ensures t in g.order {
      assert mine[i] in mine;
      assert t in Barriers(SyncSources(dag, d));
    }
  }

  lemma ListedExact(dag: Dag, g: Tasks, h: Tasks, d: Dset, making: set<TaskId>, mine: seq<TaskId>)
    requires Acyclic(dag) && Exact(dag, g, making + TasksOf(dag, d)) && Progress(dag, g, d, SyncSources(dag, d))
    requires ListedAfter(dag, g, h, d, mine)
    ensures Exact(dag, h, making)
  {
    forall t | t in h.order
      ensures h.Dependencies(t) == Expected(dag, t) && (t.Compute? ==> t.part < dag.parts(t.dset))
    {
      if t in mine {
        assert g.Dependencies(t) == Barriers(SyncSources(dag, d));
      }
    }
  }

  lemma NotListed(dag: Dag, g: Tasks, d: Dset, t: TaskId)
    requires Together(dag, g) && Compute(d, 0) !in g.order && t in TasksOf(dag, d)
    ensures t !in g.order
  {
    assert Compute(d, 0) in TasksOf(dag, d);
  }

  lemma IsListedAfter(dag: Dag, g: Tasks, h: Tasks, d: Dset)
    requires Together(dag, g) && h.dependencies == g.dependencies && h.dependents == g.dependents
    requires h.order == g.order + ComputeSeq(d, dag.parts(d)) && (dag.parts(d) == 0 || Compute(d, 0) !in g.order)
    ensures ListedAfter(dag, g, h, d, ComputeSeq(d, dag.parts(d)))
  {
    var mine := ComputeSeq(d, dag.parts(d));
    forall t ensures t in mine <==> t in TasksOf(dag, d) {
      assert t in TasksOf(dag, d) ==> mine[t.part] == t;
    }
    forall t | t in mine ensures t !in g.order {
      NotListed(dag, g, d, t);
    }
  }

  lemma AlreadyListed(dag: Dag, g: Tasks, d: Dset, making: set<TaskId>)
    requires Acyclic(dag) && Good(dag, g, making + TasksOf(dag, d)) && Compute(d, 0) in g.order && dag.parts(d) > 0
    ensures Good(dag, g, making) && forall t :: t in TasksOf(dag, d) ==> t in g.order
  {
    assert forall t :: t in TasksOf(dag, d) ==> t in g.order;
  }

  /** What is needed for d: its tasks, and for each dataset it waits for the barrier and what is needed for it. */
  ghost predicate Needed(dag: Dag, d: Dset, t: TaskId)
    requires Acyclic(dag)
    decreases d
  {
    t in TasksOf(dag, d) || exists x :: x in SyncSources(dag, d) && x < d && (t == Barrier(x) || Needed(dag, x, t))
  }

  ghost predicate NeededFor(dag: Dag, xs: set<Dset>, t: TaskId)
    requires Acyclic(dag)
  {
    exists x :: x in xs && (t == Barrier(x) || Needed(dag, x, t))
  }

  /** Exactly what is needed for some datasets was listed. */
  ghost predicate ListsFor(dag: Dag, start: Tasks, g: Tasks, xs: set<Dset>)
    requires Acyclic(dag)
  {
    forall t :: t in g.order <==> t in start.order || NeededFor(dag, xs, t)
  }

  ghost predicate Lists(dag: Dag, start: Tasks, g: Tasks, d: Dset)
    requires Acyclic(dag)
  {
    forall t :: t in g.order <==> t in start.order || Needed(dag, d, t)
  }

  lemma NeededFrom(dag: Dag, d: Dset, t: TaskId)
    requires Acyclic(dag)
    ensures Needed(dag, d, t) <==> t in TasksOf(dag, d) || NeededFor(dag, SyncSources(dag, d), t)
  {
    SyncBelow(dag, d, 0);
  }

  lemma ListsOneMore(dag: Dag, start: Tasks, g: Tasks, m: Tasks, d: Dset, x: Dset, seen: set<Dset>)
    requires Acyclic(dag) && ListsFor(dag, start, g, seen) && Lists(dag, g, m, x)
    ensures ListsFor(dag, start, LinkedTo(dag, m, d, x), seen + {x})
  {
    var h := LinkedTo(dag, m, d, x);
    forall t ensures t in h.order <==> t in start.order || NeededFor(dag, seen + {x}, t) {
      assert t in h.order <==> t in m.order || t == Barrier(x);
      NeededForOneMore(dag, seen, x, t);
    }
  }

  lemma NeededForOneMore(dag: Dag, seen: set<Dset>, x: Dset, t: TaskId)
    requires Acyclic(dag)
    ensures NeededFor(dag, seen + {x}, t) <==> NeededFor(dag, seen, t) || t == Barrier(x) || Needed(dag, x, t)
  {
  }

  lemma ListsAll(dag: Dag, start: Tasks, linked: Tasks, g: Tasks, d: Dset)
    requires Acyclic(dag) && ListsFor(dag, start, linked, SyncSources(dag, d))
    requires forall t :: t in g.order <==> t in linked.order || t in TasksOf(dag, d)
    ensures Lists(dag, start, g, d)
  {
    forall t ensures t in g.order <==> t in start.order || Needed(dag, d, t) {
      NeededFrom(dag, d, t);
    }
  }

  /** The barriers of the datasets that d waits for, with everything needed for them. */
  method LinkSources(dag: Dag, d: Dset, start: Tasks, ghost making: set<TaskId>) returns (g: Tasks)
    requires Acyclic(dag) && Good(dag, start, making + TasksOf(dag, d)) && Progress(dag, start, d, {})
    requires forall t :: t in making ==> t.Compute? && t.dset > d
    ensures Good(dag, g, making + TasksOf(dag, d)) && Extends(start, g, making)
      && Progress(dag, g, d, SyncSources(dag, d))
    ensures ListsFor(dag, start, g, SyncSources(dag, d))
    decreases d, 0
  {
    g := start;
    var found := Traverse(dag, d);
    forall x ensures x in found <==> x in SyncSources(dag, d) {
      SyncSourcesArePaths(dag, d, x);
    }
    SyncBelow(dag, d, 0);
    ghost var seen: set<Dset> := {};
    var k := 0;
    while k < |found|
      invariant 0 <= k <= |found| && Good(dag, g, making + TasksOf(dag, d)) && Extends(start, g, making)
      invariant Progress(dag, g, d, seen) && seen == SeenUpTo(found, k)
      invariant ListsFor(dag, start, g, seen)
    {
      assert found[k] in SyncSources(dag, d);
      g := LinkSource(dag, d, found[k], g, making, seen, start);
      SeenNext(found, k);
      seen := seen + {found[k]};
      k := k + 1;
    }
  }

  ghost function SeenUpTo(found: seq<Dset>, k: nat): (r: set<Dset>)
    requires k <= |found|
    ensures k == |found| ==> forall x :: x in r <==> x in found
  {
    set i | 0 <= i < k :: found[i]
  }

  lemma SeenNext(found: seq<Dset>, k: nat)
    requires k < |found|
    ensures SeenUpTo(found, k + 1) == SeenUpTo(found, k) + {found[k]}
  {
  }

  method LinkSource(
    dag: Dag, d: Dset, x: Dset, start: Tasks, ghost making: set<TaskId>, ghost seen: set<Dset>,
    ghost first: Tasks) returns (g: Tasks)
    requires Acyclic(dag) && Good(dag, start, making + TasksOf(dag, d)) && Progress(dag, start, d, seen)
    requires x in SyncSources(dag, d) && x < d && forall t :: t in making ==> t.Compute? && t.dset > d
    requires ListsFor(dag, first, start, seen)
    ensures Good(dag, g, making + TasksOf(dag, d)) && Extends(start, g, making) && Progress(dag, g, d, seen + {x})
    ensures ListsFor(dag, first, g, seen + {x})
    decreases x, 2
  {
    g := Generate(dag, x, start, making + TasksOf(dag, d));
    StillProgress(dag, start, g, d, making, seen);
    LinkStep(dag, g, d, x, making, seen);
    ListsOneMore(dag, first, start, g, d, x, seen);
    g := LinkedTo(dag, g, d, x);
  }

  lemma StillProgress(dag: Dag, g: Tasks, h: Tasks, d: Dset, making: set<TaskId>, seen: set<Dset>)
    requires Acyclic(dag) && Progress(dag, g, d, seen) && Extends(g, h, making + TasksOf(dag, d))
    ensures Progress(dag, h, d, seen) && Extends(g, h, making)
  {
  }

  lemma StartsProgress(dag: Dag, g: Tasks, d: Dset, making: set<TaskId>)
    requires Acyclic(dag) && Good(dag, g, making) && forall t :: t in making ==> t.dset > d
    ensures Good(dag, g, making + TasksOf(dag, d)) && Progress(dag, g, d, {})
  {
    assert Barriers({}) == {};
  }

  /** Everything needed for d, in an order in which it can be executed. */
  method Generate(dag: Dag, d: Dset, start: Tasks, ghost making: set<TaskId>) returns (g: Tasks)
    requires Acyclic(dag) && Good(dag, start, making) && forall t :: t in making ==> t.Compute? && t.dset > d
    ensures Good(dag, g, making) && Extends(start, g, making) && Lists(dag, start, g, d)
    ensures forall t :: t in TasksOf(dag, d) ==> t in g.order
    decreases d, 1
  {
    StartsProgress(dag, start, d, making);
    var linked := LinkSources(dag, d, start, making);
    if dag.parts(d) > 0 && Compute(d, 0) in linked.order {
      AlreadyListed(dag, linked, d, making);
    } else {
      ListsNone(dag, linked, d);
    }
    g := List(linked, d, dag.parts(d));
    if dag.parts(d) == 0 || Compute(d, 0) !in linked.order {
      IsListedAfter(dag, linked, g, d);
      ListedGood(dag, linked, g, d, making, ComputeSeq(d, dag.parts(d)));
    } else {
      SameTasks(linked, g);
    }
    ListsAll(dag, start, linked, g, d);
  }

  lemma ListsNone(dag: Dag, g: Tasks, d: Dset)
    requires Together(dag, g) && (dag.parts(d) == 0 || Compute(d, 0) !in g.order)
    ensures forall i :: 0 <= i < dag.parts(d) ==> Compute(d, i) !in g.order
  {
    forall i | 0 <= i < dag.parts(d) ensures Compute(d, i) !in g.order {
      NotListed(dag, g, d, Compute(d, i));
    }
  }

  lemma SameTasks(g: Tasks, h: Tasks)
    requires h.dependencies == g.dependencies && h.dependents == g.dependents && h.order == g.order
    ensures g == h
  {
  }

  // ---- what is required ----------------------------------------------------------------------

  /** The tasks of d, and the tasks and the barrier of each synchronized dataset upstream of it. */
  ghost predicate Required(dag: Dag, d: Dset, t: TaskId) {
    t in TasksOf(dag, d)
      || (dag.sync(t.dset) && Upstream(dag, d, t.dset) && (t.Barrier? || t.part < dag.parts(t.dset)))
  }

  lemma JoinPaths(dag: Dag, p: seq<Dset>, q: seq<Dset>)
    requires SourcePath(dag, p) && SourcePath(dag, q) && p[|p| - 1] == q[0]
    ensures Upstream(dag, p[0], q[|q| - 1])
  {
    var r := p + q[1..];
    forall i | 0 <= i < |r| - 1 ensures r[i + 1] in dag.sources(r[i]) {
      if i < |p| - 1 {
        assert p[i + 1] in dag.sources(p[i]);
      } else {
        assert q[i - |p| + 1 + 1] in dag.sources(q[i - |p| + 1]);
      }
    }
    assert SourcePath(dag, r) && r[0] == p[0] && r[|r| - 1] == q[|q| - 1];
  }

  lemma {:induction false} NeededIsRequired(dag: Dag, d: Dset, t: TaskId)
    requires Acyclic(dag) && Needed(dag, d, t)
    ensures Required(dag, d, t)
    decreases d
  {
    if t !in TasksOf(dag, d) {
      var x :| x in SyncSources(dag, d) && x < d && (t == Barrier(x) || Needed(dag, x, t));
      var p := SyncPath(dag, d, 0, x);
      if t != Barrier(x) {
        NeededIsRequired(dag, x, t);
        if t !in TasksOf(dag, x) {
          var q :| SourcePath(dag, q) && q[0] == x && q[|q| - 1] == t.dset;
          JoinPaths(dag, p, q);
        }
      }
    }
  }

  /** The first synchronized dataset on a path that ends with one. */
  lemma {:induction false} FirstSync(dag: Dag, p: seq<Dset>, i: nat) returns (k: nat)
    requires SourcePath(dag, p) && dag.sync(p[|p| - 1]) && 0 < i < |p| && forall j :: 0 < j < i ==> !dag.sync(p[j])
    ensures 0 < k < |p| && WaitPath(dag, p[..k + 1])
    decreases |p| - i
  {
    if dag.sync(p[i]) {
      k := i;
    } else {
      k := FirstSync(dag, p, i + 1);
    }
  }

  lemma {:induction false} RequiredIsNeeded(dag: Dag, d: Dset, t: TaskId)
    requires Acyclic(dag) && Required(dag, d, t)
    ensures Needed(dag, d, t)
    decreases d
  {
    if t !in TasksOf(dag, d) {
      var p :| SourcePath(dag, p) && p[0] == d && p[|p| - 1] == t.dset;
      var k := FirstSync(dag, p, 1);
      var x := p[k];
      PathSync(dag, p[..k + 1]);
      SyncBelow(dag, d, 0);
      if t != Barrier(x) {
        if k < |p| - 1 {
          var rest := p[k..];
          forall i | 0 <= i < |rest| - 1 ensures rest[i + 1] in dag.sources(rest[i]) {
            assert p[k + i + 1] in dag.sources(p[k + i]);
          }
          assert SourcePath(dag, rest) && rest[0] == x && rest[|rest| - 1] == t.dset;
        }
        RequiredIsNeeded(dag, x, t);
      }
    }
  }

  /** A task waits for the barriers of the datasets its own waits for, and a barrier for the tasks of its dataset. */
  ghost predicate RightEdges(dag: Dag, g: Tasks) {
    forall t, u :: t in g.order ==>
      (u in g.Dependencies(t) <==>
        if t.Compute? then u.Barrier? && WaitsFor(dag, t.dset, u.dset)
        else u.Compute? && u.dset == t.dset && u.part < dag.parts(t.dset))
  }

  lemma GoodEdges(dag: Dag, g: Tasks)
    requires Acyclic(dag) && Good(dag, g, {})
    ensures RightEdges(dag, g)
  {
    forall t, u | t in g.order
      ensures u in g.Dependencies(t) <==>
        if t.Compute? then u.Barrier? && WaitsFor(dag, t.dset, u.dset)
        else u.Compute? && u.dset == t.dset && u.part < dag.parts(t.dset)
    {
      assert g.Dependencies(t) == Expected(dag, t);
      SyncSourcesArePaths(dag, t.dset, u.dset);
    }
  }

  /** The tasks of a dataset: exactly those required, ordered, mirrored and with the right edges. */
  method TasksFor(dag: Dag, d: Dset) returns (g: Tasks)
    requires Acyclic(dag)
    ensures Good(dag, g, {}) && RightEdges(dag, g) && forall t :: t in g.order <==> Required(dag, d, t)
  {
    g := Generate(dag, d, Tasks([], map[], map[]), {});
    GoodEdges(dag, g);
    forall t ensures t in g.order <==> Required(dag, d, t) {
      if Needed(dag, d, t) {
        NeededIsRequired(dag, d, t);
      }
      if Required(dag, d, t) {
        RequiredIsNeeded(dag, d, t);
      }
    }
  }

  // ---- barriers stand for all-to-all edges ---------------------------------------------------

  /** The edge a barrier replaces: from a task to a task of a synchronized dataset it waits for. */
  ghost predicate Direct(dag: Dag, a: TaskId, c: TaskId)
    requires Acyclic(dag)
  {
    a.Compute? && c.Compute? && WaitsFor(dag, a.dset, c.dset) && c.part < dag.parts(c.dset)
  }

  ghost predicate Step(g: Tasks, a: TaskId, c: TaskId) { c in g.Dependencies(a) }

  ghost predicate Through(g: Tasks, a: TaskId, b: TaskId, c: TaskId) { Step(g, a, b) && Step(g, b, c) }

  lemma DependencyListed(g: Tasks, a: TaskId, b: TaskId)
    requires Sorted(g) && a in g.order && Step(g, a, b)
    ensures b in g.order
  {
    var i :| 0 <= i < |g.order| && g.order[i] == a;
    assert b in g.order[..i];
  }

  lemma TwoSteps(dag: Dag, g: Tasks, a: TaskId, c: TaskId)
    requires Acyclic(dag) && Good(dag, g, {}) && a in g.order && a.Compute?
    ensures (exists b :: Through(g, a, b, c)) <==> Direct(dag, a, c)
    ensures Direct(dag, a, c) ==> c in g.order
  {
    SyncSourcesArePaths(dag, a.dset, c.dset);
    if b :| Through(g, a, b, c) {
      DependencyListed(g, a, b);
      assert b in Barriers(SyncSources(dag, a.dset));
      DependencyListed(g, b, c);
    }
    if Direct(dag, a, c) {
      var b := Barrier(c.dset);
      assert b in Expected(dag, a) && Step(g, a, b);
      DependencyListed(g, a, b);
      assert c in Expected(dag, b);
      assert Through(g, a, b, c);
    }
  }

  ghost predicate IsPath(edge: (TaskId, TaskId) -> bool, ts: seq<TaskId>) {
    ts != [] && forall i :: 0 <= i < |ts| - 1 ==> edge(ts[i], ts[i + 1])
  }

  /** There is a path from a to c. */
  ghost predicate Reaches(edge: (TaskId, TaskId) -> bool, a: TaskId, c: TaskId) {
    exists ts :: IsPath(edge, ts) && ts[0] == a && ts[|ts| - 1] == c
  }

  /** Two steps from a computing task make one direct edge to another, with a task of another kind in between. */
  ghost predicate Bridges(step: (TaskId, TaskId) -> bool, direct: (TaskId, TaskId) -> bool, computing: TaskId -> bool) {
    && (forall a, b, c :: computing(a) && step(a, b) && step(b, c) ==> direct(a, c))
    && (forall a, c :: computing(a) && direct(a, c) ==> computing(c) && exists b :: step(a, b) && step(b, c))
    && forall a, b :: computing(a) && step(a, b) ==> !computing(b)
  }

  /** On a path, every other task is a computing one. */
  lemma {:induction false} Alternates(
    step: (TaskId, TaskId) -> bool, direct: (TaskId, TaskId) -> bool, computing: TaskId -> bool,
    ts: seq<TaskId>, i: nat)
    requires Bridges(step, direct, computing) && IsPath(step, ts) && computing(ts[0]) && i < |ts|
    ensures computing(ts[i]) <==> i % 2 == 0
    ensures i >= 2 && i % 2 == 0 ==> direct(ts[i - 2], ts[i])
  {
    if i >= 2 {
      Alternates(step, direct, computing, ts, i - 2);
      assert step(ts[i - 2], ts[i - 2 + 1]) && step(ts[i - 1], ts[i - 1 + 1]);
      if i % 2 == 1 {
        Alternates(step, direct, computing, ts, i - 1);
      }
    } else if i == 1 {
      assert step(ts[0], ts[0 + 1]);
    }
  }

  lemma PathIsDirect(
    step: (TaskId, TaskId) -> bool, direct: (TaskId, TaskId) -> bool, computing: TaskId -> bool,
    ts: seq<TaskId>)
    returns (ds: seq<TaskId>)
    requires Bridges(step, direct, computing) && IsPath(step, ts) && computing(ts[0]) && computing(ts[|ts| - 1])
    ensures IsPath(direct, ds) && ds[0] == ts[0] && ds[|ds| - 1] == ts[|ts| - 1]
  {
    Alternates(step, direct, computing, ts, |ts| - 1);
    ds := seq(|ts| / 2 + 1, i requires 0 <= i < |ts| / 2 + 1 => ts[2 * i]);
    forall i | 0 <= i < |ds| - 1 ensures direct(ds[i], ds[i + 1]) {
      Alternates(step, direct, computing, ts, 2 * i + 2);
    }
  }

  lemma {:induction false} DirectIsPath(
    step: (TaskId, TaskId) -> bool, direct: (TaskId, TaskId) -> bool, computing: TaskId -> bool,
    ds: seq<TaskId>)
    returns (ts: seq<TaskId>)
    requires Bridges(step, direct, computing) && IsPath(direct, ds) && computing(ds[0])
    ensures IsPath(step, ts) && ts[0] == ds[0] && ts[|ts| - 1] == ds[|ds| - 1]
    decreases |ds|
  {
    if |ds| == 1 {
      ts := ds;
    } else {
      assert direct(ds[0], ds[0 + 1]);
      var b :| step(ds[0], b) && step(b, ds[1]);
      var tail := ds[1..];
      forall i | 0 <= i < |tail| - 1 ensures direct(tail[i], tail[i + 1]) {
        assert direct(ds[i + 1], ds[i + 1 + 1]);
      }
      var rest := DirectIsPath(step, direct, computing, tail);
      ts := [ds[0], b] + rest;
      forall i | 0 <= i < |ts| - 1 ensures step(ts[i], ts[i + 1]) {
        assert i >= 2 ==> step(rest[i - 2], rest[i - 2 + 1]);
      }
    }
  }

  ghost function StepEdge(g: Tasks): (TaskId, TaskId) -> bool { (a: TaskId, c: TaskId) => c in g.Dependencies(a) }

  ghost function DirectEdge(dag: Dag): (TaskId, TaskId) -> bool
    requires Acyclic(dag)
  {
    (a: TaskId, c: TaskId) => a.Compute? && c.Compute? && WaitsFor(dag, a.dset, c.dset) && c.part < dag.parts(c.dset)
  }

  ghost function Computing(g: Tasks): TaskId -> bool { (a: TaskId) => a.Compute? && a in g.order }

  lemma BarriersBridge(dag: Dag, g: Tasks)
    requires Acyclic(dag) && Good(dag, g, {})
    ensures Bridges(StepEdge(g), DirectEdge(dag), Computing(g))
  {
    var step, direct, computing := StepEdge(g), DirectEdge(dag), Computing(g);
    forall a, b, c | computing(a) && step(a, b) && step(b, c) ensures direct(a, c) {
      assert Through(g, a, b, c);
      TwoSteps(dag, g, a, c);
    }
    forall a, c | computing(a) && direct(a, c) ensures computing(c) && exists b :: step(a, b) && step(b, c) {
      TwoSteps(dag, g, a, c);
      var b :| Through(g, a, b, c);
      assert step(a, b) && step(b, c);
    }
    forall a, b | computing(a) && step(a, b) ensures !computing(b) {
      assert b in Barriers(SyncSources(dag, a.dset));
    }
  }

  /** Computing tasks depend on one another, directly or not, as if there were no barriers. */
  lemma BarriersKeepDependencies(dag: Dag, g: Tasks, a: TaskId, c: TaskId)
    requires Acyclic(dag) && Good(dag, g, {}) && Computing(g)(a) && Computing(g)(c)
    ensures Reaches(StepEdge(g), a, c) <==> Reaches(DirectEdge(dag), a, c)
  {
    BarriersBridge(dag, g);
    SamePaths(StepEdge(g), DirectEdge(dag), Computing(g), a, c);
  }

  lemma SamePaths(
    step: (TaskId, TaskId) -> bool, direct: (TaskId, TaskId) -> bool, computing: TaskId -> bool, a: TaskId,
    c: TaskId)
    requires Bridges(step, direct, computing) && computing(a) && computing(c)
    ensures Reaches(step, a, c) <==> Reaches(direct, a, c)
  {
    if ts :| IsPath(step, ts) && ts[0] == a && ts[|ts| - 1] == c {
      var ds := PathIsDirect(step, direct, computing, ts);
    }
    if ds :| IsPath(direct, ds) && ds[0] == a && ds[|ds| - 1] == c {
      var ts := DirectIsPath(step, direct, computing, ds);
    }
  }

  // ---- for the scheduler ---------------------------------------------------------------------

  /** The positions in the order of the tasks in a set. */
  function Positions(order: seq<TaskId>, ts: set<TaskId>, n: nat): (r: seq<nat>)
    requires n <= |order|
    ensures forall i: nat :: i in r <==> i < n && order[i] in ts
  {
    if n == 0 then [] else Positions(order, ts, n - 1) + (if order[n - 1] in ts then [n - 1] else [])
  }

  function DependencyPositions(g: Tasks): nat -> seq<nat> {
    (i: nat) => if i < |g.order| then Positions(g.order, g.Dependencies(g.order[i]), |g.order|) else []
  }

  function DependentPositions(g: Tasks): nat -> seq<nat> {
    (i: nat) => if i < |g.order| then Positions(g.order, g.Dependents(g.order[i]), |g.order|) else []
  }

  function Height(g: Tasks): nat -> nat { (i: nat) => if i < |g.order| then |g.order| - i else 0 }

  function ForScheduler(g: Tasks, maxAttempts: nat -> nat): SchedulerModel.Graph {
    SchedulerModel.Graph(DependencyPositions(g), DependentPositions(g), Height(g), (i: nat) => i, maxAttempts,
                         (i: nat) => i < |g.order| && g.order[i].Compute?)
  }

  function Job(g: Tasks): seq<nat> { seq(|g.order|, i requires 0 <= i < |g.order| => i) }

  /** The tasks generated are a job the scheduler accepts: a well-formed graph, closed under its edges. */
  lemma GeneratedIsWellFormed(dag: Dag, g: Tasks, maxAttempts: nat -> nat)
    requires Acyclic(dag) && Good(dag, g, {})
    ensures SchedulerModel.WellFormed(ForScheduler(g, maxAttempts))
      && SchedulerModel.ClosedJob(ForScheduler(g, maxAttempts), Job(g))
    ensures forall t: nat, u: nat :: u in ForScheduler(g, maxAttempts).dependents(t) ==>
      ForScheduler(g, maxAttempts).priority(t) < ForScheduler(g, maxAttempts).priority(u)
  {
    var s := ForScheduler(g, maxAttempts);
    forall t: nat, u: nat | u in s.dependents(t) ensures s.priority(t) < s.priority(u) {
      PositionEdges(g, t, u);
      EarlierPosition(g, t, u);
    }
    forall t: nat, u: nat ensures u in s.dependents(t) <==> t in s.dependencies(u) {
      PositionEdges(g, t, u);
    }
    forall t: nat, u: nat | u in s.dependents(t) ensures s.height(u) < s.height(t) {
      PositionEdges(g, t, u);
      EarlierPosition(g, t, u);
    }
    forall i: nat ensures i in Job(g) <==> i < |g.order| {
      assert i < |g.order| ==> Job(g)[i] == i;
    }
    forall t: nat, u: nat ensures u in s.dependents(t) ==> u in Job(g) && t in Job(g) {
      PositionEdges(g, t, u);
    }
  }

  /** Computing tasks depend on barriers only, and barriers on computing tasks only. */
  lemma GeneratedAlternates(dag: Dag, g: Tasks, maxAttempts: nat -> nat, t: nat, u: nat)
    requires Acyclic(dag) && Good(dag, g, {}) && u in ForScheduler(g, maxAttempts).dependents(t)
    ensures var s := ForScheduler(g, maxAttempts);
      t < |g.order| && u < |g.order| && s.computes(u) == g.order[u].Compute? == g.order[t].Barrier? == !s.computes(t)
  {
    PositionEdges(g, t, u);
    assert g.order[u] in g.order && g.Dependencies(g.order[u]) == Expected(dag, g.order[u]);
  }

  lemma PositionEdges(g: Tasks, t: nat, u: nat)
    requires Mirrored(g)
    ensures u in DependentPositions(g)(t) <==>
      t < |g.order| && u < |g.order| && g.order[t] in g.Dependencies(g.order[u])
    ensures t in DependencyPositions(g)(u) <==> u in DependentPositions(g)(t)
  {
  }

  lemma EarlierPosition(g: Tasks, t: nat, u: nat)
    requires Sorted(g) && t < |g.order| && u < |g.order| && g.order[t] in g.Dependencies(g.order[u])
    ensures t < u
  {
    assert g.order[t] in g.order[..u];
    var k :| 0 <= k < u && g.order[k] == g.order[t];
  }

  lemma {:induction false} PositionsAscend(order: seq<TaskId>, ts: set<TaskId>, n: nat)
    requires n <= |order|
    ensures forall i, j :: 0 <= i < j < |Positions(order, ts, n)| ==>
      Positions(order, ts, n)[i] < Positions(order, ts, n)[j]
  {
    if n > 0 {
      PositionsAscend(order, ts, n - 1);
      var before := Positions(order, ts, n - 1);
      assert forall i :: 0 <= i < |before| ==> before[i] in before;
    }
  }

  /** Where every dataset waits for at most one other, the graph is layered. */
  lemma GeneratedIsLayered(dag: Dag, g: Tasks, maxAttempts: nat -> nat)
    requires Acyclic(dag) && Good(dag, g, {})
    requires forall d, x, y :: WaitsFor(dag, d, x) && WaitsFor(dag, d, y) ==> x == y
    ensures SchedulerProgress.Layered(ForScheduler(g, maxAttempts))
  {
    var s := ForScheduler(g, maxAttempts);
    forall d, x, y | x in SyncSources(dag, d) && y in SyncSources(dag, d) ensures x == y {
      SyncSourcesArePaths(dag, d, x);
      SyncSourcesArePaths(dag, d, y);
    }
    forall u, a, b | a in s.dependencies(u) && b in s.dependencies(u)
      ensures SchedulerProgress.SameDependencies(s, a, b)
    {
      SameExpected(dag, g, u, a, b);
    }
    forall t: nat, i, j | 0 <= i < j < |s.dependents(t)| ensures s.dependents(t)[i] != s.dependents(t)[j] {
      PositionsAscend(g.order, g.Dependents(g.order[t]), |g.order|);
    }
  }

  lemma SameExpected(dag: Dag, g: Tasks, u: nat, a: nat, b: nat)
    requires Acyclic(dag) && Good(dag, g, {})
    requires forall d, x, y :: x in SyncSources(dag, d) && y in SyncSources(dag, d) ==> x == y
    requires a in DependencyPositions(g)(u) && b in DependencyPositions(g)(u)
    ensures a < |g.order| && b < |g.order| && g.Dependencies(g.order[a]) == g.Dependencies(g.order[b])
  {
    assert u < |g.order| && g.order[a] in g.Dependencies(g.order[u]) && g.order[b] in g.Dependencies(g.order[u]);
    assert g.order[u] in g.order && g.order[a] in g.order && g.order[b] in g.order;
    assert g.Dependencies(g.order[u]) == Expected(dag, g.order[u]);
    assert g.Dependencies(g.order[a]) == Expected(dag, g.order[a])
      && g.Dependencies(g.order[b]) == Expected(dag, g.order[b]);
  }
}

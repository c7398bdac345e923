/**
 No stuck states: on layered graphs, a run without failures never violates an assertion of the
 handlers, and when nothing is executable, running or waiting to be handled all tasks succeeded.

 A graph is layered when any two dependencies of a task share their dependencies, as is the case for
 stages of a job that are connected all to all or through barriers.  On other graphs the set of
 blockers of a task can become empty before all of its dependencies have succeeded.
 */
module SchedulerProgress {
  import opened Sequences
  import opened SchedulerModel
  import opened SchedulerSafety
  import opened SchedulerReadiness
  import opened SchedulerEmission

  ghost predicate Layered(g: Graph) {
    && (forall u, a, b :: a in g.dependencies(u) && b in g.dependencies(u) ==> SameDependencies(g, a, b))
    && (forall t :: NoDuplicates(g.dependents(t)))
  }

  ghost predicate SameDependencies(g: Graph, a: TaskId, b: TaskId) {
    forall x :: x in g.dependencies(a) ==> x in g.dependencies(b)
  }

  /** In a layered graph an edge does not bypass a task. */
  lemma NoBypass(g: Graph, u: TaskId, a: TaskId, b: TaskId)
    requires WellFormed(g) && Layered(g) && a in g.dependencies(u) && b in g.dependencies(u)
    ensures a !in g.dependencies(b)
  {
    assert SameDependencies(g, b, a);
    assert a in g.dependents(a) <==> a in g.dependencies(a);
    assert forall u :: u in g.dependents(a) ==> g.height(u) < g.height(a);
    assert a in g.dependencies(b) ==> a in g.dependencies(a);
  }

  /** Not made executable yet. */
  ghost predicate Dormant(s: State, x: TaskId) {
    !s.Get(x).started && !s.Get(x).stopped && x !in s.executable
  }

  /** Executable, running, or finished with the notification still to be handled. */
  ghost predicate Active(s: State, x: TaskId) {
    x in s.executable || s.Get(x).Running() || x in s.done
  }

  /** Became executable in this run, as opposed to tasks that were done from the start. */
  ghost predicate InRun(s: State, x: TaskId) { x in s.executable || s.Get(x).executedOn != [] }

  /**
   While the success of t is being handled, `left` holds its dependents that were not visited yet;
   for those t is still a blocker.
   */
  ghost predicate Blocks(s: State, d: TaskId, u: TaskId, t: TaskId, left: set<TaskId>) {
    Active(s, d) || (d == t && u in left)
  }

  ghost predicate Settled(s: State, d: TaskId, x: TaskId, t: TaskId, left: set<TaskId>) {
    s.Get(d).Succeeded() && !Blocks(s, d, x, t, left)
  }

  ghost predicate Clean(s: State, x: TaskId) {
    var task := s.Get(x);
    && task.exception.None? && !task.cancelled && (task.stopped ==> task.started)
    && (task.executedOn != [] ==> task.started) && (task.Running() ==> task.executedOn != [])
    && (x in s.executable ==> !task.started)
    && (x in s.executable || task.started ==> task.blocked == {})
    && (x in s.done ==> task.Succeeded() && task.executedOn != [])
  }

  ghost predicate Waits(g: Graph, s: State, u: TaskId, t: TaskId, left: set<TaskId>) {
    exists d :: d in g.dependencies(u) && !Settled(s, d, u, t, left)
  }

  ghost predicate AllClean(s: State) { forall x :: x in s.known ==> Clean(s, x) }

  /** A dormant task is blocked by its active dependencies and nothing else. */
  ghost predicate ExactBlockers(g: Graph, s: State, t: TaskId, left: set<TaskId>) {
    forall u, d :: u in s.known && Dormant(s, u) ==>
      (d in s.Get(u).blocked <==> d in g.dependencies(u) && Blocks(s, d, u, t, left))
  }

  ghost predicate AllWait(g: Graph, s: State, t: TaskId, left: set<TaskId>) {
    forall u :: u in s.known && Dormant(s, u) ==> Waits(g, s, u, t, left)
  }

  ghost predicate RunSettled(g: Graph, s: State, t: TaskId, left: set<TaskId>) {
    forall x, d :: x in s.known && InRun(s, x) && d in g.dependencies(x) ==> Settled(s, d, x, t, left)
  }

  /** The dependencies of a task become executable together. */
  ghost predicate Together(g: Graph, s: State, left: set<TaskId>) {
    forall u, a, b ::
      u in s.known && a in g.dependencies(u) && b in g.dependencies(u) && InRun(s, a) && Dormant(s, b) ==> b in left
  }

  ghost predicate Orderly(g: Graph, s: State, t: TaskId, left: set<TaskId>) {
    AllClean(s) && ExactBlockers(g, s, t, left) && AllWait(g, s, t, left) && RunSettled(g, s, t, left)
      && Together(g, s, left)
  }

  /** The phases of all tasks agree. */
  ghost predicate SamePhases(s: State, r: State) {
    r.known == s.known && forall x ::
      && Active(r, x) == Active(s, x) && Dormant(r, x) == Dormant(s, x) && InRun(r, x) == InRun(s, x)
      && r.Get(x).Succeeded() == s.Get(x).Succeeded()
  }

  ghost predicate Tidy(g: Graph, s: State) {
    && Closed(g, s) && s.executable <= s.known && s.known !! s.released
    && (forall x :: x in s.done ==> x in s.known || x in s.released)
    && NoDuplicates(s.done)
  }

  ghost predicate Progressing(g: Graph, s: State) { Orderly(g, s, 0, {}) && Tidy(g, s) }

  /** Events of a run without failures. */
  ghost predicate FailureFree(s: State, ev: Event) {
    match ev
    case Submission(_) => true
    case Cancellation(_) => true
    case Finish(t, _) => s.Get(t).Running()
    case AddExecutor(_, _) => true
    case RemoveExecutor(_) => true
    case SetConnected(_, _) => true
    case SetAvoided(_, _) => true
    case Drain => true
    case Choose(_) => true
    case _ => false
  }

  // ---- the success of a task -----------------------------------------------------------------

  /** What is known while the success of t is handled. */
  ghost predicate Handling(g: Graph, s: State, t: TaskId, left: set<TaskId>) {
    && WellFormed(g) && Layered(g) && Tidy(g, s) && Orderly(g, s, t, left)
    && t in s.known && s.Get(t).Succeeded() && InRun(s, t) && !Active(s, t)
    && (forall x :: x in left ==> x in g.dependents(t))
  }

  lemma SamePhasesWait(g: Graph, s: State, r: State, t: TaskId, left: set<TaskId>, u: TaskId)
    requires SamePhases(s, r) && AllWait(g, s, t, left)
    ensures forall v :: v in r.known && v != u && Dormant(r, v) ==> Waits(g, r, v, t, left - {u})
  {
    forall v | v in r.known && v != u && Dormant(r, v) ensures Waits(g, r, v, t, left - {u}) {
      assert Waits(g, s, v, t, left);
      var d :| d in g.dependencies(v) && !Settled(s, d, v, t, left);
      assert Active(r, d) == Active(s, d);
      assert !Settled(r, d, v, t, left - {u});
    }
  }

  lemma SamePhasesSettled(g: Graph, s: State, r: State, t: TaskId, left: set<TaskId>, u: TaskId)
    requires SamePhases(s, r) && RunSettled(g, s, t, left)
    ensures RunSettled(g, r, t, left - {u})
  {
    forall x, d | x in r.known && InRun(r, x) && d in g.dependencies(x) ensures Settled(r, d, x, t, left - {u}) {
      assert InRun(s, x) && Settled(s, d, x, t, left);
      assert Active(r, d) == Active(s, d);
    }
  }

  /** The dependent u was started or made executable before. */
  lemma SkipDependent(g: Graph, s: State, t: TaskId, u: TaskId, left: set<TaskId>)
    requires Handling(g, s, t, left) && u in s.known && !Dormant(s, u)
    ensures Handling(g, s, t, left - {u})
  {
    SamePhasesWait(g, s, s, t, left, u);
    SamePhasesSettled(g, s, s, t, left, u);
  }

  lemma ReducedBlockers(s: State, u: TaskId, blocked: set<TaskId>)
    requires Dormant(s, u)
    ensures var r := s.Put(u, s.Get(u).(blocked := blocked));
      && SamePhases(s, r) && (forall x :: x != u ==> r.Get(x) == s.Get(x)) && (AllClean(s) ==> AllClean(r))
  {
    var r := s.Put(u, s.Get(u).(blocked := blocked));
    forall x ensures x != u ==> r.Get(x) == s.Get(x) {}
    if AllClean(s) {
      forall x | x in r.known ensures Clean(r, x) {
        assert Clean(s, x);
      }
    }
  }

  lemma StillTogether(g: Graph, s: State, r: State, t: TaskId, u: TaskId, left: set<TaskId>)
    requires Handling(g, s, t, left) && SamePhases(s, r)
    requires u in s.known && Dormant(s, u) && s.Get(u).blocked - {t} != {}
    ensures Together(g, r, left - {u})
  {
    var d0 :| d0 in s.Get(u).blocked - {t};
    assert d0 in g.dependencies(u) && Active(s, d0);
    forall v, a, b | v in r.known && a in g.dependencies(v) && b in g.dependencies(v) && InRun(r, a) && Dormant(r, b)
      ensures b in left - {u}
    {
      assert InRun(s, a) && Dormant(s, b);
      assert b in left;
      assert SameDependencies(g, b, a);
      assert a in s.known;
      assert b == u ==> Settled(s, d0, a, t, left);
    }
  }

  /** Taking t out of the blockers of u, while other blockers remain. */
  lemma StillBlocked(g: Graph, s: State, t: TaskId, u: TaskId, left: set<TaskId>)
    requires Handling(g, s, t, left)
    requires u in s.known && Dormant(s, u) && s.Get(u).blocked - {t} != {}
    ensures Handling(g, s.Put(u, s.Get(u).(blocked := s.Get(u).blocked - {t})), t, left - {u})
  {
    var r := s.Put(u, s.Get(u).(blocked := s.Get(u).blocked - {t}));
    var left' := left - {u};
    ReducedBlockers(s, u, s.Get(u).blocked - {t});
    SamePhasesWait(g, s, r, t, left, u);
    SamePhasesSettled(g, s, r, t, left, u);
    StillTogether(g, s, r, t, u, left);
    var d0 :| d0 in s.Get(u).blocked - {t};
    assert d0 in g.dependencies(u) && Blocks(s, d0, u, t, left);
    assert !Settled(r, d0, u, t, left');
    assert Waits(g, r, u, t, left');
    forall v, d | v in r.known && Dormant(r, v)
      ensures d in r.Get(v).blocked <==> d in g.dependencies(v) && Blocks(r, d, v, t, left')
    {
      assert Dormant(s, v);
      assert Active(r, d) == Active(s, d);
    }
  }

  // ---- making the last unblocked dependent executable ----------------------------------------

  /** When t is the last blocker of u, all dependencies of u have succeeded. */
  lemma LastBlocker(g: Graph, s: State, t: TaskId, u: TaskId, left: set<TaskId>)
    requires Handling(g, s, t, left) && u in g.dependents(t)
    requires u in s.known && Dormant(s, u) && s.Get(u).blocked <= {t}
    ensures forall d :: d in g.dependencies(u) ==> s.Get(d).Succeeded() && !Active(s, d)
  {
    assert t in g.dependencies(u);
    forall d | d in g.dependencies(u) ensures s.Get(d).Succeeded() && !Active(s, d) {
      assert d in s.known;
      assert Clean(s, d);
      if d != t {
        assert !Active(s, d);
        NoBypass(g, u, t, d);
        assert d in left ==> t in g.dependencies(d);
      }
    }
  }

  /** The blockers of x once u is executable. */
  function Extended(g: Graph, s: State, x: TaskId, u: TaskId): set<TaskId> {
    if x in g.dependents(u) && !s.Get(x).Succeeded() then s.Get(x).blocked + {u} else s.Get(x).blocked
  }

  /** The state in which u became executable and blocks its dependents. */
  lemma Awake(g: Graph, s: State, t: TaskId, u: TaskId, left: set<TaskId>)
    requires Handling(g, s, t, left) && u in g.dependents(t)
    requires u in s.known && Dormant(s, u) && s.Get(u).blocked <= {t}
    ensures var m := s.Put(u, s.Get(u).(blocked := {}));
      var r := MarkExecutable(g, m, u);
      && !r.raised
      && r.state.known == s.known && r.state.released == s.released && r.state.done == s.done
      && r.state.executable == s.executable + {u}
      && (forall x :: SameStatus(s.Get(x), r.state.Get(x)))
      && r.state.Get(u).blocked == {}
      && (forall x :: x != u ==> r.state.Get(x).blocked == Extended(g, s, x, u))
  {
    LastBlocker(g, s, t, u, left);
    var m := s.Put(u, s.Get(u).(blocked := {}));
    forall x ensures SameStatus(s.Get(x), m.Get(x)) && (x != u ==> m.Get(x) == s.Get(x)) {}
    var m1 := Forbid(m.(executable := m.executable + {u}), u);
    forall x ensures m1.Get(x) == m.Get(x) {}
    BlockDependentsEffect(g, m1, u, 0);
    var r := MarkExecutable(g, m, u).state;
    assert g.dependents(u)[0..] == g.dependents(u);
    assert u !in g.dependents(u);
    assert DependenciesSucceeded(g, m, u) by {
      forall d | d in g.dependencies(u) ensures m.Get(d).Succeeded() {
        assert SameStatus(s.Get(d), m.Get(d));
      }
    }
    assert r == BlockDependents(g, m1, u, 0);
    forall x ensures SameStatus(s.Get(x), r.Get(x)) {
      assert SameStatus(m1.Get(x), r.Get(x));
    }
    forall x | x != u ensures r.Get(x).blocked == Extended(g, s, x, u) {
      if x in g.dependents(u) && !s.Get(x).Succeeded() {
        assert u in r.Get(x).blocked;
      }
    }
  }
  /** r is the state in which u became executable. */
  ghost predicate Awoken(g: Graph, s: State, r: State, u: TaskId) {
    && r.known == s.known && r.released == s.released && r.done == s.done && r.executable == s.executable + {u}
    && (forall x :: SameStatus(s.Get(x), r.Get(x)))
    && r.Get(u).blocked == {} && (forall x :: x != u ==> r.Get(x).blocked == Extended(g, s, x, u))
  }

  lemma AwokenPhases(g: Graph, s: State, r: State, u: TaskId)
    requires Awoken(g, s, r, u) && Dormant(s, u)
    ensures forall x ::
      && Active(r, x) == (Active(s, x) || x == u) && Dormant(r, x) == (Dormant(s, x) && x != u)
      && InRun(r, x) == (InRun(s, x) || x == u) && r.Get(x).Succeeded() == s.Get(x).Succeeded()
  {
    forall x
      ensures Active(r, x) == (Active(s, x) || x == u) && Dormant(r, x) == (Dormant(s, x) && x != u)
      ensures InRun(r, x) == (InRun(s, x) || x == u) && r.Get(x).Succeeded() == s.Get(x).Succeeded()
    {
      assert SameStatus(s.Get(x), r.Get(x));
    }
  }

  lemma AwokenClean(g: Graph, s: State, r: State, u: TaskId, t: TaskId, left: set<TaskId>)
    requires Awoken(g, s, r, u) && Dormant(s, u) && u in s.known && WellFormed(g) && Closed(g, s)
    requires AllClean(s) && RunSettled(g, s, t, left)
    ensures AllClean(r)
  {
    forall x | x in r.known ensures Clean(r, x) {
      assert Clean(s, x) && SameStatus(s.Get(x), r.Get(x));
      if x != u && x in g.dependents(u) && InRun(s, x) {
        assert Settled(s, u, x, t, left);
      }
    }
  }

  lemma AwokenBlockers(g: Graph, s: State, r: State, u: TaskId, t: TaskId, left: set<TaskId>)
    requires Awoken(g, s, r, u) && Dormant(s, u) && WellFormed(g)
    requires ExactBlockers(g, s, t, left)
    ensures ExactBlockers(g, r, t, left - {u})
  {
    AwokenPhases(g, s, r, u);
    forall v, d | v in r.known && Dormant(r, v)
      ensures d in r.Get(v).blocked <==> d in g.dependencies(v) && Blocks(r, d, v, t, left - {u})
    {
      assert Dormant(s, v) && v != u;
      assert d in s.Get(v).blocked <==> d in g.dependencies(v) && Blocks(s, d, v, t, left);
      assert v in g.dependents(u) <==> u in g.dependencies(v);
    }
  }

  lemma AwokenWait(g: Graph, s: State, r: State, u: TaskId, t: TaskId, left: set<TaskId>)
    requires Awoken(g, s, r, u) && Dormant(s, u) && AllWait(g, s, t, left)
    ensures AllWait(g, r, t, left - {u})
  {
    AwokenPhases(g, s, r, u);
    forall v | v in r.known && Dormant(r, v) ensures Waits(g, r, v, t, left - {u}) {
      assert Waits(g, s, v, t, left);
      var d :| d in g.dependencies(v) && !Settled(s, d, v, t, left);
      assert !Settled(r, d, v, t, left - {u});
    }
  }

  lemma AwokenSettled(g: Graph, s: State, r: State, u: TaskId, t: TaskId, left: set<TaskId>)
    requires Awoken(g, s, r, u) && Dormant(s, u) && RunSettled(g, s, t, left)
    requires forall d :: d in g.dependencies(u) ==> s.Get(d).Succeeded() && !Active(s, d)
    ensures RunSettled(g, r, t, left - {u})
  {
    AwokenPhases(g, s, r, u);
    forall x, d | x in r.known && InRun(r, x) && d in g.dependencies(x) ensures Settled(r, d, x, t, left - {u}) {
      if x != u {
        assert Settled(s, d, x, t, left);
      }
    }
  }

  lemma AwokenTogether(g: Graph, s: State, r: State, u: TaskId, t: TaskId, left: set<TaskId>)
    requires Handling(g, s, t, left) && Awoken(g, s, r, u) && Dormant(s, u) && u in g.dependents(t)
    requires forall d :: d in g.dependencies(u) ==> s.Get(d).Succeeded() && !Active(s, d)
    ensures Together(g, r, left - {u})
  {
    AwokenPhases(g, s, r, u);
    forall v, a, b | v in r.known && a in g.dependencies(v) && b in g.dependencies(v) && InRun(r, a) && Dormant(r, b)
      ensures b in left - {u}
    {
      assert b != u && Dormant(s, b);
      // a task that was visited before u would have to wait for the same tasks as u
      assert SameDependencies(g, b, a);
      assert b in s.known;
      assert Waits(g, s, b, t, left);
    }
  }

  lemma {:induction false} UnblockProgress(g: Graph, s: State, t: TaskId, u: TaskId, left: set<TaskId>)
    requires Handling(g, s, t, left) && u in g.dependents(t) && u in left
    ensures !Unblock(g, s, t, u).raised
    ensures Handling(g, Unblock(g, s, t, u).state, t, left - {u})
  {
    assert u in s.known;
    assert Clean(s, u);
    if !Dormant(s, u) {
      SkipDependent(g, s, t, u, left);
    } else {
      assert t in g.dependencies(u);
      assert t in s.Get(u).blocked;
      if s.Get(u).blocked - {t} != {} {
        StillBlocked(g, s, t, u, left);
      } else {
        Awake(g, s, t, u, left);
        LastBlocker(g, s, t, u, left);
        var m := s.Put(u, s.Get(u).(blocked := {}));
        assert s.Get(u).blocked - {t} == {};
        var r := MarkExecutable(g, m, u).state;
        AwokenHandling(g, s, r, u, t, left);
      }
    }
  }

  lemma AwokenHandling(g: Graph, s: State, r: State, u: TaskId, t: TaskId, left: set<TaskId>)
    requires Handling(g, s, t, left) && Awoken(g, s, r, u) && Dormant(s, u) && u in g.dependents(t) && u in s.known
    requires forall d :: d in g.dependencies(u) ==> s.Get(d).Succeeded() && !Active(s, d)
    ensures Handling(g, r, t, left - {u})
  {
    AwokenPhases(g, s, r, u);
    AwokenClean(g, s, r, u, t, left);
    AwokenBlockers(g, s, r, u, t, left);
    AwokenWait(g, s, r, u, t, left);
    AwokenSettled(g, s, r, u, t, left);
    AwokenTogether(g, s, r, u, t, left);
  }

  function Left(g: Graph, t: TaskId, i: nat): (left: set<TaskId>)
    requires i <= |g.dependents(t)|
  {
    var rest := g.dependents(t)[i..];
    set u | u in rest
  }

  lemma LeftShrinks(g: Graph, t: TaskId, i: nat)
    requires Layered(g) && i < |g.dependents(t)|
    ensures var u := g.dependents(t)[i];
      u in Left(g, t, i) && Left(g, t, i + 1) == Left(g, t, i) - {u}
  {
    assert g.dependents(t)[i..] == [g.dependents(t)[i]] + g.dependents(t)[i + 1..];
  }

  lemma {:induction false} SuccessProgress(g: Graph, s: State, t: TaskId, i: nat)
    requires i <= |g.dependents(t)| && Handling(g, s, t, Left(g, t, i))
    ensures !TaskSucceeded(g, s, t, i).raised
    ensures Handling(g, TaskSucceeded(g, s, t, i).state, t, {})
    decreases |g.dependents(t)| - i
  {
    if i == |g.dependents(t)| {
      assert Left(g, t, i) == {};
      EmitProgress(g, s, t);
    } else {
      var u := g.dependents(t)[i];
      LeftShrinks(g, t, i);
      UnblockProgress(g, s, t, u, Left(g, t, i));
      SuccessProgress(g, Unblock(g, s, t, u).state, t, i + 1);
    }
  }

  /** The parts of a state that decide the phases of its tasks. */
  ghost predicate SameRecords(s: State, r: State) {
    && r.known == s.known && r.released == s.released && r.done == s.done && r.executable == s.executable
    && (forall x :: r.Get(x) == s.Get(x))
  }

  lemma SameRecordsOrderly(g: Graph, s: State, r: State, t: TaskId, left: set<TaskId>)
    requires SameRecords(s, r) && Orderly(g, s, t, left) && Tidy(g, s)
    ensures Orderly(g, r, t, left) && Tidy(g, r)
  {
    forall x ensures Active(r, x) == Active(s, x) && Dormant(r, x) == Dormant(s, x) && InRun(r, x) == InRun(s, x) {}
    assert AllClean(r) by {
      forall x | x in r.known ensures Clean(r, x) {
        assert Clean(s, x);
      }
    }
    forall v | v in r.known && Dormant(r, v) ensures Waits(g, r, v, t, left) {
      assert Waits(g, s, v, t, left);
      var d :| d in g.dependencies(v) && !Settled(s, d, v, t, left);
      assert !Settled(r, d, v, t, left);
    }
    assert RunSettled(g, r, t, left) by {
      forall x, d | x in r.known && InRun(r, x) && d in g.dependencies(x) ensures Settled(r, d, x, t, left) {
        assert Settled(s, d, x, t, left);
      }
    }
  }

  lemma EmitProgress(g: Graph, s: State, t: TaskId)
    requires Handling(g, s, t, {})
    ensures Handling(g, Emit(s, t), t, {})
  {
    var r := Emit(s, t);
    forall x ensures r.Get(x) == s.Get(x) {}
    SameRecordsOrderly(g, s, r, t, {});
  }
  // ---- events --------------------------------------------------------------------------------

  /** Popping the notification of t from the done queue turns it into the task being handled. */
  lemma Popped(g: Graph, s: State)
    requires WellFormed(g) && Layered(g) && Progressing(g, s) && s.done != [] && s.done[0] in s.known
    ensures Handling(g, s.(done := s.done[1..]), s.done[0], Left(g, s.done[0], 0))
  {
    var t := s.done[0];
    var r := s.(done := s.done[1..]);
    var left := Left(g, t, 0);
    assert s.done == [t] + r.done;
    assert t !in r.done;
    assert Clean(s, t);
    forall x
      ensures r.Get(x) == s.Get(x) && Dormant(r, x) == Dormant(s, x) && InRun(r, x) == InRun(s, x)
      ensures Active(s, x) == (Active(r, x) || x == t)
    {}
    assert g.dependents(t)[0..] == g.dependents(t);
    assert AllClean(r) by {
      forall x | x in r.known ensures Clean(r, x) {
        assert Clean(s, x);
      }
    }
    PoppedBlockers(g, s, r, t, left);
    PoppedSettled(g, s, r, t, left);
  }

  lemma PoppedBlockers(g: Graph, s: State, r: State, t: TaskId, left: set<TaskId>)
    requires WellFormed(g) && r == s.(done := r.done) && Orderly(g, s, 0, {})
    requires forall x :: Active(s, x) == (Active(r, x) || x == t)
    requires forall u :: u in left <==> u in g.dependents(t)
    ensures ExactBlockers(g, r, t, left) && AllWait(g, r, t, left)
  {
    forall x ensures r.Get(x) == s.Get(x) && Dormant(r, x) == Dormant(s, x) {}
    forall v, d | v in r.known && Dormant(r, v)
      ensures d in r.Get(v).blocked <==> d in g.dependencies(v) && Blocks(r, d, v, t, left)
    {
      assert d in s.Get(v).blocked <==> d in g.dependencies(v) && Blocks(s, d, v, 0, {});
      assert v in g.dependents(t) <==> t in g.dependencies(v);
    }
    forall v | v in r.known && Dormant(r, v) ensures Waits(g, r, v, t, left) {
      assert Waits(g, s, v, 0, {});
      var d :| d in g.dependencies(v) && !Settled(s, d, v, 0, {});
      assert v in g.dependents(t) <==> t in g.dependencies(v);
      assert !Settled(r, d, v, t, left);
    }
  }

  lemma PoppedSettled(g: Graph, s: State, r: State, t: TaskId, left: set<TaskId>)
    requires WellFormed(g) && r == s.(done := r.done) && Orderly(g, s, 0, {})
    requires forall x :: Active(s, x) == (Active(r, x) || x == t)
    requires forall u :: u in left <==> u in g.dependents(t)
    ensures RunSettled(g, r, t, left) && Together(g, r, left)
  {
    forall x ensures r.Get(x) == s.Get(x) && Dormant(r, x) == Dormant(s, x) && InRun(r, x) == InRun(s, x) {}
    forall x, d | x in r.known && InRun(r, x) && d in g.dependencies(x) ensures Settled(r, d, x, t, left) {
      assert Settled(s, d, x, 0, {});
    }
  }

  /** Handling is over when all dependents were visited. */
  lemma Handled(g: Graph, s: State, t: TaskId)
    requires Handling(g, s, t, {})
    ensures Progressing(g, s)
  {
    forall v | v in s.known && Dormant(s, v) ensures Waits(g, s, v, 0, {}) {
      assert Waits(g, s, v, t, {});
      var d :| d in g.dependencies(v) && !Settled(s, d, v, t, {});
      assert !Settled(s, d, v, 0, {});
    }
    forall x, d | x in s.known && InRun(s, x) && d in g.dependencies(x) ensures Settled(s, d, x, 0, {}) {
      assert Settled(s, d, x, t, {});
    }
    forall v, d | v in s.known && Dormant(s, v)
      ensures d in s.Get(v).blocked <==> d in g.dependencies(v) && Blocks(s, d, v, 0, {})
    {
      assert Blocks(s, d, v, t, {}) == Blocks(s, d, v, 0, {});
    }
  }

  /** No assertion fails while the done queue is drained, and the invariant is kept. */
  lemma DrainProgress(g: Graph, s: State)
    requires WellFormed(g) && Layered(g) && Progressing(g, s) && Enabled(g, s, Drain)
    ensures Progressing(g, Step(g, s, Drain))
    ensures var t := s.done[0]; t in s.known ==>
      s.Get(t).Succeeded() && !TaskSucceeded(g, s.(done := s.done[1..]).Touch(s.Get(t).LastExecutedOn()), t, 0).raised
  {
    var t := s.done[0];
    if t in s.known {
      DrainSuccess(g, s);
    } else {
      Forgotten(g, s, Step(g, s, Drain));
    }
  }

  lemma DrainSuccess(g: Graph, s: State)
    requires WellFormed(g) && Layered(g) && Progressing(g, s) && Enabled(g, s, Drain) && s.done[0] in s.known
    ensures Progressing(g, Step(g, s, Drain))
    ensures var t := s.done[0];
      s.Get(t).Succeeded() && !TaskSucceeded(g, s.(done := s.done[1..]).Touch(s.Get(t).LastExecutedOn()), t, 0).raised
  {
    var t := s.done[0];
    var s1 := s.(done := s.done[1..]);
    assert s1.Get(t) == s.Get(t);
    Popped(g, s);
    SuccessHandled(g, s1, t);
    var e := s.Get(t).LastExecutedOn();
    SlotFreed(g, TaskSucceeded(g, s1.Touch(e), t, 0).state, t, e, TaskDone(g, s1, t).raised);
  }

  lemma SuccessHandled(g: Graph, s: State, t: TaskId)
    requires WellFormed(g) && Layered(g) && Handling(g, s, t, Left(g, t, 0)) && t in s.known && s.Get(t).Succeeded()
    ensures var e := s.Get(t).LastExecutedOn();
      var m := TaskSucceeded(g, s.Touch(e), t, 0);
      !m.raised && Handling(g, m.state, t, {}) && TaskDone(g, s, t) == FreeSlot(m.state, t, e)
  {
    var s0 := s.Touch(s.Get(t).LastExecutedOn());
    forall x ensures s0.Get(x) == s.Get(x) {}
    SameRecordsOrderly(g, s, s0, t, Left(g, t, 0));
    SuccessProgress(g, s0, t, 0);
  }

  lemma SlotFreed(g: Graph, s: State, t: TaskId, e: Option<Executor>, crashed: bool)
    requires Handling(g, s, t, {})
    ensures Progressing(g, FreeSlot(s, t, e).state.(crashed := crashed))
  {
    var r := FreeSlot(s, t, e).state.(crashed := crashed);
    forall x ensures r.Get(x) == s.Get(x) {}
    SameRecordsOrderly(g, s, r, t, {});
    Handled(g, r, t);
  }

  lemma Forgotten(g: Graph, s: State, r: State)
    requires Progressing(g, s) && s.done != [] && s.done[0] !in s.known
    requires r == s.(done := s.done[1..], crashed := r.crashed)
    ensures Progressing(g, r)
  {
    assert s.done == [s.done[0]] + r.done;
    KnownDecides(g, s, r, s.known);
  }

  /** Records, executability and notifications of the tasks in k agree. */
  ghost predicate AgreeOn(s: State, r: State, k: set<TaskId>) {
    forall x :: x in k ==>
      r.Get(x) == s.Get(x) && (x in r.executable <==> x in s.executable) && (x in r.done <==> x in s.done)
  }

  /** The order of the known tasks depends on the known tasks alone. */
  lemma KnownDecides(g: Graph, s: State, r: State, k: set<TaskId>)
    requires Orderly(g, s, 0, {}) && r.known == k <= s.known && AgreeOn(s, r, k)
    requires forall t, d :: t in k && d in g.dependencies(t) ==> d in k
    ensures Orderly(g, r, 0, {})
  {
    KnownClean(s, r, k);
    KnownWaits(g, s, r, k);
    KnownBlockers(g, s, r, k);
    KnownSettled(g, s, r, k);
    KnownTogether(g, s, r, k);
  }

  lemma KnownClean(s: State, r: State, k: set<TaskId>)
    requires AllClean(s) && r.known == k <= s.known && AgreeOn(s, r, k)
    ensures AllClean(r)
  {
    forall x | x in k ensures Clean(r, x) {
      KnownPhase(s, r, k, x);
      assert Clean(s, x);
    }
  }

  lemma KnownTogether(g: Graph, s: State, r: State, k: set<TaskId>)
    requires Together(g, s, {}) && r.known == k <= s.known && AgreeOn(s, r, k)
    requires forall t, d :: t in k && d in g.dependencies(t) ==> d in k
    ensures Together(g, r, {})
  {
    forall x | x in k
      ensures InRun(r, x) == InRun(s, x) && Active(r, x) == Active(s, x) && Dormant(r, x) == Dormant(s, x)
    {
      KnownPhase(s, r, k, x);
    }
  }

  lemma KnownPhase(s: State, r: State, k: set<TaskId>, x: TaskId)
    requires AgreeOn(s, r, k) && x in k
    ensures Active(r, x) == Active(s, x) && Dormant(r, x) == Dormant(s, x) && InRun(r, x) == InRun(s, x)
      && Clean(r, x) == Clean(s, x)
    ensures r.Get(x) == s.Get(x)
  {
  }

  lemma KnownWaits(g: Graph, s: State, r: State, k: set<TaskId>)
    requires AllWait(g, s, 0, {}) && r.known == k <= s.known && AgreeOn(s, r, k)
    requires forall t, d :: t in k && d in g.dependencies(t) ==> d in k
    ensures AllWait(g, r, 0, {})
  {
    forall v | v in r.known && Dormant(r, v) ensures Waits(g, r, v, 0, {}) {
      KnownPhase(s, r, k, v);
      assert Waits(g, s, v, 0, {});
      var d :| d in g.dependencies(v) && !Settled(s, d, v, 0, {});
      KnownPhase(s, r, k, d);
      assert !Settled(r, d, v, 0, {});
    }
  }

  lemma KnownSettled(g: Graph, s: State, r: State, k: set<TaskId>)
    requires RunSettled(g, s, 0, {}) && r.known == k <= s.known && AgreeOn(s, r, k)
    requires forall t, d :: t in k && d in g.dependencies(t) ==> d in k
    ensures RunSettled(g, r, 0, {})
  {
    forall x, d | x in r.known && InRun(r, x) && d in g.dependencies(x) ensures Settled(r, d, x, 0, {}) {
      KnownPhase(s, r, k, x);
      KnownPhase(s, r, k, d);
      assert Settled(s, d, x, 0, {});
    }
  }

  lemma KnownBlockers(g: Graph, s: State, r: State, k: set<TaskId>)
    requires ExactBlockers(g, s, 0, {}) && r.known == k <= s.known && AgreeOn(s, r, k)
    requires forall t, d :: t in k && d in g.dependencies(t) ==> d in k
    ensures ExactBlockers(g, r, 0, {})
  {
    forall v, d | v in r.known && Dormant(r, v)
      ensures d in r.Get(v).blocked <==> d in g.dependencies(v) && Blocks(r, d, v, 0, {})
    {
      assert Dormant(s, v);
      assert d in g.dependencies(v) ==> d in k;
    }
  }

  /** Only the phase of t moves on: from executable to running, or from running to finished. */
  ghost predicate MovesOn(s: State, r: State, t: TaskId) {
    && (forall x :: x != t ==>
      r.Get(x) == s.Get(x) && (x in r.executable <==> x in s.executable) && (x in r.done <==> x in s.done))
    && r.known == s.known && Active(s, t) && Active(r, t) && !s.Get(t).Succeeded() && InRun(s, t) && InRun(r, t)
    && !Dormant(s, t) && !Dormant(r, t) && Clean(r, t)
  }

  lemma MovesOnOrderly(g: Graph, s: State, r: State, t: TaskId)
    requires Orderly(g, s, 0, {}) && MovesOn(s, r, t)
    ensures Orderly(g, r, 0, {})
  {
    forall x ensures Active(r, x) == Active(s, x) && Dormant(r, x) == Dormant(s, x) && InRun(r, x) == InRun(s, x) {}
    assert AllClean(r) by {
      forall x | x in r.known ensures Clean(r, x) {
        assert Clean(s, x);
      }
    }
    forall v | v in r.known && Dormant(r, v) ensures Waits(g, r, v, 0, {}) {
      assert Waits(g, s, v, 0, {});
      var d :| d in g.dependencies(v) && !Settled(s, d, v, 0, {});
      assert !Settled(r, d, v, 0, {});
    }
    assert RunSettled(g, r, 0, {}) by {
      forall x, d | x in r.known && InRun(r, x) && d in g.dependencies(x) ensures Settled(r, d, x, 0, {}) {
        assert Settled(s, d, x, 0, {});
      }
    }
  }

  lemma FinishProgress(g: Graph, s: State, t: TaskId, location: Option<Executor>)
    requires WellFormed(g) && Progressing(g, s) && s.Get(t).Running()
    ensures Progressing(g, SignalStop(g, s.Put(t, s.Get(t).At(location)), t))
  {
    if t in s.known {
      KnownFinishes(g, s, t, s.Get(t).At(location));
    } else {
      forall d | d in g.dependencies(t) ensures d !in s.known {
        assert t in g.dependents(d);
      }
      UnknownStops(g, s, t, s.Get(t).At(location));
      KnownDecides(g, s, SignalStop(g, s.Put(t, s.Get(t).At(location)), t), s.known);
    }
  }

  lemma KnownFinishes(g: Graph, s: State, t: TaskId, task: Task)
    requires Progressing(g, s) && s.Get(t).Running() && t in s.known && task == s.Get(t).(resultOn := task.resultOn)
    ensures Progressing(g, SignalStop(g, s.Put(t, task), t))
  {
    var r := SignalStop(g, s.Put(t, task), t);
    assert s.Put(t, task).Get(t) == task;
    assert Clean(s, t);
    assert t !in s.done;
    assert r == HandOff(s.Put(t, task).Put(t, task.(stopped := true)), t);
    assert r.done == s.done + [t];
    forall x ensures x != t ==> r.Get(x) == s.Get(x) {}
    assert MovesOn(s, r, t);
    MovesOnOrderly(g, s, r, t);
  }

  lemma UnknownStops(g: Graph, s: State, t: TaskId, task: Task)
    requires WellFormedUnknown(g, s, t) && task.blocked == s.Get(t).blocked
    ensures var r := SignalStop(g, s.Put(t, task), t);
      r == s.(tasks := r.tasks) && AgreeOn(s, r, s.known)
  {
    UnknownFails(s.Put(t, task), g.dependencies(t));
  }

  ghost predicate WellFormedUnknown(g: Graph, s: State, t: TaskId) {
    t !in s.known && forall d :: d in g.dependencies(t) ==> d !in s.known
  }

  lemma {:induction false} UnknownFails(s: State, ts: seq<TaskId>)
    requires forall d :: d in ts ==> d !in s.known
    ensures FailAll(s, ts) == s.(tasks := FailAll(s, ts).tasks)
    ensures forall x :: x in s.known ==> FailAll(s, ts).Get(x) == s.Get(x)
    decreases |ts|
  {
    if ts != [] {
      UnknownFails(FailPlainly(s, ts[0]), ts[1..]);
    }
  }
  lemma ChooseProgress(g: Graph, s: State, choice: Option<TaskId>)
    requires Progressing(g, s) && Enabled(g, s, Choose(choice))
    ensures Progressing(g, Pick(g, s, choice))
  {
    var s1 := s.(ready := s.ready[1..]);
    forall x ensures s1.Get(x) == s.Get(x) {}
    SameRecordsOrderly(g, s, s1, 0, {});
    if s.ready[0] in s.executors && s.executors[s.ready[0]] {
      if choice.Some? {
        assert Clean(s, choice.value);
        StartProgress(g, s1, choice.value, s.ready[0]);
      } else {
        var r := Pick(g, s, choice);
        forall x ensures r.Get(x) == s.Get(x) {}
        SameRecordsOrderly(g, s, r, 0, {});
      }
    }
  }

  lemma StartProgress(g: Graph, s: State, t: TaskId, e: Executor)
    requires Progressing(g, s) && t in s.executable && Clean(s, t) && t in s.known && s.done == []
    ensures Progressing(g, Start(g, s, t, e))
  {
    StartEffect(g, s, t, e);
    var r := Start(g, s, t, e);
    forall x ensures x != t ==> r.Get(x) == s.Get(x) {}
    MovesOnOrderly(g, s, r, t);
  }

  // ---- submission ----------------------------------------------------------------------------

  ghost predicate Root(g: Graph, s: State, t: TaskId) {
    !s.Get(t).Succeeded() && DependenciesSucceeded(g, s, t)
  }

  /** The blockers of x after the roots were made executable. */
  ghost function RootBlockers(g: Graph, s: State, x: TaskId, roots: set<TaskId>): set<TaskId> {
    if s.Get(x).Succeeded() then s.Get(x).blocked
    else s.Get(x).blocked + set d | d in roots && d in g.dependencies(x)
  }

  /** The state after the roots were made executable. */
  ghost predicate Rooted(g: Graph, s: State, r: State, roots: set<TaskId>) {
    && r.known == s.known && r.released == s.released && r.done == s.done && r.executable == s.executable + roots
    && (forall x :: SameStatus(s.Get(x), r.Get(x)))
    && (forall x :: r.Get(x).blocked == RootBlockers(g, s, x, roots))
  }

  lemma RootBlockersGrow(g: Graph, s: State, x: TaskId, roots: set<TaskId>, t: TaskId)
    requires WellFormed(g)
    ensures RootBlockers(g, s, x, roots + {t}) ==
      RootBlockers(g, s, x, roots) + if x in g.dependents(t) && !s.Get(x).Succeeded() then {t} else {}
  {
    assert x in g.dependents(t) <==> t in g.dependencies(x);
  }

  lemma RootStep(g: Graph, s: State, m: State, roots: set<TaskId>, t: TaskId)
    requires WellFormed(g) && Rooted(g, s, m, roots) && Root(g, s, t) && t !in s.executable && t !in roots
    requires s.Get(t).blocked == {} && !s.Get(t).Running()
    requires forall x :: x in roots ==> !s.Get(x).Succeeded()
    ensures !MarkExecutable(g, m, t).raised && Rooted(g, s, MarkExecutable(g, m, t).state, roots + {t})
  {
    assert SameStatus(s.Get(t), m.Get(t));
    assert DependenciesSucceeded(g, m, t) by {
      forall d | d in g.dependencies(t) ensures m.Get(d).Succeeded() {
        assert SameStatus(s.Get(d), m.Get(d));
      }
    }
    assert m.Get(t).blocked == {} by {
      assert m.Get(t).blocked == RootBlockers(g, s, t, roots);
    }
    var m1 := Forbid(m.(executable := m.executable + {t}), t);
    BlockDependentsEffect(g, m1, t, 0);
    assert MarkExecutable(g, m, t) == Outcome(BlockDependents(g, m1, t, 0), false);
    RootMarked(g, s, m, m1, roots, t);
  }

  lemma RootMarked(g: Graph, s: State, m: State, m1: State, roots: set<TaskId>, t: TaskId)
    requires WellFormed(g) && Rooted(g, s, m, roots)
    requires m1 == m.(executable := m.executable + {t}, forbidden := m1.forbidden)
    ensures Rooted(g, s, BlockDependents(g, m1, t, 0), roots + {t})
  {
    var r := BlockDependents(g, m1, t, 0);
    BlockDependentsEffect(g, m1, t, 0);
    assert g.dependents(t)[0..] == g.dependents(t);
    forall x ensures SameStatus(s.Get(x), r.Get(x)) && r.Get(x).blocked == RootBlockers(g, s, x, roots + {t}) {
      assert m1.Get(x) == m.Get(x);
      assert SameStatus(s.Get(x), m.Get(x)) && SameStatus(m1.Get(x), r.Get(x));
      RootBlockersGrow(g, s, x, roots, t);
      if x in g.dependents(t) && !s.Get(x).Succeeded() {
        assert t in r.Get(x).blocked;
      }
    }
  }

  ghost function RootsOf(g: Graph, s: State, job: seq<TaskId>): set<TaskId> {
    set t | t in job && Root(g, s, t)
  }

  /** What MarkRoots does with one task. */
  function MarkRoot(g: Graph, s: State, t: TaskId): Outcome {
    if !s.Get(t).Succeeded() && DependenciesSucceeded(g, s, t) then MarkExecutable(g, s, t) else Outcome(s, false)
  }

  lemma MarkRootEffect(g: Graph, s: State, m: State, roots: set<TaskId>, t: TaskId)
    requires WellFormed(g) && Rooted(g, s, m, roots) && t !in s.executable && t !in roots
    requires s.Get(t).blocked == {} && !s.Get(t).Running()
    requires forall x :: x in roots ==> !s.Get(x).Succeeded()
    ensures !MarkRoot(g, m, t).raised
    ensures Rooted(g, s, MarkRoot(g, m, t).state, if Root(g, s, t) then roots + {t} else roots)
  {
    assert SameStatus(s.Get(t), m.Get(t));
    assert DependenciesSucceeded(g, m, t) == DependenciesSucceeded(g, s, t) by {
      forall d ensures m.Get(d).Succeeded() == s.Get(d).Succeeded() {
        assert SameStatus(s.Get(d), m.Get(d));
      }
    }
    if Root(g, s, t) {
      RootStep(g, s, m, roots, t);
    }
  }

  lemma RootsOfNone(g: Graph, s: State, roots: set<TaskId>)
    ensures roots + RootsOf(g, s, []) == roots
  {
  }

  lemma RootsOfNext(g: Graph, s: State, roots: set<TaskId>, job: seq<TaskId>)
    requires job != []
    ensures roots + RootsOf(g, s, job) == (if Root(g, s, job[0]) then roots + {job[0]} else roots)
      + RootsOf(g, s, job[1..])
  {
    assert job == [job[0]] + job[1..];
  }

  /** No assertion fails while a job is submitted. */
  lemma {:induction false} MarkRootsEffect(g: Graph, s: State, m: State, roots: set<TaskId>, job: seq<TaskId>)
    requires WellFormed(g) && Rooted(g, s, m, roots)
    requires forall x :: x in roots ==> !s.Get(x).Succeeded() && x !in job
    requires NoDuplicates(job)
    requires forall t :: t in job ==> t !in s.executable && s.Get(t).blocked == {} && !s.Get(t).Running()
    ensures !MarkRoots(g, m, job).raised && Rooted(g, s, MarkRoots(g, m, job).state, roots + RootsOf(g, s, job))
    decreases |job|
  {
    if job == [] {
      RootsOfNone(g, s, roots);
    } else {
      var t, rest := job[0], job[1..];
      assert job == [t] + rest;
      MarkRootEffect(g, s, m, roots, t);
      var more := if Root(g, s, t) then roots + {t} else roots;
      assert t !in rest;
      MarkRootsEffect(g, s, MarkRoot(g, m, t).state, more, rest);
      RootsOfNext(g, s, roots, job);
      assert MarkRoots(g, m, job) == MarkRoots(g, MarkRoot(g, m, t).state, rest);
    }
  }

  /** The order of two unconnected groups of tasks. */
  lemma OrderlyUnion(g: Graph, r: State, a: set<TaskId>, b: set<TaskId>)
    requires Orderly(g, r.(known := a), 0, {}) && Orderly(g, r.(known := b), 0, {}) && r.known == a + b
    ensures Orderly(g, r, 0, {})
  {
    var ra, rb := r.(known := a), r.(known := b);
    forall x
      ensures ra.Get(x) == r.Get(x) && rb.Get(x) == r.Get(x) && Active(ra, x) == Active(r, x)
        && Active(rb, x) == Active(r, x)
      ensures Dormant(ra, x) == Dormant(r, x) == Dormant(rb, x) && InRun(ra, x) == InRun(r, x) == InRun(rb, x)
      ensures Clean(ra, x) == Clean(r, x) == Clean(rb, x)
    {}
    forall v | v in r.known && Dormant(r, v) ensures Waits(g, r, v, 0, {}) {
      var q := if v in a then ra else rb;
      assert Waits(g, q, v, 0, {});
      var d :| d in g.dependencies(v) && !Settled(q, d, v, 0, {});
      assert !Settled(r, d, v, 0, {});
    }
    UnionSettled(g, r, a, b);
  }

  lemma UnionSettled(g: Graph, r: State, a: set<TaskId>, b: set<TaskId>)
    requires Orderly(g, r.(known := a), 0, {}) && Orderly(g, r.(known := b), 0, {}) && r.known == a + b
    ensures RunSettled(g, r, 0, {}) && ExactBlockers(g, r, 0, {})
  {
    forall x, d | x in r.known && InRun(r, x) && d in g.dependencies(x) ensures Settled(r, d, x, 0, {}) {
      var q := if x in a then r.(known := a) else r.(known := b);
      assert InRun(q, x) && Settled(q, d, x, 0, {});
    }
    forall v, d | v in r.known && Dormant(r, v)
      ensures d in r.Get(v).blocked <==> d in g.dependencies(v) && Blocks(r, d, v, 0, {})
    {
      var q := if v in a then r.(known := a) else r.(known := b);
      assert Dormant(q, v);
      assert Blocks(q, d, v, 0, {}) == Blocks(r, d, v, 0, {});
    }
  }

  ghost predicate BlockedByRoots(g: Graph, s: State, r: State, x: TaskId) {
    r.Get(x).blocked == if s.Get(x).Succeeded() then {} else set d | d in g.dependencies(x) && Root(g, s, d)
  }

  /** A job that was just submitted is in order. */
  lemma JobOrderly(g: Graph, s: State, r: State, k: set<TaskId>)
    requires WellFormed(g) && Layered(g)
    requires forall t, d :: t in k && d in g.dependencies(t) ==> d in k
    requires forall t :: t in k ==> t !in s.executable && t !in s.done && (s.Get(t) == NewTask || s.Get(t) == DoneTask)
    requires r.known == k && r.done == s.done && (forall x :: SameStatus(s.Get(x), r.Get(x)))
    requires forall x :: x in k ==> (x in r.executable <==> Root(g, s, x))
    requires forall x :: x in k ==> BlockedByRoots(g, s, r, x)
    ensures Orderly(g, r, 0, {})
  {
    forall x | x in k
      ensures Active(r, x) == Root(g, s, x) == InRun(r, x) && Dormant(r, x) == (!s.Get(x).Succeeded() && !Root(g, s, x))
      ensures r.Get(x).Succeeded() == s.Get(x).Succeeded()
      ensures Clean(r, x)
    {
      assert SameStatus(s.Get(x), r.Get(x));
      if s.Get(x).Succeeded() || Root(g, s, x) {
        assert BlockedByRoots(g, s, r, x);
        assert r.Get(x).blocked == {};
      }
    }
    forall v | v in r.known && Dormant(r, v) ensures Waits(g, r, v, 0, {}) {
      var d :| d in g.dependencies(v) && !s.Get(d).Succeeded();
      assert d in k;
      assert !Settled(r, d, v, 0, {});
    }
    forall x, d | x in r.known && InRun(r, x) && d in g.dependencies(x) ensures Settled(r, d, x, 0, {}) {
      assert d in k && s.Get(d).Succeeded();
    }
    forall v, d: TaskId | v in r.known && Dormant(r, v)
      ensures d in r.Get(v).blocked <==> d in g.dependencies(v) && Blocks(r, d, v, 0, {})
    {
      assert BlockedByRoots(g, s, r, v);
      assert d in g.dependencies(v) ==> d in k;
    }
    forall u, a, b | u in k && a in g.dependencies(u) && b in g.dependencies(u) && InRun(r, a)
      ensures !Dormant(r, b)
    {
      assert a in k && b in k && SameDependencies(g, b, a);
    }
  }

  lemma SubmissionProgress(g: Graph, s: State, job: seq<TaskId>)
    requires WellFormed(g) && Layered(g) && Progressing(g, s) && Submittable(g, s, job)
    ensures Progressing(g, Submit(g, s, job))
    ensures !MarkRoots(g, s.(known := s.known + set t | t in job), job).raised
  {
    var k := set t | t in job;
    var s1 := s.(known := s.known + k);
    forall x ensures s1.Get(x) == s.Get(x) {}
    assert Rooted(g, s1, s1, {}) by {
      forall x ensures s1.Get(x).blocked == RootBlockers(g, s1, x, {}) {}
    }
    MarkRootsEffect(g, s1, s1, {}, job);
    var r := MarkRoots(g, s1, job).state;
    var roots := RootsOf(g, s1, job);
    assert {} + roots == roots;
    assert Rooted(g, s1, r, roots);
    Submitted(g, s, r, job, k, roots);
  }

  lemma Submitted(g: Graph, s: State, r: State, job: seq<TaskId>, k: set<TaskId>, roots: set<TaskId>)
    requires WellFormed(g) && Layered(g) && Progressing(g, s) && Submittable(g, s, job)
    requires k == set t | t in job
    requires roots == RootsOf(g, s.(known := s.known + k), job) && Rooted(g, s.(known := s.known + k), r, roots)
    ensures Progressing(g, r)
  {
    var s1 := s.(known := s.known + k);
    forall x ensures s1.Get(x) == s.Get(x) && Root(g, s1, x) == Root(g, s, x) {}
    forall x ensures SameStatus(s.Get(x), r.Get(x)) && r.Get(x).blocked == RootBlockers(g, s, x, roots) {
      assert SameStatus(s1.Get(x), r.Get(x));
    }
    assert roots == RootsOf(g, s, job);
    SubmittedBlockers(g, s, r, job, roots);
    SubmittedJob(g, s, r, job, k);
    SubmittedBefore(g, s, r, job);
    OrderlyUnion(g, r, s.known, k);
  }

  lemma SubmittedJob(g: Graph, s: State, r: State, job: seq<TaskId>, k: set<TaskId>)
    requires WellFormed(g) && Layered(g) && Tidy(g, s) && Submittable(g, s, job) && k == set t | t in job
    requires r.done == s.done && r.executable == s.executable + RootsOf(g, s, job)
    requires forall x :: SameStatus(s.Get(x), r.Get(x))
    requires forall x :: x in job ==> BlockedByRoots(g, s, r, x)
    ensures Orderly(g, r.(known := k), 0, {})
  {
    var q := r.(known := k);
    forall x ensures q.Get(x) == r.Get(x) {}
    forall x ensures SameStatus(s.Get(x), q.Get(x)) {
      assert SameStatus(s.Get(x), r.Get(x));
    }
    forall x | x in k ensures BlockedByRoots(g, s, q, x) {
      assert BlockedByRoots(g, s, r, x);
    }
    JobOrderly(g, s, q, k);
  }

  lemma SubmittedBefore(g: Graph, s: State, r: State, job: seq<TaskId>)
    requires Progressing(g, s) && Submittable(g, s, job)
    requires r.done == s.done && r.executable == s.executable + RootsOf(g, s, job)
    requires forall x :: x in s.known ==> r.Get(x) == s.Get(x)
    ensures Orderly(g, r.(known := s.known), 0, {})
  {
    var q := r.(known := s.known);
    forall x | x in s.known ensures q.Get(x) == s.Get(x) {
      assert q.Get(x) == r.Get(x);
    }
    KnownDecides(g, s, q, s.known);
  }

  lemma SubmittedBlockers(g: Graph, s: State, r: State, job: seq<TaskId>, roots: set<TaskId>)
    requires Closed(g, s) && Submittable(g, s, job)
    requires roots == RootsOf(g, s, job)
    requires forall x :: SameStatus(s.Get(x), r.Get(x)) && r.Get(x).blocked == RootBlockers(g, s, x, roots)
    ensures forall x :: x in job ==> BlockedByRoots(g, s, r, x)
    ensures forall x :: x in s.known ==> r.Get(x) == s.Get(x)
  {
    forall x | x in job ensures BlockedByRoots(g, s, r, x) {
      forall d | d in g.dependencies(x) ensures d in job {}
    }
    forall x | x in s.known ensures r.Get(x) == s.Get(x) {
      forall d | d in roots ensures d !in g.dependencies(x) {}
      assert r.Get(x).blocked == s.Get(x).blocked;
    }
  }
  // ---- cancellation --------------------------------------------------------------------------

  lemma CancelTaskDistinct(g: Graph, s: State, t: TaskId)
    requires Safe(g, s, {}) && NoDuplicates(s.done)
    ensures var m := CancelTask(g, s, t);
      && Safe(g, m, {}) && NoDuplicates(m.done)
      && (forall x :: x != t ==>
        m.Get(x) == s.Get(x) && (x in m.executable <==> x in s.executable) && (x in m.done <==> x in s.done))
      && (forall x :: x in m.done ==> x in s.done || x in s.known) && m.executable <= s.executable && m.known <= s.known
  {
    CancelTaskEffect(g, s, t);
    CancelTaskSafe(g, s, t);
    assert s.Get(t).Running() ==> t !in s.done;
  }

  lemma {:induction false} CancelTasksEffect(g: Graph, s: State, job: seq<TaskId>)
    requires Safe(g, s, {})
    requires NoDuplicates(s.done)
    ensures var r := CancelTasks(g, s, job);
      && (forall x :: x !in job ==>
        r.Get(x) == s.Get(x) && (x in r.executable <==> x in s.executable) && (x in r.done <==> x in s.done))
      && (forall x :: x in r.done ==> x in s.done || x in s.known)
      && NoDuplicates(r.done)
      && r.executable <= s.executable
    decreases |job|
  {
    if job != [] {
      var m := CancelTask(g, s, job[0]);
      CancelTaskDistinct(g, s, job[0]);
      CancelTasksEffect(g, m, job[1..]);
      assert forall x :: x in job <==> x == job[0] || x in job[1..];
    }
  }

  lemma CancellationProgress(g: Graph, s: State, job: seq<TaskId>)
    requires WellFormed(g) && Invariant(g, s) && Progressing(g, s) && ClosedJob(g, job)
    ensures Progressing(g, CancelTasks(g, s, job))
  {
    var r := CancelTasks(g, s, job);
    CancelTasksEffect(g, s, job);
    CancelTasksSafe(g, s, job);
    CancelTasksReleases(g, s, job);
    CancellationInvariant(g, s, job);
    KnownDecides(g, s, r, r.known);
  }

  // ---- runs ----------------------------------------------------------------------------------

  lemma StepProgress(g: Graph, s: State, ev: Event)
    requires WellFormed(g) && Layered(g) && Invariant(g, s) && Progressing(g, s)
    requires Enabled(g, s, ev) && FailureFree(s, ev)
    ensures Progressing(g, Step(g, s, ev))
  {
    var r := Step(g, s, ev);
    if ev.Submission? {
      SubmissionProgress(g, s, ev.job);
    } else if ev.Cancellation? {
      CancellationProgress(g, s, ev.job);
    } else if ev.Finish? {
      FinishProgress(g, s, ev.task, ev.location);
    } else if ev.Drain? {
      DrainProgress(g, s);
    } else if ev.Choose? {
      ChooseProgress(g, s, ev.choice);
    } else {
      forall x ensures r.Get(x) == s.Get(x) {}
      SameRecordsOrderly(g, s, r, 0, {});
    }
  }

  ghost predicate IsFailureFreeRun(g: Graph, s: State, evs: seq<Event>)
    requires WellFormed(g) && IsRun(g, s, evs)
    decreases |evs|
  {
    evs != [] ==> FailureFree(s, evs[0]) && IsFailureFreeRun(g, Step(g, s, evs[0]), evs[1..])
  }

  lemma {:induction false} RunProgress(g: Graph, s: State, evs: seq<Event>)
    requires WellFormed(g) && Layered(g) && Invariant(g, s) && Progressing(g, s)
    requires IsRun(g, s, evs) && IsFailureFreeRun(g, s, evs)
    ensures Progressing(g, Run(g, s, evs))
    decreases |evs|
  {
    if evs != [] {
      StepProgress(g, s, evs[0]);
      StepInvariant(g, s, evs[0]);
      RunProgress(g, Step(g, s, evs[0]), evs[1..]);
    }
  }

  /** A highest task among those that have not succeeded. */
  lemma Highest(g: Graph, ts: set<TaskId>) returns (h: TaskId)
    requires ts != {}
    ensures h in ts && forall t :: t in ts ==> g.height(t) <= g.height(h)
    decreases |ts|
  {
    h :| h in ts;
    if ts != {h} {
      var rest := ts - {h};
      assert rest != {};
      var k := Highest(g, rest);
      h := if g.height(k) >= g.height(h) then k else h;
    }
  }

  /**
   On a layered graph a run without failures does not get stuck: when nothing is executable,
   running or waiting to be handled, every task of every job has succeeded.
   */
  lemma NoStuckStates(g: Graph, s0: State, evs: seq<Event>)
    requires WellFormed(g) && Layered(g) && Initial(s0) && IsRun(g, s0, evs) && IsFailureFreeRun(g, s0, evs)
    requires var s := Run(g, s0, evs);
      s.executable == {} && s.done == [] && forall t :: t in s.known ==> !s.Get(t).Running()
    ensures var s := Run(g, s0, evs);
      forall t :: t in s.known ==> s.Get(t).Succeeded() && (s.Get(t).executedOn != [] ==> t in s.emitted)
  {
    InitialInvariant(g, s0);
    RunProgress(g, s0, evs);
    IdleMeansDone(g, Run(g, s0, evs));
    ResultsAreDelivered(g, s0, evs);
  }

  lemma IdleMeansDone(g: Graph, s: State)
    requires WellFormed(g) && AllClean(s) && AllWait(g, s, 0, {}) && Closed(g, s)
    requires s.executable == {} && s.done == [] && forall t :: t in s.known ==> !s.Get(t).Running()
    ensures forall t :: t in s.known ==> s.Get(t).Succeeded()
  {
    forall t | t in s.known ensures s.Get(t).Succeeded() {
      NothingOpen(g, s, t);
    }
  }

  /** A task that had not succeeded would wait for a higher one, without end. */
  lemma {:induction false} NothingOpen(g: Graph, s: State, u: TaskId)
    requires WellFormed(g) && AllClean(s) && AllWait(g, s, 0, {}) && Closed(g, s) && u in s.known
    requires s.executable == {} && s.done == [] && forall t :: t in s.known ==> !s.Get(t).Running()
    ensures s.Get(u).Succeeded()
  {
    var open := OpenTasks(s);
    if open != {} {
      var h := Highest(g, open);
      var d := OpenDependency(g, s, h);
      assert false;
    }
  }

  function OpenTasks(s: State): (r: set<TaskId>)
    ensures forall t :: t in r <==> t in s.known && !s.Get(t).Succeeded()
  {
    set t | t in s.known && !s.Get(t).Succeeded()
  }

  /** In an idle state, a task that has not succeeded waits for another one. */
  lemma OpenDependency(g: Graph, s: State, u: TaskId) returns (d: TaskId)
    requires AllClean(s) && AllWait(g, s, 0, {}) && Closed(g, s) && u in s.known && !s.Get(u).Succeeded()
    requires s.executable == {} && s.done == [] && forall t :: t in s.known ==> !s.Get(t).Running()
    ensures d in g.dependencies(u) && d in s.known && !s.Get(d).Succeeded()
  {
    assert Clean(s, u);
    assert Dormant(s, u);
    assert Waits(g, s, u, 0, {});
    d :| d in g.dependencies(u) && !Settled(s, d, u, 0, {});
  }

  /** In such runs no task fails and no assertion of the handlers is violated. */
  lemma NoAssertionFails(g: Graph, s0: State, evs: seq<Event>, ev: Event)
    requires WellFormed(g) && Layered(g) && Initial(s0) && IsRun(g, s0, evs) && IsFailureFreeRun(g, s0, evs)
    requires Enabled(g, Run(g, s0, evs), ev)
    ensures var s := Run(g, s0, evs);
      forall t :: t in s.known ==> s.Get(t).exception.None?
    ensures var s := Run(g, s0, evs);
      ev.Submission? ==> !MarkRoots(g, s.(known := s.known + set t | t in ev.job), ev.job).raised
    ensures var s := Run(g, s0, evs);
      ev.Drain? && s.done[0] in s.known ==>
        && s.Get(s.done[0]).Succeeded()
        && !TaskSucceeded(g, s.(done := s.done[1..]).Touch(s.Get(s.done[0]).LastExecutedOn()), s.done[0], 0).raised
  {
    InitialInvariant(g, s0);
    RunProgress(g, s0, evs);
    var s := Run(g, s0, evs);
    forall t | t in s.known ensures s.Get(t).exception.None? {
      assert Clean(s, t);
    }
    if ev.Submission? {
      SubmissionProgress(g, s, ev.job);
    } else if ev.Drain? {
      DrainProgress(g, s);
    }
  }
}

/**
 When draining never ends: exactly when it comes to a state in which every notification is of a task
 that is to be retried although a dependency has not succeeded, and the highest of them is not
 blocked.  A run shows that there are such states.
 */
module SchedulerStuck {
  import opened Sequences
  import opened SchedulerModel
  import opened SchedulerSafety
  import opened SchedulerSlots
  import opened SchedulerDraining

  // ---- retries -------------------------------------------------------------------------------

  /** A task to be retried that has a dependency which has not succeeded. */
  predicate Hopeless(g: Graph, s: State, t: TaskId) {
    && t in s.known && s.Get(t).Failed() && s.Get(t).exception.value.GeneralFailure?
    && |s.Get(t).executedOn| < g.maxAttempts(t) && t !in s.executable && !DependenciesSucceeded(g, s, t)
  }

  /** Nothing changed but blockers that were added and executable tasks that were withdrawn. */
  ghost predicate Marks(s: State, r: State) {
    && r.known == s.known && r.executable <= s.executable
    && forall x :: SameStatus(s.Get(x), r.Get(x)) && s.Get(x).blocked <= r.Get(x).blocked
  }

  lemma MarksTransitive(s: State, m: State, r: State)
    requires Marks(s, m) && Marks(m, r)
    ensures Marks(s, r)
  {
    forall x ensures SameStatus(s.Get(x), r.Get(x)) && s.Get(x).blocked <= r.Get(x).blocked {
      assert SameStatus(s.Get(x), m.Get(x)) && SameStatus(m.Get(x), r.Get(x));
    }
  }

  lemma StillHopeless(g: Graph, s: State, r: State, t: TaskId)
    requires Marks(s, r) && Hopeless(g, s, t)
    ensures Hopeless(g, r, t)
  {
    assert SameStatus(s.Get(t), r.Get(t));
    SameDependenciesSucceeded(g, s, r, t);
  }

  /** The failure of t is recorded against its executor. */
  ghost function Charged(g: Graph, s: State, t: TaskId): State
    requires WellFormed(g)
  {
    Charge(MarkAllBlocked(g, s, t, 0), t)
  }

  lemma ChargedMarks(g: Graph, s: State, t: TaskId)
    requires WellFormed(g)
    ensures var r := Charged(g, s, t);
      && Marks(s, r) && r.done == s.done
      && (forall x :: g.height(x) >= g.height(t) ==> r.Get(x) == s.Get(x))
  {
    var m := MarkAllBlocked(g, s, t, 0);
    var r := Charged(g, s, t);
    MarkAllBlockedOnlyBlocks(g, s, t, 0);
    forall x ensures r.Get(x) == m.Get(x) {}
    forall x | g.height(x) >= g.height(t) ensures r.Get(x) == s.Get(x) {
      MarkAllBlockedBelow(g, s, t, 0, x);
    }
  }

  /** The retry of such a task waits for what blocks it, and fails the assertion otherwise. */
  lemma HopelessFailure(g: Graph, s: State, t: TaskId)
    requires WellFormed(g) && Hopeless(g, s, t)
    ensures TaskFailed(g, s, t) == Outcome(Charged(g, s, t), s.Get(t).blocked == {})
  {
    var r := Charged(g, s, t);
    ChargedMarks(g, s, t);
    StillHopeless(g, s, r, t);
  }

  lemma FailsAgain(g: Graph, s: State, t: TaskId)
    requires t in s.known && s.Get(t).Failed() && s.Get(t).exception.value.GeneralFailure?
    ensures var r := MarkFailed(g, s, t, GeneralFailure);
      (forall x :: r.Get(x) == s.Get(x)) && r == s.(tasks := r.tasks, done := s.done + [t])
  {
    var s1 := s.Put(t, s.Get(t).(stopped := true, exception := Some(GeneralFailure)));
    assert s1.Get(t) == s.Get(t);
    assert MarkFailed(g, s, t, GeneralFailure) == HandOff(s1.Put(t, s1.Get(t).(stopped := true)), t);
  }

  /** The state after the retry and, where its assertion failed, the failure. */
  ghost function Retried(g: Graph, s: State, t: TaskId): State
    requires WellFormed(g)
  {
    if s.Get(t).blocked == {} then MarkFailed(g, Charged(g, s, t), t, GeneralFailure) else Charged(g, s, t)
  }

  lemma RetriedMarks(g: Graph, s: State, t: TaskId)
    requires WellFormed(g) && Hopeless(g, s, t)
    ensures var r := Retried(g, s, t);
      && Marks(s, r) && (forall x :: g.height(x) >= g.height(t) ==> r.Get(x) == s.Get(x))
      && r.done == s.done + if s.Get(t).blocked == {} then [t] else []
  {
    var f := Charged(g, s, t);
    ChargedMarks(g, s, t);
    FailsAgain(g, f, t);
  }

  /** Handling its notification queues it again if and only if nothing blocks it, and touches nothing above it. */
  lemma HopelessDone(g: Graph, s: State, t: TaskId)
    requires WellFormed(g) && Hopeless(g, s, t)
    ensures var r := TaskDone(g, s, t).state;
      && Marks(s, r) && (forall x :: g.height(x) >= g.height(t) ==> r.Get(x) == s.Get(x))
      && r.done == s.done + if s.Get(t).blocked == {} then [t] else []
  {
    var e := s.Get(t).LastExecutedOn();
    var s0 := s.Touch(e);
    Touches(s, e);
    StillHopeless(g, s, s0, t);
    var m := Retried(g, s0, t);
    HopelessHandled(g, s, t);
    RetriedMarks(g, s0, t);
    FreeSlotCosts(g, m, t, e, []);
    MarksTransitive(s, s0, m);
    MarksTransitive(s, m, FreeSlot(m, t, e).state);
  }

  lemma Touches(s: State, e: Option<Executor>)
    ensures var r := s.Touch(e); Marks(s, r) && r.done == s.done && r.tasks == s.tasks
  {
  }

  lemma HopelessHandled(g: Graph, s: State, t: TaskId)
    requires WellFormed(g) && Hopeless(g, s, t)
    ensures var e := s.Get(t).LastExecutedOn();
      TaskDone(g, s, t) == FreeSlot(Retried(g, s.Touch(e), t), t, e)
  {
    var s0 := s.Touch(s.Get(t).LastExecutedOn());
    Touches(s, s.Get(t).LastExecutedOn());
    StillHopeless(g, s, s0, t);
    HopelessFailure(g, s0, t);
  }

  lemma HopelessStep(g: Graph, s: State)
    requires WellFormed(g) && Enabled(g, s, Drain) && Hopeless(g, s, s.done[0])
    ensures var t := s.done[0]; var r := Step(g, s, Drain);
      && Marks(s, r) && (forall x :: g.height(x) >= g.height(t) ==> r.Get(x) == s.Get(x))
      && r.done == s.done[1..] + if s.Get(t).blocked == {} then [t] else []
  {
    var t := s.done[0];
    var s1 := s.(done := s.done[1..]);
    assert forall x :: s1.Get(x) == s.Get(x);
    StillHopeless(g, s, s1, t);
    HopelessDone(g, s1, t);
    SameMarks(s, s1, TaskDone(g, s1, t).state, Step(g, s, Drain));
  }

  lemma SameMarks(s: State, s1: State, m: State, r: State)
    requires Marks(s1, m) && s1.tasks == s.tasks && s1.known == s.known && s1.executable == s.executable
    requires r.tasks == m.tasks && r.known == m.known && r.executable == m.executable
    ensures Marks(s, r) && forall x :: r.Get(x) == m.Get(x)
  {
    forall x ensures SameStatus(s.Get(x), r.Get(x)) && s.Get(x).blocked <= r.Get(x).blocked {
      assert SameStatus(s1.Get(x), m.Get(x));
    }
  }

  // ---- stuck ---------------------------------------------------------------------------------

  /**
   Every notification is of a task to be retried that has a dependency which has not succeeded, and
   the highest of them is not blocked.
   */
  ghost predicate Stuck(g: Graph, s: State, h: TaskId) {
    && !s.crashed && h in s.done && s.Get(h).blocked == {}
    && forall t :: t in s.done ==> Hopeless(g, s, t) && g.height(t) <= g.height(h)
  }

  lemma StaysStuck(g: Graph, s: State, h: TaskId)
    requires WellFormed(g) && Slots(s) && Stuck(g, s, h)
    ensures Enabled(g, s, Drain) && Slots(Step(g, s, Drain)) && Stuck(g, Step(g, s, Drain), h)
  {
    var t := s.done[0];
    var r := Step(g, s, Drain);
    assert t in s.done;
    HopelessStep(g, s);
    SlotsStep(g, s);
    assert s.done == [t] + s.done[1..];
    forall x | x in r.done ensures Hopeless(g, r, x) && g.height(x) <= g.height(h) {
      StillHopeless(g, s, r, x);
    }
  }

  lemma SlotsStep(g: Graph, s: State)
    requires WellFormed(g) && Enabled(g, s, Drain) && Slots(s)
    ensures Slots(Step(g, s, Drain)) && !Step(g, s, Drain).crashed
  {
    var s1 := s.(done := s.done[1..]);
    SameSlotsSlots(s, s1);
    TaskDoneSlots(g, s1, s.done[0]);
    SameSlotsSlots(TaskDone(g, s1, s.done[0]).state, Step(g, s, Drain));
  }

  lemma {:induction false} SlotsAfter(g: Graph, s: State, n: nat)
    requires WellFormed(g) && Slots(s) && !s.crashed && Lasts(g, s, n)
    ensures Slots(After(g, s, n)) && !After(g, s, n).crashed
    decreases n
  {
    if n > 0 {
      SlotsStep(g, s);
      SlotsAfter(g, Step(g, s, Drain), n - 1);
    }
  }

  /** From a stuck state draining never ends. */
  lemma StuckForever(g: Graph, s: State, h: TaskId)
    requires WellFormed(g) && Slots(s) && Stuck(g, s, h)
    ensures NeverEnds(g, s)
  {
    forall n: nat ensures Lasts(g, s, n) {
      StuckFor(g, s, h, n);
    }
  }

  lemma {:induction false} StuckFor(g: Graph, s: State, h: TaskId, n: nat)
    requires WellFormed(g) && Slots(s) && Stuck(g, s, h)
    ensures Lasts(g, s, n)
    decreases n
  {
    if n > 0 {
      StaysStuck(g, s, h);
      StuckFor(g, Step(g, s, Drain), h, n - 1);
    }
  }

  // ---- back to a stuck state -----------------------------------------------------------------

  /** All notifications spin from here on. */
  ghost predicate AllSpin(g: Graph, s: State)
    requires WellFormed(g)
  {
    forall n: nat :: SpinsAt(g, s, n)
  }

  /** The potential cannot fall forever. */
  lemma {:induction false} AllSpinLater(g: Graph, s: State, ks: seq<TaskId>) returns (n: nat)
    requires WellFormed(g) && Roster(s, ks) && NeverEnds(g, s)
    ensures Lasts(g, s, n) && AllSpin(g, After(g, s, n))
    decreases Potential(g, s, ks)
  {
    assert Lasts(g, s, 0);
    n := 0;
    if !AllSpin(g, s) {
      var k := Falls(g, s, ks);
      var m := AllSpinLater(g, After(g, s, k), ks);
      LastsFrom(g, s, k, m);
      n := k + m;
    }
  }

  lemma Falls(g: Graph, s: State, ks: seq<TaskId>) returns (n: nat)
    requires WellFormed(g) && Roster(s, ks) && NeverEnds(g, s) && !AllSpin(g, s)
    ensures Lasts(g, s, n) && NeverEnds(g, After(g, s, n))
    ensures Roster(After(g, s, n), ks) && Potential(g, After(g, s, n), ks) < Potential(g, s, ks)
  {
    var k: nat :| !SpinsAt(g, s, k);
    n := k + 1;
    assert Lasts(g, s, n);
    FallsAt(g, s, ks, k);
    LaterNeverEnds(g, s, n);
  }

  /** The state one notification later. */
  lemma AfterNext(g: Graph, s: State, n: nat)
    requires WellFormed(g) && Lasts(g, s, n + 1)
    ensures Lasts(g, s, n) && Enabled(g, After(g, s, n), Drain)
    ensures After(g, s, n + 1) == Step(g, After(g, s, n), Drain)
  {
    LastsLess(g, s, n + 1, n);
    LastsFrom(g, s, n, 1);
    var m := After(g, s, n);
    assert After(g, m, 1) == After(g, Step(g, m, Drain), 0);
  }

  lemma FallsAt(g: Graph, s: State, ks: seq<TaskId>, n: nat)
    requires WellFormed(g) && Roster(s, ks) && Lasts(g, s, n + 1) && !SpinsAt(g, s, n)
    ensures Roster(After(g, s, n + 1), ks) && Potential(g, After(g, s, n + 1), ks) < Potential(g, s, ks)
  {
    AfterNext(g, s, n);
    RosterAfter(g, s, ks, n);
    DrainMeasure(g, After(g, s, n), ks);
  }

  lemma LaterNeverEnds(g: Graph, s: State, n: nat)
    requires WellFormed(g) && NeverEnds(g, s)
    ensures Lasts(g, s, n) && NeverEnds(g, After(g, s, n))
  {
    assert Lasts(g, s, n);
    forall m: nat ensures Lasts(g, After(g, s, n), m) {
      assert Lasts(g, s, n + m);
      LastsFrom(g, s, n, m);
    }
  }

  lemma LaterAllSpin(g: Graph, s: State, n: nat)
    requires WellFormed(g) && AllSpin(g, s)
    ensures Lasts(g, s, n) && AllSpin(g, After(g, s, n))
  {
    assert SpinsAt(g, s, n);
    forall m: nat ensures SpinsAt(g, After(g, s, n), m) {
      assert SpinsAt(g, s, n + m);
      LastsFrom(g, s, n, m);
    }
  }

  lemma SpinsHopeless(g: Graph, s: State)
    requires WellFormed(g) && Spins(g, s)
    ensures Hopeless(g, s, s.done[0]) && s.Get(s.done[0]).blocked == {}
  {
  }

  /** The notifications before position n were handled and queued again. */
  ghost predicate Turned(g: Graph, s: State, r: State, n: nat)
    requires n <= |s.done|
  {
    && Marks(s, r) && r.done == s.done[n..] + s.done[..n]
    && forall i :: 0 <= i < n ==> s.done[i] !in r.executable
  }

  /** While all notifications spin, the queue goes round. */
  lemma {:induction false} Rotates(g: Graph, s: State, n: nat)
    requires WellFormed(g) && AllSpin(g, s) && n <= |s.done|
    ensures Lasts(g, s, n) && Turned(g, s, After(g, s, n), n)
    decreases n
  {
    if n == 0 {
      assert s.done[0..] + s.done[..0] == s.done;
    } else {
      Rotates(g, s, n - 1);
      assert SpinsAt(g, s, n - 1) && SpinsAt(g, s, n);
      AfterNext(g, s, n - 1);
      TurnsOn(g, s, After(g, s, n - 1), n - 1);
    }
  }

  lemma TurnsOn(g: Graph, s: State, m: State, n: nat)
    requires WellFormed(g) && n < |s.done| && Turned(g, s, m, n) && Spins(g, m)
    ensures Turned(g, s, Step(g, m, Drain), n + 1)
  {
    var r := Step(g, m, Drain);
    Rotated(s.done, n);
    SpinsHopeless(g, m);
    HopelessStep(g, m);
    MarksTransitive(s, m, r);
  }

  lemma Rotated(ts: seq<TaskId>, n: nat)
    requires n < |ts|
    ensures var turned := ts[n..] + ts[..n];
      turned[0] == ts[n] && turned[1..] + [ts[n]] == ts[n + 1..] + ts[..n + 1]
  {
  }

  /** After a full round the state is stuck. */
  lemma RoundIsStuck(g: Graph, s: State) returns (h: TaskId)
    requires WellFormed(g) && AllSpin(g, s)
    ensures Lasts(g, s, |s.done|) && Stuck(g, After(g, s, |s.done|), h)
  {
    var n := |s.done|;
    Rotates(g, s, n);
    var r := After(g, s, n);
    assert s.done[..n] == s.done && r.done == s.done;
    LaterAllSpin(g, s, n);
    assert SpinsAt(g, s, 0) && SpinsAt(g, r, 0);
    h := HighestOf(g, r.done);
    forall t | t in r.done ensures Hopeless(g, r, t) {
      UnblockedInTurn(g, s, t);
      SpinsInTurn(g, s, r, t);
    }
    UnblockedInTurn(g, r, h);
  }

  /** Each notification comes to the head of the queue, where it spins. */
  lemma UnblockedInTurn(g: Graph, s: State, t: TaskId)
    requires WellFormed(g) && AllSpin(g, s) && t in s.done
    ensures s.Get(t).blocked == {} && t in s.known && s.Get(t).Failed() && s.Get(t).exception.value.GeneralFailure?
    ensures |s.Get(t).executedOn| < g.maxAttempts(t) && !DependenciesSucceeded(g, s, t)
  {
    var k :| 0 <= k < |s.done| && s.done[k] == t;
    Rotates(g, s, k);
    var m := After(g, s, k);
    assert SpinsAt(g, s, k);
    assert m.done[0] == t;
    SpinsHopeless(g, m);
    assert SameStatus(s.Get(t), m.Get(t));
    SameDependenciesSucceeded(g, s, m, t);
  }

  lemma SpinsInTurn(g: Graph, s: State, r: State, t: TaskId)
    requires Marks(s, r) && t !in r.executable && t in s.known
    requires s.Get(t).Failed() && s.Get(t).exception.value.GeneralFailure?
    requires |s.Get(t).executedOn| < g.maxAttempts(t) && !DependenciesSucceeded(g, s, t)
    ensures Hopeless(g, r, t)
  {
    assert SameStatus(s.Get(t), r.Get(t));
    SameDependenciesSucceeded(g, s, r, t);
  }

  lemma {:induction false} HighestOf(g: Graph, ts: seq<TaskId>) returns (h: TaskId)
    requires ts != []
    ensures h in ts && forall t :: t in ts ==> g.height(t) <= g.height(h)
    decreases |ts|
  {
    h := ts[0];
    if |ts| > 1 {
      var rest := HighestOf(g, ts[1..]);
      h := if g.height(rest) > g.height(h) then rest else h;
      assert ts == [ts[0]] + ts[1..];
    }
  }

  /** Whatever drains forever gets stuck; no accounting of slots is needed for this. */
  lemma GetsStuck(g: Graph, s: State) returns (n: nat, h: TaskId)
    requires WellFormed(g) && NeverEnds(g, s)
    ensures Lasts(g, s, n) && Stuck(g, After(g, s, n), h)
  {
    var ks := Listed(s.known);
    var k := AllSpinLater(g, s, ks);
    var m := After(g, s, k);
    h := RoundIsStuck(g, m);
    LastsFrom(g, s, k, |m.done|);
    n := k + |m.done|;
  }

  /** Draining never ends if and only if it comes to a stuck state. */
  lemma DrainingEnds(g: Graph, s: State)
    requires WellFormed(g) && Slots(s) && !s.crashed
    ensures NeverEnds(g, s) <==> exists n: nat, h: TaskId :: Lasts(g, s, n) && Stuck(g, After(g, s, n), h)
  {
    if NeverEnds(g, s) {
      var n, h := GetsStuck(g, s);
    }
    if n: nat, h: TaskId :| Lasts(g, s, n) && Stuck(g, After(g, s, n), h) {
      SlotsAfter(g, s, n);
      StuckForever(g, After(g, s, n), h);
      forall m: nat ensures Lasts(g, s, m) {
        assert Lasts(g, After(g, s, n), m);
        LastsFrom(g, s, n, m);
        LastsLess(g, s, n + m, m);
      }
    }
  }

  // ---- a run that gets stuck -----------------------------------------------------------------

  /** Task 2 depends on task 1, and task 1 on task 0. */
  ghost predicate IsChain(g: Graph) {
    && WellFormed(g) && g.dependencies(0) == [] && g.dependencies(1) == [0] && g.dependencies(2) == [1]
    && g.dependents(0) == [1] && g.dependents(1) == [2] && g.dependents(2) == []
    && g.maxAttempts(1) == g.maxAttempts(2) == 3 && !g.computes(1) && !g.computes(2)
  }

  function Chain(): Graph {
    Graph(t => if t == 1 then [0] else if t == 2 then [1] else [],
          t => if t == 0 then [1] else if t == 1 then [2] else [],
          t => if t == 0 then 2 else if t == 1 then 1 else 0, t => t, t => 3, t => false)
  }

  lemma ChainIsChain()
    ensures IsChain(Chain()) && ClosedJob(Chain(), Job)
  {
  }

  type Executions = map<Option<Executor>, set<TaskId>>

  /** Task 0 avoids the only executor. */
  function Amid(
    tasks: map<TaskId, Task>, executable: set<TaskId>, done: seq<TaskId>, ready: seq<Executor>,
    slots: seq<Option<Executor>>, executing: Executions): State {
    State(tasks, {0, 1, 2}, {}, executable, done, [], map[7 := true], ready, slots, executing,
          map[Some(7) := {0}], map[0 := {7}], false)
  }

  const Again := Some(GeneralFailure)
  const OneLost := DependenciesFailed([Lost(None, None, 1)])
  const Runs := Task(true, false, None, false, {}, [7], [7])
  const Broken := Runs.(stopped := true, exception := Some(OneLost))
  const Fails := Runs.(stopped := true, exception := Again)
  const LostOne := DoneTask.(exception := Some(FailedDependency))
  const FailedOne := DoneTask.(exception := Again)

  /** The effect of task 1 is available. */
  const OneDone: map<TaskId, Task> := map[1 := DoneTask]
  const Cached := Idle.(tasks := OneDone)
  const Joined := Cached.(executors := map[7 := true], ready := [7])
  const Avoiding := Joined.(avoided := map[0 := {7}])

  const Submitted := Amid(OneDone, {0, 2}, [], [7], [], map[])
  const Started := Amid(OneDone[2 := Runs], {0}, [], [], [Some(7)], map[Some(7) := {2}])
  const Reported := Amid(OneDone[2 := Broken], {0}, [2], [], [Some(7)], map[Some(7) := {2}])
  const Invalidated := Amid(map[1 := LostOne, 2 := Fails], {0}, [1, 2], [7], [Some(7)], map[Some(7) := {}])
  const Circling := Amid(
    map[1 := FailedOne, 2 := Fails.(blocked := {1})], {0}, [2, 1], [7], [Some(7), None],
    map[Some(7) := {}, None := {}])

  const Report: seq<Event> := [Choose(Some(2)), Fail(2, OneLost)]
  const Unlucky: seq<Event> := [AddExecutor(7, true), SetAvoided(0, {7}), Submission(Job)] + Report

  lemma AvoidsNone(s: State, t: TaskId)
    requires s.Avoided(t) == {}
    ensures Forbid(s, t) == s
  {
    var es := set e | e in s.Avoided(t) && e in s.executors;
    assert es == {};
    var r := Prohibit(s.forbidden, es, t);
    forall e | e in r ensures e in s.forbidden && r[e] == s.forbidden[e] {}
    assert r == s.forbidden;
  }

  lemma AvoidsSeven(s: State)
    requires s.Avoided(0) == {7} && 7 in s.executors && s.forbidden == map[]
    ensures Forbid(s, 0) == s.(forbidden := map[Some(7) := {0}])
  {
    var es := set e | e in s.Avoided(0) && e in s.executors;
    assert es == {7};
    var names := set e | e in es :: Some(e);
    assert Some(7) in names && forall x :: x in names ==> x == Some(7);
    assert names == {Some(7)};
    var none: set<TaskId> := {};
    assert none + {0} == {0};
    assert Prohibit(s.forbidden, es, 0) == map[Some(7) := {0}];
  }

  const Known := Avoiding.(known := {0, 1, 2})
  const Rooted := Amid(OneDone, {0}, [], [7], [], map[])

  lemma FirstRoot(g: Graph)
    requires IsChain(g)
    ensures MarkExecutable(g, Known, 0) == Outcome(Rooted, false)
  {
    AvoidsSeven(Known.(executable := {0}));
    assert Known.executable + {0} == {0};
    assert BlockDependents(g, Rooted, 0, 1) == Rooted;
  }

  lemma SecondRoot(g: Graph)
    requires IsChain(g)
    ensures MarkExecutable(g, Rooted, 2) == Outcome(Submitted, false)
  {
    AvoidsNone(Submitted, 2);
    assert Rooted.executable + {2} == Submitted.executable;
  }

  lemma Roots(g: Graph)
    requires IsChain(g)
    ensures MarkRoots(g, Known, [0] + ([1] + ([2] + []))) == Outcome(Submitted, false)
  {
    FirstRoot(g);
    SecondRoot(g);
    assert MarkRoots(g, Submitted, []) == Outcome(Submitted, false);
    assert MarkRoots(g, Rooted, [2] + []) == Outcome(Submitted, false);
    assert ([1] + ([2] + []))[1..] == [2] + [];
    assert MarkRoots(g, Rooted, [1] + ([2] + [])) == Outcome(Submitted, false);
    assert ([0] + ([1] + ([2] + [])))[1..] == [1] + ([2] + []);
  }

  const Job: seq<TaskId> := [0, 1, 2]

  lemma ChainSubmitted(g: Graph)
    requires IsChain(g) && ClosedJob(g, Job)
    ensures Enabled(g, Avoiding, Submission(Job)) && Submit(g, Avoiding, Job) == Submitted
  {
    ChainEnabled(g);
    Roots(g);
    JobKnown();
  }

  lemma ChainEnabled(g: Graph)
    requires ClosedJob(g, Job)
    ensures Submittable(g, Avoiding, Job)
  {
  }

  lemma JobKnown()
    ensures Avoiding.known + (set t | t in Job) == Known.known && [0] + ([1] + ([2] + [])) == Job
  {
  }

  lemma ChainStarted(g: Graph)
    requires IsChain(g)
    ensures Enabled(g, Submitted, Choose(Some(2))) && Step(g, Submitted, Choose(Some(2))) == Started
  {
    assert Submitted.Forbidden(Some(7)) == {0};
    assert Submitted.executable - {0} == {2};
    var s := Submitted.(ready := []);
    assert Submitted.ready[1..] == [] && s.executable - {2} == {0};
    assert s.(executable := {0}).Touch(Some(7)) == s.(
      executable := {0}, slots := [Some(7)], executing := map[Some(7) := {}]);
    var none: set<TaskId> := {};
    assert none + {2} == {2};
    var free: Executions := map[Some(7) := none];
    assert free[Some(7) := {2}] == map[Some(7) := {2}];
    assert NewTask.(started := true, executedOn := [] + [7], resultOn := [] + [7]) == Runs;
  }

  lemma ChainReported(g: Graph)
    requires IsChain(g)
    ensures Enabled(g, Started, Fail(2, OneLost)) && Step(g, Started, Fail(2, OneLost)) == Reported
  {
    var s := Started.Put(2, Runs.(exception := Some(OneLost)));
    assert s.Put(2, s.Get(2).(stopped := true)).tasks == Reported.tasks;
  }

  /** Failing a task that loses no input of its own replaces its record and queues it. */
  lemma FailsInChain(g: Graph, s: State, t: TaskId, failure: Failure)
    requires !g.computes(t) && t in s.known
    ensures MarkFailed(g, s, t, failure)
         == s.Put(t, s.Get(t).(stopped := true, exception := Some(failure))).(done := s.done + [t])
  {
    var s1 := s.Put(t, s.Get(t).(stopped := true, exception := Some(failure)));
    assert s1.Put(t, s1.Get(t).(stopped := true)).tasks == s1.tasks;
  }

  const Handled := Amid(OneDone[2 := Broken], {0}, [], [], [Some(7)], map[Some(7) := {2}])
  const Losing := Amid(map[1 := LostOne, 2 := Broken], {0}, [1], [], [Some(7)], map[Some(7) := {2}])
  const Freed := Amid(map[1 := LostOne, 2 := Fails], {0}, [1, 2], [], [Some(7)], map[Some(7) := {2}])

  lemma OneInvalidated(g: Graph)
    requires IsChain(g)
    ensures TaskFailed(g, Handled, 2) == Outcome(Losing, true)
  {
    assert MarkAllBlocked(g, Handled, 2, 0) == Handled;
    FailsInChain(g, Handled, 1, FailedDependency);
    assert MarkFailed(g, Handled, 1, FailedDependency) == Losing;
    assert 1 in g.dependencies(2) && !Losing.Get(1).Succeeded();
    assert DependenciesLost(g, Losing, 2, []) == Outcome(Losing, true);
    assert OneLost.lost[1..] == [];
  }

  /** Task 1 is invalidated, and task 2 can not be retried before it is done again. */
  lemma ChainInvalidated(g: Graph)
    requires IsChain(g)
    ensures Enabled(g, Reported, Drain) && Step(g, Reported, Drain) == Invalidated
  {
    assert Reported.done[1..] == [];
    OneInvalidated(g);
    TwoFails(g);
    SlotFreed();
    assert TaskDone(g, Handled, 2) == FreeSlot(Freed, 2, Some(7));
  }

  lemma TwoFails(g: Graph)
    requires IsChain(g)
    ensures MarkFailed(g, Losing, 2, GeneralFailure) == Freed
  {
    FailsInChain(g, Losing, 2, GeneralFailure);
    assert Losing.Put(2, Fails).tasks == Freed.tasks;
  }

  lemma SlotFreed()
    ensures FreeSlot(Freed, 2, Some(7)) == Outcome(Invalidated, false)
  {
    assert Freed.Executing(Some(7)) == {2};
    var two: set<TaskId> := {2};
    assert two - {2} == {};
    assert Freed.executing[Some(7) := {}] == map[Some(7) := {}];
  }

  const Both: Executions := map[Some(7) := {}, None := {}]
  const Popped := Amid(map[1 := LostOne, 2 := Fails], {0}, [2], [7], [Some(7), None], Both)
  const Blocking := Amid(map[1 := LostOne, 2 := Fails.(blocked := {1})], {0}, [2], [7], [Some(7), None], Both)

  lemma TwoBlocked(g: Graph)
    requires IsChain(g)
    ensures MarkAllBlocked(g, Popped, 1, 0) == Blocking
  {
    assert Popped.executable - {2} == {0};
    assert MarkAllBlocked(g, Popped, 2, 0) == Popped;
    var none: set<TaskId> := {};
    assert none + {1} == {1};
    assert Popped.Put(2, Fails.(blocked := {1})).tasks == Blocking.tasks;
    assert MarkBlocked(g, Popped, 2, 1) == Blocking;
    assert MarkAllBlocked(g, Blocking, 1, 1) == Blocking;
  }

  /** Task 1 can not be retried either: task 0 was never done. */
  lemma ChainCircles(g: Graph)
    requires IsChain(g)
    ensures Enabled(g, Invalidated, Drain) && Step(g, Invalidated, Drain) == Circling
  {
    OneFails(g);
    OneQueued(g);
    NonePopped();
    assert TaskDone(g, Invalidated.(done := [2]), 1) == Outcome(Circling, false);
  }

  lemma NonePopped()
    ensures Invalidated.done[1..] == [2] && Invalidated.(done := [2]).Touch(None) == Popped
    ensures FreeSlot(Circling, 1, None) == Outcome(Circling, false)
  {
  }

  lemma OneFails(g: Graph)
    requires IsChain(g)
    ensures TaskFailed(g, Popped, 1) == Outcome(Blocking, true)
  {
    TwoBlocked(g);
    assert 0 in g.dependencies(1) && !Blocking.Get(0).Succeeded();
  }

  lemma OneQueued(g: Graph)
    requires IsChain(g)
    ensures MarkFailed(g, Blocking, 1, GeneralFailure) == Circling
  {
    FailsInChain(g, Blocking, 1, GeneralFailure);
    assert Blocking.Put(1, FailedOne).tasks == Circling.tasks;
  }

  lemma CirclingIsStuck(g: Graph)
    requires IsChain(g)
    ensures Stuck(g, Circling, 1)
  {
    assert 0 in g.dependencies(1) && !Circling.Get(0).Succeeded();
    assert 1 in g.dependencies(2) && !Circling.Get(1).Succeeded();
    assert 2 in g.dependents(1);
  }

  lemma RunOne(g: Graph, s: State, ev: Event, evs: seq<Event>, r: State)
    requires WellFormed(g) && Enabled(g, s, ev) && Step(g, s, ev) == r && IsRun(g, r, evs)
    ensures IsRun(g, s, [ev] + evs) && Run(g, s, [ev] + evs) == Run(g, r, evs)
  {
    assert ([ev] + evs)[1..] == evs;
  }

  lemma UnluckyEnd(g: Graph)
    requires IsChain(g)
    ensures IsRun(g, Submitted, Report) && Run(g, Submitted, Report) == Reported
  {
    ChainStarted(g);
    ChainReported(g);
    RunOne(g, Started, Fail(2, OneLost), [], Reported);
    RunOne(g, Submitted, Choose(Some(2)), [Fail(2, OneLost)] + [], Started);
    assert [Choose(Some(2))] + ([Fail(2, OneLost)] + []) == Report;
  }

  lemma UnluckyRun()
    ensures IsChain(Chain()) && IsRun(Chain(), Cached, Unlucky) && Run(Chain(), Cached, Unlucky) == Reported
  {
    ChainIsChain();
    UnluckyRunOn(Chain());
  }

  lemma UnluckyRunOn(g: Graph)
    requires IsChain(g) && ClosedJob(g, Job)
    ensures IsRun(g, Cached, Unlucky) && Run(g, Cached, Unlucky) == Reported
  {
    UnluckyJob(g);
    var evs := [Submission(Job)] + Report;
    RunOne(g, Joined, SetAvoided(0, {7}), evs, Avoiding);
    RunOne(g, Cached, AddExecutor(7, true), [SetAvoided(0, {7})] + evs, Joined);
    assert [AddExecutor(7, true)] + ([SetAvoided(0, {7})] + evs) == Unlucky;
  }

  lemma UnluckyJob(g: Graph)
    requires IsChain(g) && ClosedJob(g, Job)
    ensures var evs := [Submission(Job)] + Report;
      IsRun(g, Avoiding, evs) && Run(g, Avoiding, evs) == Reported
  {
    ChainSubmitted(g);
    UnluckyEnd(g);
    RunOne(g, Avoiding, Submission(Job), Report, Submitted);
  }

  lemma ReportedCircles(g: Graph)
    requires IsChain(g)
    ensures Lasts(g, Reported, 2) && After(g, Reported, 2) == Circling
  {
    ChainInvalidated(g);
    ChainCircles(g);
    assert Lasts(g, Circling, 0) && After(g, Circling, 0) == Circling;
    assert Lasts(g, Invalidated, 1) && After(g, Invalidated, 1) == Circling;
  }

  /**
   A task whose input is available runs while a dependency of that input still waits, and reports
   the input as lost.  From then on draining never ends, so nothing is picked any more.
   */
  lemma LostCacheSpins()
    ensures WellFormed(Chain()) && Initial(Cached) && IsRun(Chain(), Cached, Unlucky)
    ensures NeverEnds(Chain(), Run(Chain(), Cached, Unlucky))
  {
    UnluckyRun();
    ReportedCircles(Chain());
    CirclingIsStuck(Chain());
    ReportedSlots();
    DrainingEnds(Chain(), Reported);
  }

  lemma ReportedSlots()
    ensures Slots(Reported) && !Reported.crashed
  {
  }
}

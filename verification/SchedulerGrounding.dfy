/**
 What a caller can check to be sure that draining ends: available tasks are submitted together with
 available dependencies, and reports of lost dependencies name only tasks that were started.

 The invariant says of every known task that was started, stopped or is executable that each of its
 dependencies was started, and has succeeded, blocks it, or has a notification waiting.  In a stuck
 state the dependency that has not succeeded would be a notification above the highest one.
 */
module SchedulerGrounding {
  import opened Sequences
  import opened SchedulerModel
  import opened SchedulerSafety
  import opened SchedulerReadiness
  import opened SchedulerSlots
  import opened SchedulerDraining
  import opened SchedulerStuck

  ghost predicate Touched(s: State, x: TaskId) { s.Get(x).started || s.Get(x).stopped || x in s.executable }

  /** The set p holds the tasks whose notification is being handled. */
  ghost predicate Answered(s: State, u: TaskId, d: TaskId, p: set<TaskId>) {
    s.Get(d).started && (s.Get(d).Succeeded() || d in s.Get(u).blocked || d in s.done || d in p)
  }

  ghost predicate NamesStarted(s: State, failure: Failure) {
    failure.DependenciesFailed? ==> forall l :: l in failure.lost ==> s.Get(l.task).started
  }

  /** Task `task` may be the record of a task. */
  ghost predicate Honest(s: State, task: Task) {
    && (task.Succeeded() ==> task.started)
    && (task.exception.Some? ==> NamesStarted(s, task.exception.value))
  }

  ghost predicate Grounded(g: Graph, s: State, p: set<TaskId>) {
    && (forall x :: Honest(s, s.Get(x)))
    && forall u, d :: u in s.known && Touched(s, u) && d in g.dependencies(u) ==> Answered(s, u, d, p)
  }

  // ---- single changes ------------------------------------------------------------------------

  /** Blockers are added, tasks become executable only when their dependencies have succeeded. */
  lemma Steady(g: Graph, s: State, r: State, p: set<TaskId>)
    requires Grounded(g, s, p) && r.known <= s.known
    requires forall x :: SameStatus(s.Get(x), r.Get(x)) && s.Get(x).blocked <= r.Get(x).blocked
    requires forall x :: x in r.executable ==> x in s.executable || DependenciesSucceeded(g, s, x)
    requires forall x :: x in s.done ==> x in r.done
    ensures Grounded(g, r, p)
  {
    forall x ensures Honest(r, r.Get(x)) {
      assert Honest(s, s.Get(x)) && SameStatus(s.Get(x), r.Get(x));
    }
    forall u, d | u in r.known && Touched(r, u) && d in g.dependencies(u) ensures Answered(r, u, d, p) {
      assert SameStatus(s.Get(d), r.Get(d)) && SameStatus(s.Get(u), r.Get(u));
      assert Honest(s, s.Get(d));
      if Touched(s, u) {
        assert Answered(s, u, d, p);
      }
    }
  }

  /** The record of a single task is replaced. */
  lemma Change(g: Graph, s: State, t: TaskId, task: Task, p: set<TaskId>)
    requires Grounded(g, s, p) && task.blocked == s.Get(t).blocked && Honest(s, task)
    requires s.Get(t).started ==> task.started
    requires t in s.known && (task.started || task.stopped) ==> Touched(s, t)
    ensures Grounded(g, s.Put(t, task), if s.Get(t).Succeeded() && !task.Succeeded() then p + {t} else p)
  {
    var r := s.Put(t, task);
    assert forall x :: r.Get(x) == if x == t then task else s.Get(x);
    forall x ensures Honest(r, r.Get(x)) {
      assert Honest(s, s.Get(x));
    }
    var q := if s.Get(t).Succeeded() && !task.Succeeded() then p + {t} else p;
    forall u, d | u in r.known && Touched(r, u) && d in g.dependencies(u) ensures Answered(r, u, d, q) {
      assert Answered(s, u, d, p);
    }
  }

  /** The notification of t was handled: whoever depends on it is blocked, or it succeeded, or it is queued again. */
  lemma Discharge(g: Graph, s: State, t: TaskId, p: set<TaskId>)
    requires Grounded(g, s, p + {t})
    requires forall u :: u in s.known && t in g.dependencies(u) ==>
      s.Get(t).Succeeded() || t in s.done || t in s.Get(u).blocked
    ensures Grounded(g, s, p)
  {
    forall u, d | u in s.known && Touched(s, u) && d in g.dependencies(u) ensures Answered(s, u, d, p) {
      assert Answered(s, u, d, p + {t});
    }
  }

  // ---- stopping ------------------------------------------------------------------------------

  ghost predicate SameTouched(s: State, r: State) {
    && r == s.(tasks := r.tasks, done := r.done)
    && (forall x :: x in s.done ==> x in r.done)
    && (forall x :: s.Get(x).started ==> r.Get(x).started)
    && (forall x :: s.Get(x).stopped ==> r.Get(x).stopped)
  }

  lemma HandOffGrounded(g: Graph, s: State, t: TaskId, task: Task, p: set<TaskId>)
    requires WellFormed(g) && Closed(g, s) && Grounded(g, s, p)
    requires task.blocked == s.Get(t).blocked && Honest(s, task) && task.stopped
    requires s.Get(t).started ==> task.started
    requires t in s.known ==> Touched(s, t)
    ensures Grounded(g, HandOff(s.Put(t, task), t), p)
  {
    var m := s.Put(t, task);
    var r := HandOff(m, t);
    Change(g, s, t, task, p);
    Wider(g, m, t, p, if s.Get(t).Succeeded() && !task.Succeeded() then p + {t} else p);
    Steady(g, m, r, p + {t});
    Discharge(g, r, t, p);
  }

  lemma Wider(g: Graph, s: State, t: TaskId, p: set<TaskId>, q: set<TaskId>)
    requires Grounded(g, s, q) && q <= p + {t}
    ensures Grounded(g, s, p + {t})
  {
    forall u, d | u in s.known && Touched(s, u) && d in g.dependencies(u) ensures Answered(s, u, d, p + {t}) {
      assert Answered(s, u, d, q);
    }
  }

  lemma FailPlainlyGrounded(g: Graph, s: State, d: TaskId, p: set<TaskId>)
    requires WellFormed(g) && Closed(g, s) && Grounded(g, s, p) && (d in s.known ==> Touched(s, d))
    ensures Grounded(g, FailPlainly(s, d), p) && SameTouched(s, FailPlainly(s, d))
  {
    var task := s.Get(d).(stopped := true, exception := Some(FailedDependency));
    HandOffGrounded(g, s, d, task, p);
  }

  lemma {:induction false} FailAllGrounded(g: Graph, s: State, ds: seq<TaskId>, p: set<TaskId>)
    requires WellFormed(g) && Closed(g, s) && Grounded(g, s, p)
    requires forall d :: d in ds && d in s.known ==> Touched(s, d)
    ensures Grounded(g, FailAll(s, ds), p) && SameTouched(s, FailAll(s, ds))
    decreases |ds|
  {
    if ds != [] {
      var m := FailPlainly(s, ds[0]);
      FailPlainlyGrounded(g, s, ds[0], p);
      assert forall d :: d in ds[1..] ==> d in ds;
      FailAllGrounded(g, m, ds[1..], p);
    }
  }

  /** A computing task that lost its input fails its barriers, which were all started. */
  lemma SignalStopGrounded(g: Graph, s: State, t: TaskId, task: Task, p: set<TaskId>)
    requires WellFormed(g) && Closed(g, s) && Grounded(g, s, p)
    requires task.blocked == s.Get(t).blocked && Honest(s, task.(stopped := true)) && Honest(s, task)
    requires s.Get(t).started ==> task.started
    requires s.Get(t).stopped ==> task.stopped
    requires t in s.known ==> Touched(s, t)
    ensures Grounded(g, SignalStop(g, s.Put(t, task), t), p)
    ensures SameTouched(s, SignalStop(g, s.Put(t, task), t))
  {
    var s0 := s.Put(t, task);
    var q := p + {t};
    Change(g, s, t, task, p);
    Wider(g, s0, t, p, if s.Get(t).Succeeded() && !task.Succeeded() then p + {t} else p);
    BarriersTouched(g, s, t, task, p);
    var s1 := Replaced(g, s, t, task);
    ReplacedOnlyFails(g, s, t, task);
    if s1 != s0 {
      FailAllGrounded(g, s0, g.dependencies(t), q);
    }
    StopAfter(g, s, s0, s1, t, task, p);
  }

  lemma BarriersTouched(g: Graph, s: State, t: TaskId, task: Task, p: set<TaskId>)
    requires Closed(g, s) && WellFormed(g) && Grounded(g, s, p)
    requires s.Get(t).started ==> task.started
    requires t in s.known ==> Touched(s, t)
    ensures forall d :: d in g.dependencies(t) && d in s.known ==> Touched(s.Put(t, task), d)
  {
    forall d | d in g.dependencies(t) && d in s.known ensures Touched(s.Put(t, task), d) {
      assert t in g.dependents(d);
      assert Answered(s, t, d, p);
    }
  }

  lemma StopAfter(g: Graph, s: State, s0: State, s1: State, t: TaskId, task: Task, p: set<TaskId>)
    requires WellFormed(g) && Closed(g, s) && s0 == s.Put(t, task) && SameTouched(s0, s1)
    requires s.Get(t).started ==> task.started
    requires s.Get(t).stopped ==> task.stopped
    requires Grounded(g, s1, p + {t}) && OnlyFailed(s0, s1) && Honest(s, task.(stopped := true))
    requires t in s.known ==> Touched(s, t)
    ensures var r := HandOff(s1.Put(t, s1.Get(t).(stopped := true)), t);
      Grounded(g, r, p) && SameTouched(s, r)
  {
    StartedSince(s, s0, s1, t, task);
    var task1 := s1.Get(t).(stopped := true);
    assert Honest(s1, s1.Get(t));
    assert Honest(s1, task1) by {
      assert s0.Get(t) == task && SameOrFailed(s0.Get(t), s1.Get(t));
    }
    HandOffGrounded(g, s1, t, task1, p + {t});
    var r := HandOff(s1.Put(t, task1), t);
    HandedOffTouched(s, s1, t);
    Discharge(g, r, t, p);
  }

  lemma HandedOffTouched(s: State, s1: State, t: TaskId)
    requires s1 == s.(tasks := s1.tasks, done := s1.done) && forall x :: x in s.done ==> x in s1.done
    requires forall x :: (s.Get(x).started ==> s1.Get(x).started) && (s.Get(x).stopped ==> s1.Get(x).stopped)
    ensures var r := HandOff(s1.Put(t, s1.Get(t).(stopped := true)), t);
      SameTouched(s, r) && (t in s.known ==> t in r.done)
  {
    var r := HandOff(s1.Put(t, s1.Get(t).(stopped := true)), t);
    HandedOff(s1, t);
    forall x ensures (s.Get(x).started ==> r.Get(x).started) && (s.Get(x).stopped ==> r.Get(x).stopped) {
      assert s1.Get(x).started ==> r.Get(x).started;
    }
  }

  lemma StartedSince(s: State, s0: State, s1: State, t: TaskId, task: Task)
    requires s0 == s.Put(t, task) && SameTouched(s0, s1)
    requires (s.Get(t).started ==> task.started) && (s.Get(t).stopped ==> task.stopped)
    ensures forall x :: (s.Get(x).started ==> s1.Get(x).started) && (s.Get(x).stopped ==> s1.Get(x).stopped)
    ensures s1 == s.(tasks := s1.tasks, done := s1.done) && forall x :: x in s.done ==> x in s1.done
  {
    assert forall x :: s0.Get(x) == if x == t then task else s.Get(x);
  }

  lemma MarkFailedGrounded(g: Graph, s: State, t: TaskId, failure: Failure, p: set<TaskId>)
    requires WellFormed(g) && Closed(g, s) && Grounded(g, s, p) && !failure.DependenciesFailed?
    requires t in s.known ==> Touched(s, t)
    ensures var r := MarkFailed(g, s, t, failure); Grounded(g, r, p) && SameTouched(s, r)
  {
    SignalStopGrounded(g, s, t, s.Get(t).(stopped := true, exception := Some(failure)), p);
  }

  // ---- the handlers --------------------------------------------------------------------------

  lemma MarkExecutableGrounded(g: Graph, s: State, t: TaskId, p: set<TaskId>)
    requires Grounded(g, s, p)
    ensures var r := MarkExecutable(g, s, t).state;
      Grounded(g, r, p) && r.known == s.known && forall x :: SameStatus(s.Get(x), r.Get(x))
  {
    var r := MarkExecutable(g, s, t).state;
    if r != s {
      var m := if s.Get(t).Succeeded() then s else Forbid(s.(executable := s.executable + {t}), t);
      assert forall x :: m.Get(x) == s.Get(x);
      BlockDependentsStatus(g, m, t, 0);
      Steady(g, s, r, p);
    }
  }

  lemma {:induction false} DependenciesLostGrounded(g: Graph, s: State, t: TaskId, lost: seq<Lost>, p: set<TaskId>)
    requires WellFormed(g) && Closed(g, s) && Grounded(g, s, p) && Touched(s, t)
    requires forall l :: l in lost ==> s.Get(l.task).started
    ensures var r := DependenciesLost(g, s, t, lost).state; Grounded(g, r, p) && r.known == s.known
    decreases |lost|
  {
    if lost == [] {
      MarkExecutableGrounded(g, s, t, p);
    } else if lost[0].task !in s.known {
      MarkFailedGrounded(g, s, t, GeneralFailure, p);
    } else {
      assert lost[0] in lost && forall l :: l in lost[1..] ==> l in lost;
      if IsLost(s.Get(lost[0].task), lost[0]) {
        MarkFailedGrounded(g, s, lost[0].task, FailedDependency, p);
        DependenciesLostGrounded(g, MarkFailed(g, s, lost[0].task, FailedDependency), t, lost[1..], p);
      } else {
        DependenciesLostGrounded(g, s, t, lost[1..], p);
      }
    }
  }

  lemma SlotsGrounded(g: Graph, s: State, r: State, p: set<TaskId>)
    requires Grounded(g, s, p) && r.known <= s.known && r.executable <= s.executable && r.tasks == s.tasks
    requires forall x :: x in s.done ==> x in r.done
    ensures Grounded(g, r, p)
  {
    assert forall x :: r.Get(x) == s.Get(x);
    Steady(g, s, r, p);
  }

  lemma TaskFailedGrounded(g: Graph, s: State, t: TaskId, p: set<TaskId>)
    requires WellFormed(g) && Closed(g, s) && Grounded(g, s, p + {t}) && s.Get(t).Failed()
    ensures var r := TaskFailed(g, s, t).state; Grounded(g, r, p) && r.known == s.known && r.Get(t).stopped
  {
    var m := MarkAllBlocked(g, s, t, 0);
    DependentsBlocked(g, s, t, p);
    assert SameStatus(s.Get(t), m.Get(t));
    match s.Get(t).exception.value
    case DependenciesFailed(lost) =>
      assert Honest(m, m.Get(t));
      DependenciesLostGrounded(g, m, t, lost, p);
      DependenciesLostStopped(g, m, t, lost);
    case NotConnected =>
      MarkExecutableGrounded(g, m, t, p);
      DroppedGrounded(g, m, t, p);
    case FailedDependency =>
      MarkExecutableGrounded(g, m, t, p);
      assert SameStatus(m.Get(t), MarkExecutable(g, m, t).state.Get(t));
    case GeneralFailure =>
      GeneralGrounded(g, m, t, p);
  }

  lemma DroppedGrounded(g: Graph, s: State, t: TaskId, p: set<TaskId>)
    requires Grounded(g, s, p) && s.Get(t).stopped
    ensures var r := DropReady(TransientFailure(g, s, t).state, s.Get(t).LastExecutedOn());
      Grounded(g, r, p) && r.known == s.known && r.Get(t).stopped
  {
    MarkExecutableGrounded(g, s, t, p);
    assert SameStatus(s.Get(t), MarkExecutable(g, s, t).state.Get(t));
    var m := TransientFailure(g, s, t).state;
    SlotsGrounded(g, m, DropReady(m, s.Get(t).LastExecutedOn()), p);
  }

  lemma {:induction false} DependenciesLostStopped(g: Graph, s: State, t: TaskId, lost: seq<Lost>)
    requires s.Get(t).stopped
    ensures DependenciesLost(g, s, t, lost).state.Get(t).stopped
    decreases |lost|
  {
    if lost == [] {
      MarkExecutableCosts(g, s, t, []);
      assert SameStatus(s.Get(t), MarkExecutable(g, s, t).state.Get(t));
    } else if lost[0].task !in s.known {
      MarkFailedEffect(g, s, t, GeneralFailure);
    } else if IsLost(s.Get(lost[0].task), lost[0]) {
      var m := MarkFailed(g, s, lost[0].task, FailedDependency);
      MarkFailedEffect(g, s, lost[0].task, FailedDependency);
      assert SameOrFailed(s.Get(t), m.Get(t));
      DependenciesLostStopped(g, m, t, lost[1..]);
    } else {
      DependenciesLostStopped(g, s, t, lost[1..]);
    }
  }

  /** Blocking the dependents of a task replaces its notification. */
  lemma DependentsBlocked(g: Graph, s: State, t: TaskId, p: set<TaskId>)
    requires WellFormed(g) && Grounded(g, s, p + {t})
    ensures var m := MarkAllBlocked(g, s, t, 0);
      Grounded(g, m, p) && m.known == s.known && forall x :: SameStatus(s.Get(x), m.Get(x))
  {
    var m := MarkAllBlocked(g, s, t, 0);
    MarkAllBlockedOnlyBlocks(g, s, t, 0);
    Steady(g, s, m, p + {t});
    forall u | t in g.dependencies(u) ensures t in m.Get(u).blocked {
      assert u in g.dependents(t);
    }
    Discharge(g, m, t, p);
  }

  lemma GeneralGrounded(g: Graph, s: State, t: TaskId, p: set<TaskId>)
    requires Grounded(g, s, p) && s.Get(t).stopped
    ensures var e := s.Get(t).LastExecutedOn();
      var r := TransientFailure(g, s.(forbidden := s.forbidden[e := s.Forbidden(e) + {t}]), t).state;
      Grounded(g, r, p) && r.known == s.known && r.Get(t).stopped
    ensures Grounded(g, Emit(s, t), p)
  {
    var e := s.Get(t).LastExecutedOn();
    var m := s.(forbidden := s.forbidden[e := s.Forbidden(e) + {t}]);
    SlotsGrounded(g, s, m, p);
    SlotsGrounded(g, s, Emit(s, t), p);
    MarkExecutableGrounded(g, m, t, p);
    assert SameStatus(m.Get(t), MarkExecutable(g, m, t).state.Get(t));
  }

  /** A task that has succeeded need not block any longer. */
  lemma UnblockedGrounded(g: Graph, s: State, t: TaskId, u: TaskId, p: set<TaskId>)
    requires Grounded(g, s, p) && s.Get(t).Succeeded()
    ensures Grounded(g, s.Put(u, s.Get(u).(blocked := s.Get(u).blocked - {t})), p)
  {
    var r := s.Put(u, s.Get(u).(blocked := s.Get(u).blocked - {t}));
    forall x ensures SameStatus(s.Get(x), r.Get(x)) && s.Get(x).blocked <= r.Get(x).blocked + {t} {}
    forall x ensures Honest(r, r.Get(x)) {
      assert Honest(s, s.Get(x));
    }
    forall v, d | v in r.known && Touched(r, v) && d in g.dependencies(v) ensures Answered(r, v, d, p) {
      assert Answered(s, v, d, p);
    }
  }

  lemma {:induction false} UnblockGrounded(g: Graph, s: State, t: TaskId, u: TaskId, p: set<TaskId>)
    requires WellFormed(g) && Closed(g, s) && Grounded(g, s, p) && s.Get(t).Succeeded() && u in g.dependents(t)
    ensures var r := Unblock(g, s, t, u).state;
      Grounded(g, r, p) && r.known == s.known && SameStatus(s.Get(t), r.Get(t))
    decreases g.height(t), 1, 0
  {
    var task := s.Get(u);
    var ks := Listed(s.known);
    UnblockCosts(g, s, t, u, ks);
    if task.blocked != {} {
      var m := s.Put(u, task.(blocked := task.blocked - {t}));
      UnblockedGrounded(g, s, t, u, p);
      if task.blocked - {t} == {} {
        if task.Succeeded() {
          SucceededGrounded(g, m, u, p);
        } else {
          MarkExecutableGrounded(g, m, u, p);
        }
      }
    }
  }

  lemma {:induction false} TaskSucceededGrounded(g: Graph, s: State, t: TaskId, i: nat, p: set<TaskId>)
    requires WellFormed(g) && i <= |g.dependents(t)| && Closed(g, s) && Grounded(g, s, p) && s.Get(t).Succeeded()
    ensures var r := TaskSucceeded(g, s, t, i).state;
      Grounded(g, r, p) && r.known == s.known && r.Get(t).stopped
    decreases g.height(t), 1, |g.dependents(t)| - i + 1
  {
    if i == |g.dependents(t)| {
      SlotsGrounded(g, s, Emit(s, t), p);
    } else {
      var u := g.dependents(t)[i];
      assert u in g.dependents(t);
      UnblockGrounded(g, s, t, u, p);
      var m := Unblock(g, s, t, u);
      if !m.raised {
        TaskSucceededGrounded(g, m.state, t, i + 1, p);
      }
    }
  }

  lemma {:induction false} SucceededGrounded(g: Graph, s: State, t: TaskId, p: set<TaskId>)
    requires WellFormed(g) && Closed(g, s) && Grounded(g, s, p) && s.Get(t).Succeeded()
    ensures var r := TaskDone(g, s, t).state; Grounded(g, r, p) && r.known == s.known
    decreases g.height(t), 2
  {
    if t in s.known {
      var e := s.Get(t).LastExecutedOn();
      var s0 := s.Touch(e);
      SlotsGrounded(g, s, s0, p);
      TaskSucceededGrounded(g, s0, t, 0, p);
      SettleGrounded(g, TaskSucceeded(g, s0, t, 0), t, e, p);
    }
  }

  lemma SettleGrounded(g: Graph, h: Outcome, t: TaskId, e: Option<Executor>, p: set<TaskId>)
    requires WellFormed(g) && Closed(g, h.state) && Grounded(g, h.state, p) && h.state.Get(t).stopped
    ensures var r := Settle(g, h, t, e).state; Grounded(g, r, p) && r.known == h.state.known
  {
    MarkFailedGrounded(g, h.state, t, GeneralFailure, p);
    SlotFreedGrounded(g, if h.raised then MarkFailed(g, h.state, t, GeneralFailure) else h.state, t, e, p);
  }

  lemma SlotFreedGrounded(g: Graph, s: State, t: TaskId, e: Option<Executor>, p: set<TaskId>)
    requires Grounded(g, s, p)
    ensures Grounded(g, FreeSlot(s, t, e).state, p) && FreeSlot(s, t, e).state.known == s.known
  {
    SlotsGrounded(g, s, FreeSlot(s, t, e).state, p);
  }

  lemma TaskDoneGrounded(g: Graph, s: State, t: TaskId)
    requires WellFormed(g) && Closed(g, s) && Grounded(g, s, {t}) && s.Get(t).stopped
    ensures Grounded(g, TaskDone(g, s, t).state, {})
  {
    if t !in s.known || s.Get(t).Succeeded() {
      assert {} + {t} == {t};
      Discharge(g, s, t, {});
      if t in s.known {
        SucceededGrounded(g, s, t, {});
      }
    } else {
      var e := s.Get(t).LastExecutedOn();
      var s0 := s.Touch(e);
      SlotsGrounded(g, s, s0, {t});
      assert {} + {t} == {t};
      TaskFailedGrounded(g, s0, t, {});
      SettleGrounded(g, TaskFailed(g, s0, t), t, e, {});
    }
  }

  lemma DrainGrounded(g: Graph, s: State)
    requires WellFormed(g) && Invariant(g, s) && Grounded(g, s, {}) && Enabled(g, s, Drain)
    ensures Grounded(g, Step(g, s, Drain), {})
  {
    var t := s.done[0];
    var s1 := s.(done := s.done[1..]);
    assert s.done == [t] + s1.done;
    assert t in s.done;
    forall x ensures Honest(s1, s1.Get(x)) {
      assert Honest(s, s.Get(x));
    }
    forall u, d | u in s1.known && Touched(s1, u) && d in g.dependencies(u) ensures Answered(s1, u, d, {t}) {
      assert Answered(s, u, d, {});
    }
    TaskDoneGrounded(g, s1, t);
    SlotsGrounded(g, TaskDone(g, s1, t).state, Step(g, s, Drain), {});
  }

  // ---- jobs and the loop ---------------------------------------------------------------------

  lemma CancelGrounded(g: Graph, s: State, t: TaskId)
    requires Safe(g, s, {}) && Grounded(g, s, {})
    ensures var r := Cancel(g, s, t);
      Grounded(g, r, {}) && r == s.(tasks := r.tasks, done := r.done) && (forall x :: x in s.done ==> x in r.done)
  {
    if s.Get(t).Running() {
      var task := s.Get(t).(cancelled := true, stopped := true);
      assert Honest(s, s.Get(t));
      Change(g, s, t, task, {});
      var m := s.Put(t, s.Get(t).(cancelled := true));
      assert m.Put(t, m.Get(t).(stopped := true)).tasks == s.Put(t, task).tasks;
      SlotsGrounded(g, s.Put(t, task), Cancel(g, s, t), {});
    }
  }

  /** A task that is not known any more depends on nothing. */
  lemma ReleasedGrounded(g: Graph, s: State, r: State, t: TaskId)
    requires Grounded(g, s, {}) && r.known <= s.known - {t} && r.executable <= s.executable && r.done == s.done
    requires (forall x :: x != t ==> r.Get(x) == s.Get(x)) && SameStatus(s.Get(t), r.Get(t))
    ensures Grounded(g, r, {})
  {
    forall x ensures Honest(r, r.Get(x)) {
      assert Honest(s, s.Get(x));
    }
    forall u, d | u in r.known && Touched(r, u) && d in g.dependencies(u) ensures Answered(r, u, d, {}) {
      assert Answered(s, u, d, {});
    }
  }

  lemma CancelTaskGrounded(g: Graph, s: State, t: TaskId)
    requires Safe(g, s, {}) && Grounded(g, s, {})
    ensures Grounded(g, CancelTask(g, s, t), {})
  {
    var s1 := Cancel(g, s, t);
    CancelGrounded(g, s, t);
    var s2 := s1.Put(t, s1.Get(t).(blocked := {}));
    if t !in s2.known {
      ReleasedGrounded(g, s1, s2, t);
    } else {
      var s3 := Forget(s2, t);
      ReleasedGrounded(g, s1, s3, t);
      SlotsFreedGrounded(g, s3, t);
    }
  }

  lemma SlotsFreedGrounded(g: Graph, s: State, t: TaskId)
    requires Grounded(g, s, {})
    ensures Grounded(g, FreeSlots(s, t, s.slots), {})
  {
    FreeSlotsSameTasks(s, t, s.slots);
    SlotsGrounded(g, s, FreeSlots(s, t, s.slots), {});
  }

  lemma {:induction false} CancelTasksGrounded(g: Graph, s: State, job: seq<TaskId>)
    requires Safe(g, s, {}) && Grounded(g, s, {})
    ensures Grounded(g, CancelTasks(g, s, job), {})
    decreases |job|
  {
    if job != [] {
      CancelTaskSafe(g, s, job[0]);
      CancelTaskGrounded(g, s, job[0]);
      CancelTasksGrounded(g, CancelTask(g, s, job[0]), job[1..]);
    }
  }

  lemma {:induction false} MarkRootsGrounded(g: Graph, s: State, job: seq<TaskId>)
    requires Grounded(g, s, {})
    ensures Grounded(g, MarkRoots(g, s, job).state, {})
    decreases |job|
  {
    if job != [] {
      MarkExecutableGrounded(g, s, job[0], {});
      var r := if !s.Get(job[0]).Succeeded() && DependenciesSucceeded(g, s, job[0])
               then MarkExecutable(g, s, job[0]) else Outcome(s, false);
      if !r.raised {
        MarkRootsGrounded(g, r.state, job[1..]);
      }
    }
  }

  /** Available tasks have available dependencies. */
  ghost predicate Supported(g: Graph, s: State, job: seq<TaskId>) {
    forall t :: t in job && s.Get(t).Succeeded() ==> DependenciesSucceeded(g, s, t)
  }

  lemma SubmitGrounded(g: Graph, s: State, job: seq<TaskId>)
    requires Invariant(g, s) && Grounded(g, s, {}) && Submittable(g, s, job) && Supported(g, s, job)
    ensures Grounded(g, Submit(g, s, job), {})
  {
    var s1 := s.(known := s.known + set t | t in job);
    JobGrounded(g, s, s1, job);
    MarkRootsGrounded(g, s1, job);
    SubmittedInvariant(g, s, job);
    MarkRootsSafe(g, s1, job);
    if MarkRoots(g, s1, job).raised {
      CancelTasksGrounded(g, MarkRoots(g, s1, job).state, job);
    }
  }

  lemma JobGrounded(g: Graph, s: State, s1: State, job: seq<TaskId>)
    requires Invariant(g, s) && Grounded(g, s, {}) && Submittable(g, s, job) && Supported(g, s, job)
    requires s1 == s.(known := s.known + set t | t in job)
    ensures Grounded(g, s1, {})
  {
    forall x ensures Honest(s1, s1.Get(x)) {
      assert Honest(s, s.Get(x));
    }
    forall u, d | u in s1.known && Touched(s1, u) && d in g.dependencies(u) ensures Answered(s1, u, d, {}) {
      if u in s.known {
        assert Answered(s, u, d, {});
      } else {
        assert u in job && s.Get(u).Succeeded();
        assert Honest(s, s.Get(d));
      }
    }
  }

  lemma {:induction false} FailGenerallyGrounded(g: Graph, s: State, ts: seq<TaskId>)
    requires WellFormed(g) && Closed(g, s) && Grounded(g, s, {}) && forall t :: t in ts ==> t in s.executable
    ensures Grounded(g, FailGenerally(g, s, ts), {})
    decreases |ts|
  {
    if ts != [] {
      assert ts[0] in s.executable && forall t :: t in ts[1..] ==> t in ts;
      MarkFailedGrounded(g, s, ts[0], GeneralFailure, {});
      FailGenerallyGrounded(g, MarkFailed(g, s, ts[0], GeneralFailure), ts[1..]);
    }
  }

  lemma StartGrounded(g: Graph, s: State, t: TaskId, e: Executor)
    requires WellFormed(g) && Invariant(g, s) && Grounded(g, s, {}) && t in s.executable
    ensures Grounded(g, Start(g, s, t, e), {})
  {
    StartEffect(g, s, t, e);
    if s.Get(t).cancelled {
      RefusedGrounded(g, s, t, Occupied(s, t, e));
    } else {
      var task := s.Get(t).(started := true, stopped := false, exception := None,
        executedOn := s.Get(t).executedOn + [e], resultOn := s.Get(t).resultOn + [e]);
      Change(g, s, t, task, {});
      SlotsGrounded(g, s.Put(t, task), Occupied(s, t, e).Put(t, task), {});
    }
  }

  /** A task that was cancelled before it could start fails. */
  lemma RefusedGrounded(g: Graph, s: State, t: TaskId, m: State)
    requires WellFormed(g) && Invariant(g, s) && Grounded(g, s, {}) && t in s.executable
    requires m.tasks == s.tasks && m.known == s.known && m.done == s.done && m.executable <= s.executable
    ensures Grounded(g, MarkFailed(g, m, t, GeneralFailure), {})
  {
    var task := s.Get(t).(stopped := true, exception := Some(GeneralFailure));
    PutTwice(m, t, task);
    HandOffGrounded(g, s, t, task, {});
    SlotsGrounded(g, HandOff(s.Put(t, task), t), HandOff(m.Put(t, task), t), {});
  }

  // ---- runs ----------------------------------------------------------------------------------

  /** What a caller has to see to. */
  ghost predicate Sincere(g: Graph, s: State, ev: Event) {
    match ev
    case Submission(job) => Supported(g, s, job)
    case Fail(_, failure) => NamesStarted(s, failure)
    case _ => true
  }

  ghost predicate IsSincereRun(g: Graph, s: State, evs: seq<Event>)
    requires WellFormed(g) && IsRun(g, s, evs)
    decreases |evs|
  {
    evs != [] ==> Sincere(g, s, evs[0]) && IsSincereRun(g, Step(g, s, evs[0]), evs[1..])
  }

  lemma CallbackGrounded(g: Graph, s: State, ev: Event)
    requires WellFormed(g) && Invariant(g, s) && Grounded(g, s, {}) && Enabled(g, s, ev) && Sincere(g, s, ev)
    requires ev.Finish? || ev.Fail? || ev.FinishCancelled?
    ensures Grounded(g, Step(g, s, ev), {})
  {
    var t := ev.task;
    assert Honest(s, s.Get(t));
    var task := match ev
      case Finish(_, location) => s.Get(t).At(location)
      case Fail(_, failure) => s.Get(t).(exception := Some(failure))
      case _ => s.Get(t).(exception := None, cancelled := true);
    SignalStopGrounded(g, s, t, task, {});
  }

  lemma PickGrounded(g: Graph, s: State, choice: Option<TaskId>)
    requires WellFormed(g) && Invariant(g, s) && Grounded(g, s, {}) && Enabled(g, s, Choose(choice))
    ensures Grounded(g, Pick(g, s, choice), {})
  {
    var s1 := s.(ready := s.ready[1..]);
    SlotsGrounded(g, s, s1, {});
    if s.ready[0] in s.executors && s.executors[s.ready[0]] && choice.Some? {
      SameTaskRecords(g, s, s1);
      StartGrounded(g, s1, choice.value, s.ready[0]);
    } else {
      SlotsGrounded(g, s, Pick(g, s, choice), {});
    }
  }

  /** Each event keeps the invariant. */
  lemma StepGrounded(g: Graph, s: State, ev: Event)
    requires WellFormed(g) && Invariant(g, s) && Grounded(g, s, {}) && Enabled(g, s, ev) && Sincere(g, s, ev)
    ensures Grounded(g, Step(g, s, ev), {})
  {
    match ev
    case Submission(job) => SubmitGrounded(g, s, job);
    case Cancellation(job) => CancelTasksGrounded(g, s, job);
    case CancelRequest(t) => CancelGrounded(g, s, t);
    case Finish(_, _) => CallbackGrounded(g, s, ev);
    case Fail(_, _) => CallbackGrounded(g, s, ev);
    case FinishCancelled(_) => CallbackGrounded(g, s, ev);
    case Drain => DrainGrounded(g, s);
    case NoExecutors(order) => FailGenerallyGrounded(g, s, order);
    case Choose(choice) => PickGrounded(g, s, choice);
    case _ => SlotsGrounded(g, s, Step(g, s, ev), {});
  }

  lemma {:induction false} RunGrounded(g: Graph, s: State, evs: seq<Event>)
    requires WellFormed(g) && IsRun(g, s, evs) && IsSincereRun(g, s, evs)
    requires Invariant(g, s) && Grounded(g, s, {})
    ensures Invariant(g, Run(g, s, evs)) && Grounded(g, Run(g, s, evs), {})
    decreases |evs|
  {
    if evs != [] {
      StepInvariant(g, s, evs[0]);
      StepGrounded(g, s, evs[0]);
      RunGrounded(g, Step(g, s, evs[0]), evs[1..]);
    }
  }

  // ---- draining ends -------------------------------------------------------------------------

  lemma {:induction false} GroundedAfter(g: Graph, s: State, n: nat)
    requires WellFormed(g) && Invariant(g, s) && Grounded(g, s, {}) && Lasts(g, s, n)
    ensures Grounded(g, After(g, s, n), {})
    decreases n
  {
    if n > 0 {
      StepInvariant(g, s, Drain);
      DrainGrounded(g, s);
      GroundedAfter(g, Step(g, s, Drain), n - 1);
    }
  }

  /** A notification above a task whose retry fails an assertion. */
  lemma HigherNotification(g: Graph, s: State, h: TaskId) returns (d: TaskId)
    requires WellFormed(g) && Grounded(g, s, {}) && Hopeless(g, s, h) && s.Get(h).blocked == {}
    ensures d in s.done && g.height(d) > g.height(h)
  {
    d :| d in g.dependencies(h) && !s.Get(d).Succeeded();
    assert Answered(s, h, d, {});
    assert h in g.dependents(d);
  }

  lemma GroundedIsNotStuck(g: Graph, s: State, h: TaskId)
    requires WellFormed(g) && Grounded(g, s, {})
    ensures !Stuck(g, s, h)
  {
    if Stuck(g, s, h) {
      var d := HigherNotification(g, s, h);
    }
  }

  /** Draining comes to its end after some number of notifications. */
  lemma {:induction false} LastDrain(g: Graph, s: State, n: nat) returns (m: nat)
    requires WellFormed(g) && !Lasts(g, s, n)
    ensures m < n && Lasts(g, s, m) && !Enabled(g, After(g, s, m), Drain)
    decreases n
  {
    if !Enabled(g, s, Drain) {
      m := 0;
    } else {
      m := LastDrain(g, Step(g, s, Drain), n - 1);
      m := m + 1;
    }
  }

  /**
   In every run in which available tasks are submitted with available dependencies, and reports of
   lost dependencies name only tasks that were started, draining ends: it empties the queue, unless
   the accounting of slots was broken before.
   */
  lemma SincereRunsDrain(g: Graph, s0: State, evs: seq<Event>) returns (n: nat)
    requires WellFormed(g) && Initial(s0) && IsRun(g, s0, evs) && IsSincereRun(g, s0, evs)
    ensures var s := Run(g, s0, evs);
      && Lasts(g, s, n) && !Enabled(g, After(g, s, n), Drain)
      && (Slots(s) && !s.crashed ==> After(g, s, n).done == [])
  {
    var s := Run(g, s0, evs);
    InitialInvariant(g, s0);
    RunGrounded(g, s0, evs);
    if NeverEnds(g, s) {
      var k, h := GetsStuck(g, s);
      GroundedAfter(g, s, k);
      GroundedIsNotStuck(g, After(g, s, k), h);
      assert false;
    }
    var k: nat :| !Lasts(g, s, k);
    n := LastDrain(g, s, k);
    if Slots(s) && !s.crashed {
      SlotsAfter(g, s, n);
    }
  }
}

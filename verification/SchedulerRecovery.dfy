/**
 Recovery: what becomes of a failed task, of results that were lost, and of the executors that a task
 failed on or is to stay away from.
 */
module SchedulerRecovery {
  import opened Sequences
  import opened SchedulerModel
  import opened SchedulerSafety
  import opened SchedulerReadiness
  import opened SchedulerSlots
  import opened SchedulerRetries
  import opened SchedulerDraining
  import opened SchedulerEmission

  // ---- lost results --------------------------------------------------------------------------

  /** Marked as failed by another task, and possibly blocked since. */
  ghost predicate Invalidated(a: Task, b: Task) {
    b == a.(stopped := true, exception := Some(FailedDependency), blocked := b.blocked)
  }

  /** The barriers that fail together with a task. */
  ghost predicate InputOf(g: Graph, t: TaskId, x: TaskId) { g.computes(t) && x in g.dependencies(t) }

  lemma FailPlainlyExactly(s: State, t: TaskId, x: TaskId)
    ensures FailPlainly(s, t).Get(x) ==
      if x == t then s.Get(x).(stopped := true, exception := Some(FailedDependency)) else s.Get(x)
  {
  }

  lemma {:induction false} FailAllExactly(s: State, ts: seq<TaskId>, x: TaskId)
    ensures var r := FailAll(s, ts);
      if x in ts then Invalidated(s.Get(x), r.Get(x)) && r.Get(x).blocked == s.Get(x).blocked
      else r.Get(x) == s.Get(x)
    decreases |ts|
  {
    if ts != [] {
      var s1 := FailPlainly(s, ts[0]);
      FailPlainlyExactly(s, ts[0], x);
      FailAllExactly(s1, ts[1..], x);
      assert FailAll(s, ts) == FailAll(s1, ts[1..]);
      assert x in ts <==> x == ts[0] || x in ts[1..];
    }
  }

  /** A task that stops fails its barriers exactly when it computes, and lost its input or its result. */
  lemma StopFailsBarriers(g: Graph, s: State, t: TaskId, task: Task, x: TaskId)
    requires x != t
    ensures var r := SignalStop(g, s.Put(t, task), t);
      if InputOf(g, t, x) && task.exception.Some?
        && (task.exception.value.DependenciesFailed? || task.exception.value.FailedDependency?)
      then Invalidated(s.Get(x), r.Get(x)) && r.Get(x).blocked == s.Get(x).blocked
      else r.Get(x) == s.Get(x)
  {
    var s0 := s.Put(t, task);
    assert s0.Get(x) == s.Get(x);
    FailAllExactly(s0, g.dependencies(t), x);
    ReplacedOnlyFails(g, s, t, task);
    HandedOff(Replaced(g, s, t, task), t);
  }

  /** A report speaks of the result that a task has: of its last execution and its last location, if it names them. */
  ghost predicate Reports(l: Lost, x: TaskId, d: Task) {
    && l.task == x
    && (l.resultOn.Some? ==> d.resultOn != [] && l.resultOn.value == d.resultOn[|d.resultOn| - 1])
    && (l.executedOn.Some? ==> d.executedOn != [] && l.executedOn.value == d.executedOn[|d.executedOn| - 1])
  }

  ghost predicate Reported(s: State, lost: seq<Lost>, x: TaskId) {
    !s.Get(x).Failed() && exists i :: 0 <= i < |lost| && Reports(lost[i], x, s.Get(x))
  }

  /** The barriers of a task reported. */
  ghost predicate InputReported(g: Graph, s: State, lost: seq<Lost>, x: TaskId) {
    exists d :: Reported(s, lost, d) && InputOf(g, d, x)
  }

  lemma InvalidatedExactly(g: Graph, s: State, d: TaskId, x: TaskId)
    ensures var r := MarkFailed(g, s, d, FailedDependency);
      && (if x == d || InputOf(g, d, x) then Invalidated(s.Get(x), r.Get(x)) && r.Get(x).blocked == s.Get(x).blocked
          else r.Get(x) == s.Get(x))
      && (x in s.known && (x == d || r.Get(x) != s.Get(x)) ==> x in r.done)
      && r.known == s.known && r.executable == s.executable && forall y :: y in s.done ==> y in r.done
  {
    var task := s.Get(d).(stopped := true, exception := Some(FailedDependency));
    MarkFailedEffect(g, s, d, FailedDependency);
    if x == d {
      FailAllExactly(s.Put(d, task), g.dependencies(d), d);
    } else {
      StopFailsBarriers(g, s, d, task, x);
    }
  }

  lemma RetryStatus(g: Graph, s: State, t: TaskId, x: TaskId)
    ensures var r := TransientFailure(g, s, t); SameStatus(s.Get(x), r.state.Get(x)) && r.state.done == s.done
  {
    var m := if s.Get(t).Succeeded() then s else Forbid(s.(executable := s.executable + {t}), t);
    assert m.Get(x) == s.Get(x);
    BlockDependentsStatus(g, m, t, 0);
  }

  /** What the handling of the reports has made of a task. */
  ghost predicate Recovered(g: Graph, s: State, lost: seq<Lost>, x: TaskId, r: State) {
    && (Reported(s, lost, x) ==> Invalidated(s.Get(x), r.Get(x)) && x in r.done)
    && (InputReported(g, s, lost, x) ==> Invalidated(s.Get(x), r.Get(x)) || SameStatus(s.Get(x), r.Get(x)))
    && (!Reported(s, lost, x) && !InputReported(g, s, lost, x) ==> SameStatus(s.Get(x), r.Get(x)))
  }

  /** Every task known: exactly those reported are marked as failed, and with a computing one its barriers. */
  lemma {:induction false} LostResultsFail(g: Graph, s: State, t: TaskId, lost: seq<Lost>, x: TaskId)
    requires forall i :: 0 <= i < |lost| ==> lost[i].task in s.known
    ensures Recovered(g, s, lost, x, DependenciesLost(g, s, t, lost).state)
    ensures forall y :: y in s.done ==> y in DependenciesLost(g, s, t, lost).state.done
    decreases |lost|
  {
    if lost == [] {
      RetryStatus(g, s, t, x);
    } else if IsLost(s.Get(lost[0].task), lost[0]) {
      var m := MarkFailed(g, s, lost[0].task, FailedDependency);
      InvalidatedExactly(g, s, lost[0].task, x);
      LostResultsFail(g, m, t, lost[1..], x);
      RecoveredFirst(g, s, lost, x, DependenciesLost(g, s, t, lost).state);
    } else {
      LostResultsFail(g, s, t, lost[1..], x);
      ReportedLater(g, s, lost, x);
    }
  }

  lemma RecoveredFirst(g: Graph, s: State, lost: seq<Lost>, x: TaskId, r: State)
    requires lost != [] && IsLost(s.Get(lost[0].task), lost[0])
    requires forall i :: 0 <= i < |lost| ==> lost[i].task in s.known
    requires var m := MarkFailed(g, s, lost[0].task, FailedDependency);
      Recovered(g, m, lost[1..], x, r) && forall y :: y in m.done ==> y in r.done
    ensures Recovered(g, s, lost, x, r)
  {
    var d, rest := lost[0].task, lost[1..];
    InvalidatedExactly(g, s, d, x);
    assert Reports(lost[0], d, s.Get(d));
    if Reported(s, lost, x) && x != d && !InputOf(g, d, x) {
      var i :| 0 <= i < |lost| && Reports(lost[i], x, s.Get(x));
      assert rest[i - 1] == lost[i];
    }
    if !Reported(s, lost, x) && !InputReported(g, s, lost, x) {
      StillUnreported(g, s, lost, x);
    }
  }

  lemma ReportedLater(g: Graph, s: State, lost: seq<Lost>, x: TaskId)
    requires lost != [] && !IsLost(s.Get(lost[0].task), lost[0])
    ensures Reported(s, lost, x) <==> Reported(s, lost[1..], x)
    ensures InputReported(g, s, lost, x) <==> InputReported(g, s, lost[1..], x)
  {
    forall y ensures Reported(s, lost, y) <==> Reported(s, lost[1..], y) {
      if Reported(s, lost, y) {
        var i :| 0 <= i < |lost| && Reports(lost[i], y, s.Get(y));
        assert lost[1..][i - 1] == lost[i];
      }
      if Reported(s, lost[1..], y) {
        var i :| 0 <= i < |lost[1..]| && Reports(lost[1..][i], y, s.Get(y));
        assert lost[i + 1] == lost[1..][i];
      }
    }
  }

  lemma StillUnreported(g: Graph, s: State, lost: seq<Lost>, x: TaskId)
    requires lost != [] && !Reported(s, lost, x) && !InputReported(g, s, lost, x)
    ensures var m := MarkFailed(g, s, lost[0].task, FailedDependency);
      m.Get(x) == s.Get(x) ==> !Reported(m, lost[1..], x) && !InputReported(g, m, lost[1..], x)
  {
    var d, m := lost[0].task, MarkFailed(g, s, lost[0].task, FailedDependency);
    forall y | Reported(m, lost[1..], y) ensures Reported(s, lost, y) {
      InvalidatedExactly(g, s, d, y);
      assert m.Get(y) == s.Get(y);
      var i :| 0 <= i < |lost[1..]| && Reports(lost[1..][i], y, m.Get(y));
      assert lost[i + 1] == lost[1..][i];
    }
  }

  lemma FailedGenerally(g: Graph, s: State, t: TaskId, x: TaskId)
    ensures var r := MarkFailed(g, s, t, GeneralFailure);
      && r.Get(x) == (if x == t then s.Get(t).(stopped := true, exception := Some(GeneralFailure)) else s.Get(x))
      && r == s.(tasks := r.tasks, done := r.done) && r.done == s.done + (if t in s.known then [t] else [])
  {
  }

  /** One task unknown: the task that reported it fails for good or is tried again, like after any other failure. */
  lemma {:induction false} UnknownLost(g: Graph, s: State, t: TaskId, lost: seq<Lost>)
    requires exists i :: 0 <= i < |lost| && lost[i].task !in s.known
    ensures var r := DependenciesLost(g, s, t, lost);
      && !r.raised && r.state.Get(t).stopped && r.state.Get(t).exception == Some(GeneralFailure)
      && r.state.executable == s.executable && (t in s.known ==> t in r.state.done)
    decreases |lost|
  {
    if lost[0].task in s.known {
      var i :| 0 <= i < |lost| && lost[i].task !in s.known;
      assert lost[1..][i - 1] == lost[i];
      var m := if IsLost(s.Get(lost[0].task), lost[0]) then MarkFailed(g, s, lost[0].task, FailedDependency) else s;
      InvalidatedExactly(g, s, lost[0].task, t);
      assert m.known == s.known && m.executable == s.executable;
      UnknownLost(g, m, t, lost[1..]);
    } else {
      FailedGenerally(g, s, t, t);
    }
  }

  // ---- trying again --------------------------------------------------------------------------

  /** The failure is not held against the task, or it has attempts left. */
  ghost predicate TriedAgain(g: Graph, s: State, t: TaskId) {
    match s.Get(t).exception
    case Some(DependenciesFailed(lost)) => forall i :: 0 <= i < |lost| ==> lost[i].task in s.known
    case Some(GeneralFailure) => |s.Get(t).executedOn| < g.maxAttempts(t)
    case _ => true
  }

  lemma RetryExactly(g: Graph, s: State, t: TaskId)
    requires s.Get(t).Failed()
    ensures var r := TransientFailure(g, s, t);
      && (!r.raised ==> (t in r.state.executable <==> t in s.executable || s.Get(t).blocked == {}))
      && (r.raised <==> s.Get(t).blocked == {} && t !in s.executable && !DependenciesSucceeded(g, s, t))
      && r.state == s.(tasks := r.state.tasks, executable := r.state.executable, forbidden := r.state.forbidden)
  {
    BlockDependentsStatus(g, Forbid(s.(executable := s.executable + {t}), t), t, 0);
  }

  lemma {:induction false} LostThenTried(g: Graph, s: State, t: TaskId, lost: seq<Lost>)
    requires s.Get(t).Failed() && forall i :: 0 <= i < |lost| ==> lost[i].task in s.known
    ensures var r := DependenciesLost(g, s, t, lost);
      !r.raised ==> (t in r.state.executable <==> t in s.executable || s.Get(t).blocked == {})
    decreases |lost|
  {
    if lost == [] {
      RetryExactly(g, s, t);
    } else {
      var m := if IsLost(s.Get(lost[0].task), lost[0]) then MarkFailed(g, s, lost[0].task, FailedDependency) else s;
      InvalidatedExactly(g, s, lost[0].task, t);
      assert m.Get(t).Failed() && m.Get(t).blocked == s.Get(t).blocked && m.executable == s.executable;
      LostThenTried(g, m, t, lost[1..]);
    }
  }

  lemma LostTriedAgain(g: Graph, s: State, t: TaskId, lost: seq<Lost>)
    requires s.Get(t).Failed() && s.Get(t).exception == Some(DependenciesFailed(lost))
    ensures TriedRightly(g, s, t, DependenciesLost(g, s, t, lost))
  {
    if TriedAgain(g, s, t) {
      LostThenTried(g, s, t, lost);
    } else {
      UnknownLost(g, s, t, lost);
    }
  }

  lemma BlockingLeaves(g: Graph, s: State, t: TaskId)
    requires WellFormed(g)
    ensures var m := MarkAllBlocked(g, s, t, 0);
      && m == s.(tasks := m.tasks, executable := m.executable) && m.Get(t) == s.Get(t)
      && (t in m.executable <==> t in s.executable)
      && (DependenciesSucceeded(g, m, t) <==> DependenciesSucceeded(g, s, t))
  {
    MarkAllBlockedOnlyBlocks(g, s, t, 0);
    MarkAllBlockedBelow(g, s, t, 0, t);
    SameDependenciesSucceeded(g, s, MarkAllBlocked(g, s, t, 0), t);
  }

  /** What becomes executable when t is handled as a failure. */
  ghost predicate TriedRightly(g: Graph, s: State, t: TaskId, r: Outcome) {
    && (TriedAgain(g, s, t) && !r.raised ==>
      (t in r.state.executable <==> t in s.executable || s.Get(t).blocked == {}))
    && (!TriedAgain(g, s, t) ==> !r.raised && (t in r.state.executable <==> t in s.executable))
  }

  lemma FailedByOthers(g: Graph, s: State, t: TaskId)
    requires WellFormed(g) && s.Get(t).Failed() && !s.Get(t).exception.value.GeneralFailure?
    ensures TriedRightly(g, s, t, TaskFailed(g, s, t))
  {
    var m := MarkAllBlocked(g, s, t, 0);
    BlockingLeaves(g, s, t);
    if s.Get(t).exception.value.DependenciesFailed? {
      LostTriedAgain(g, m, t, s.Get(t).exception.value.lost);
    } else {
      RetryExactly(g, m, t);
    }
  }

  lemma FailedItself(g: Graph, s: State, t: TaskId)
    requires WellFormed(g) && s.Get(t).Failed() && s.Get(t).exception.value.GeneralFailure?
    ensures TriedRightly(g, s, t, TaskFailed(g, s, t))
  {
    BlockingLeaves(g, s, t);
    RetryExactly(g, Charge(MarkAllBlocked(g, s, t, 0), t), t);
  }

  /** A failed task that is tried again becomes executable at once exactly when nothing blocks it. */
  lemma FailedTaskTriedAgain(g: Graph, s: State, t: TaskId)
    requires WellFormed(g) && s.Get(t).Failed()
    ensures var r := TaskFailed(g, s, t);
      && (TriedAgain(g, s, t) && !r.raised ==>
        (t in r.state.executable <==> t in s.executable || s.Get(t).blocked == {}))
      && (!TriedAgain(g, s, t) ==> !r.raised && (t in r.state.executable <==> t in s.executable))
  {
    if s.Get(t).exception.value.GeneralFailure? {
      FailedItself(g, s, t);
    } else {
      FailedByOthers(g, s, t);
    }
    assert TriedRightly(g, s, t, TaskFailed(g, s, t));
  }

  // ---- passing on ----------------------------------------------------------------------------

  /** No dependent of t waits for it. */
  ghost predicate PassedOn(g: Graph, s: State, t: TaskId) {
    forall u :: u in g.dependents(t) ==> t !in s.Get(u).blocked
  }

  lemma SettledPassedOn(g: Graph, handled: Outcome, t: TaskId, e: Option<Executor>)
    ensures var r := Settle(g, handled, t, e).state;
      if handled.raised then r.Get(t).Failed() else PassedOn(g, handled.state, t) ==> PassedOn(g, r, t)
  {
    if handled.raised {
      MarkFailedEffect(g, handled.state, t, GeneralFailure);
      SettledRecords(MarkFailed(g, handled.state, t, GeneralFailure), t, e);
    } else {
      SettledRecords(handled.state, t, e);
    }
  }

  lemma SettledRecords(s: State, t: TaskId, e: Option<Executor>)
    ensures forall x :: FreeSlot(s, t, e).state.Get(x) == s.Get(x)
  {
  }

  lemma HandledPassedOn(g: Graph, s: State, t: TaskId, e: Option<Executor>, p: set<TaskId>)
    requires WellFormed(g) && Closed(g, s) && Safe(g, s, p + {t}) && t in s.known && s.Get(t).Succeeded()
    ensures var h := TaskSucceeded(g, s.Touch(e), t, 0); !h.raised ==> PassedOn(g, h.state, t)
  {
    TouchSameTasks(s, e);
    SameTasksSafe(g, 0, s, s.Touch(e), p + {t});
    assert s.Touch(e).Get(t) == s.Get(t);
    TaskSucceededSafe(g, s.Touch(e), t, 0, p);
  }

  /** A success that is handled is passed on: it blocks no dependent any more, unless the handling made it a failure. */
  lemma SuccessPassedOn(g: Graph, s: State, t: TaskId, p: set<TaskId>)
    requires WellFormed(g) && Closed(g, s) && Safe(g, s, p + {t}) && t in s.known && s.Get(t).Succeeded()
    ensures var r := TaskDone(g, s, t).state; r.Get(t).Succeeded() ==> PassedOn(g, r, t)
  {
    var e := s.Get(t).LastExecutedOn();
    HandledPassedOn(g, s, t, e, p);
    SettledPassedOn(g, TaskSucceeded(g, s.Touch(e), t, 0), t, e);
    assert s.Touch(e).Get(t) == s.Get(t);
  }

  lemma LastBlockerGone(g: Graph, s: State, t: TaskId, u: TaskId)
    requires Closed(g, s) && Safe(g, s, {t}) && s.Get(u).blocked == {t}
    ensures var r := s.Put(u, s.Get(u).(blocked := {}));
      Closed(g, r) && Safe(g, r, {t}) && Safe(g, r, {t} + {u})
  {
    Unblocked(g, s, u, t, {t});
    assert s.Get(u).blocked - {t} == {};
    SafeWeakens(g, s.Put(u, s.Get(u).(blocked := {})), {t}, {t} + {u});
  }

  /** When its last blocker succeeds, a task that had succeeded before is handed out again and that is passed on. */
  lemma UnblockedSuccessGoesOn(g: Graph, s: State, t: TaskId, u: TaskId)
    requires WellFormed(g) && Closed(g, s) && Safe(g, s, {t}) && u in g.dependents(t) && u in s.known
    requires s.Get(u).blocked == {t} && s.Get(u).Succeeded()
    ensures var r := Unblock(g, s, t, u).state;
      r.Get(u).Succeeded() ==> PassedOn(g, r, u) && u in NewResults(s, r)
  {
    var s1 := s.Put(u, s.Get(u).(blocked := {}));
    LastBlockerGone(g, s, t, u);
    assert s.Get(u).blocked - {t} == {};
    SuccessPassedOn(g, s1, u, {t});
    SuccessEmits(g, s1, u);
  }

  /** When its last blocker succeeds, any other task becomes executable. */
  lemma UnblockedBecomesExecutable(g: Graph, s: State, t: TaskId, u: TaskId)
    requires WellFormed(g) && u in g.dependents(t) && s.Get(u).blocked == {t} && !s.Get(u).Succeeded()
    ensures var r := Unblock(g, s, t, u); !r.raised ==> u in r.state.executable || r.state.Get(u).Running()
  {
    assert s.Get(u).blocked - {t} == {};
    var m := s.Put(u, s.Get(u).(blocked := {}));
    BlockDependentsStatus(g, Forbid(m.(executable := m.executable + {u}), u), u, 0);
  }

  // ---- executors that cannot be reached ------------------------------------------------------

  lemma {:induction false} DropFirstExactly(es: seq<Executor>, e: Executor)
    requires NoDuplicates(es)
    ensures e !in es ==> DropFirst(es, e) == es
    ensures forall i :: 0 <= i < |es| && es[i] == e ==> DropFirst(es, e) == es[..i] + es[i + 1..]
  {
    if es != [] && es[0] != e {
      DropFirstExactly(es[1..], e);
      assert e in es ==> e in es[1..];
      forall i | 0 <= i < |es| && es[i] == e ensures DropFirst(es, e) == es[..i] + es[i + 1..] {
        assert es[1..][i - 1] == e && es[..i] == [es[0]] + es[1..][..i - 1] && es[1..][i..] == es[i + 1..];
      }
    }
  }

  /** The executor that a task could not be sent to is not ready any more; the others keep their order. */
  lemma UnreachableNotReady(g: Graph, s: State, t: TaskId)
    requires WellFormed(g) && s.Get(t).Failed() && s.Get(t).exception == Some(NotConnected)
    requires NoDuplicates(s.ready) && !TaskFailed(g, s, t).raised
    ensures var r, e := TaskFailed(g, s, t).state, s.Get(t).LastExecutedOn();
      && (e.None? || e.value !in s.ready ==> r.ready == s.ready)
      && (e.Some? ==> e.value !in r.ready)
      && forall i :: 0 <= i < |s.ready| && Some(s.ready[i]) == e ==> r.ready == s.ready[..i] + s.ready[i + 1..]
  {
    var m := MarkAllBlocked(g, s, t, 0);
    BlockingLeaves(g, s, t);
    RetryExactly(g, m, t);
    if s.Get(t).executedOn != [] {
      DropFirstKeepsOrder(s.ready, s.Get(t).LastExecutedOn().value);
      DropFirstExactly(s.ready, s.Get(t).LastExecutedOn().value);
    }
  }

  /** Nor is an executor that left, and it is not registered any more. */
  lemma RemovedNotReady(g: Graph, s: State, e: Executor)
    requires WellFormed(g) && NoDuplicates(s.ready)
    ensures var r := Step(g, s, RemoveExecutor(e));
      && e !in r.ready && r.executors == s.executors - {e} && (e !in s.ready ==> r.ready == s.ready)
      && forall i :: 0 <= i < |s.ready| && s.ready[i] == e ==> r.ready == s.ready[..i] + s.ready[i + 1..]
  {
    DropFirstKeepsOrder(s.ready, e);
    DropFirstExactly(s.ready, e);
  }

  /** Handling a notification makes only executors ready that are registered and connected. */
  lemma OnlyConnectedReturn(g: Graph, s: State, e: Executor)
    requires WellFormed(g) && Invariant(g, s) && Enabled(g, s, Drain)
    requires e in Step(g, s, Drain).ready && e !in s.ready
    ensures e in s.executors && s.executors[e]
  {
    DrainSafe(g, s);
  }

  // ---- executors to stay away from -----------------------------------------------------------

  lemma {:induction false} CancelledNotExecutable(g: Graph, s: State, job: seq<TaskId>)
    requires Safe(g, s, {})
    ensures CancelTasks(g, s, job).executable == s.executable - (set t | t in job)
    decreases |job|
  {
    if job != [] {
      CancelTaskEffect(g, s, job[0]);
      CancelTaskSafe(g, s, job[0]);
      CancelledNotExecutable(g, CancelTask(g, s, job[0]), job[1..]);
      assert (set t | t in job) == {job[0]} + set t | t in job[1..];
    }
  }

  /** Only a submission and the handling of a notification make tasks executable. */
  lemma OthersShrink(g: Graph, s: State, ev: Event)
    requires WellFormed(g) && Invariant(g, s) && Enabled(g, s, ev) && !ev.Submission? && !ev.Drain?
    ensures Step(g, s, ev).executable <= s.executable
  {
    match ev
    case Cancellation(job) => CancelledNotExecutable(g, s, job);
    case CancelRequest(u) => CancelShrinks(g, s, u);
    case Finish(u, location) => SignalStopEffect(g, s, u, s.Get(u).At(location));
    case Fail(u, failure) => SignalStopEffect(g, s, u, s.Get(u).(exception := Some(failure)));
    case FinishCancelled(u) => SignalStopEffect(g, s, u, s.Get(u).(exception := None, cancelled := true));
    case AddExecutor(_, _) =>
    case RemoveExecutor(_) =>
    case SetConnected(_, _) =>
    case SetAvoided(_, _) =>
    case NoExecutors(order) => NoExecutorsShrinks(g, s, order);
    case Choose(choice) => ChosenShrinks(g, s, choice);
  }

  lemma CancelShrinks(g: Graph, s: State, t: TaskId)
    ensures Cancel(g, s, t).executable == s.executable
  {
    SignalStopEffect(g, s, t, s.Get(t).(cancelled := true));
  }

  lemma {:induction false} NoExecutorsShrinks(g: Graph, s: State, order: seq<TaskId>)
    ensures FailGenerally(g, s, order).executable == s.executable
    decreases |order|
  {
    if order != [] {
      FailedGenerally(g, s, order[0], order[0]);
      NoExecutorsShrinks(g, MarkFailed(g, s, order[0], GeneralFailure), order[1..]);
    }
  }

  lemma ChosenShrinks(g: Graph, s: State, choice: Option<TaskId>)
    requires s.ready != []
    ensures Pick(g, s, choice).executable <= s.executable
  {
    var s1, e := s.(ready := s.ready[1..]), s.ready[0];
    if choice.Some? {
      StartEffect(g, s1, choice.value, e);
      MarkFailedEffect(g, Occupied(s1, choice.value, e), choice.value, GeneralFailure);
    }
  }

  lemma SubmittedAvoids(g: Graph, s: State, job: seq<TaskId>, t: TaskId, e: Executor)
    requires WellFormed(g) && Invariant(g, s) && Submittable(g, s, job)
    requires t !in s.executable && t in Submit(g, s, job).executable
    requires e in s.Avoided(t) && e in s.executors
    ensures t in Submit(g, s, job).Forbidden(Some(e))
  {
    var s1 := s.(known := s.known + set t | t in job);
    SubmittedInvariant(g, s, job);
    MarkRootsSafe(g, s1, job);
    var m := MarkRoots(g, s1, job);
    assert s1.Avoided(t) == s.Avoided(t);
    if m.raised {
      CancelledNotExecutable(g, m.state, job);
      CancelTasksReleases(g, m.state, job);
    }
  }

  lemma DrainAvoids(g: Graph, s: State, t: TaskId, e: Executor)
    requires WellFormed(g) && Invariant(g, s) && Enabled(g, s, Drain)
    requires t !in s.executable && t in Step(g, s, Drain).executable
    requires e in s.Avoided(t) && e in s.executors
    ensures t in Step(g, s, Drain).Forbidden(Some(e))
  {
    var s1 := s.(done := s.done[1..]);
    var m := TaskDone(g, s1, s.done[0]).state;
    DrainSafe(g, s);
    assert s1.Avoided(t) == s.Avoided(t);
    assert t in m.Forbidden(Some(e));
  }

  /** Becoming executable, in any event, bars a task from the registered executors that it avoids. */
  lemma AvoidedIsBarred(g: Graph, s: State, ev: Event, t: TaskId, e: Executor)
    requires WellFormed(g) && Invariant(g, s) && Enabled(g, s, ev)
    requires t !in s.executable && t in Step(g, s, ev).executable
    requires e in s.Avoided(t) && e in s.executors
    ensures Barred(Step(g, s, ev), t, e)
  {
    StepInvariant(g, s, ev);
    if ev.Submission? {
      SubmittedAvoids(g, s, ev.job, t, e);
    } else if ev.Drain? {
      DrainAvoids(g, s, t, e);
    } else {
      OthersShrink(g, s, ev);
    }
  }

  /** A task is never started where it was to stay away from when it became executable, in any run from then on. */
  lemma AvoidedIsNeverUsed(g: Graph, s: State, ev: Event, evs: seq<Event>, t: TaskId, e: Executor)
    requires WellFormed(g) && Invariant2(g, s) && Enabled(g, s, ev) && IsRun(g, Step(g, s, ev), evs)
    requires t !in s.executable && t in Step(g, s, ev).executable
    requires e in s.Avoided(t) && e in s.executors
    ensures Elsewhere(Step(g, s, ev), Run(g, Step(g, s, ev), evs), t, e)
  {
    AvoidedIsBarred(g, s, ev, t, e);
    StepInvariant2(g, s, ev);
    BarredForever(g, Step(g, s, ev), evs, t, e);
  }

  // ---- after a job ---------------------------------------------------------------------------

  /** Nothing is kept of the task. */
  ghost predicate Gone(s: State, t: TaskId) {
    && t !in s.known && t !in s.executable && !s.Get(t).Running() && s.Get(t).blocked == {}
    && forall e :: t !in s.Forbidden(e) && t !in s.Executing(e)
  }

  ghost predicate EntriesListed(s: State) { forall e :: e in s.executing ==> e in s.slots }

  lemma {:induction false} FreeSlotsEmpties(s: State, t: TaskId, es: seq<Option<Executor>>)
    ensures var r := FreeSlots(s, t, es);
      && (forall e :: r.Executing(e) <= s.Executing(e)) && (forall e :: e in es ==> t !in r.Executing(e))
      && r == s.(executing := r.executing, ready := r.ready) && r.executing.Keys == s.executing.Keys
    decreases |es|
  {
    if es != [] {
      var left := s.Executing(es[0]) - {t};
      var s1 := if t !in s.Executing(es[0]) then s
        else s.(executing := s.executing[es[0] := left],
                ready := if left == {} && es[0].Some? then s.ready + [es[0].value] else s.ready);
      assert forall e :: s1.Executing(e) == (if e == es[0] then left else s.Executing(e));
      FreeSlotsEmpties(s1, t, es[1..]);
    }
  }

  lemma WithdrawnGone(s: State, t: TaskId)
    requires EntriesListed(s) && !s.Get(t).Running() && s.Get(t).blocked == {}
    ensures var r := FreeSlots(Forget(s, t), t, s.slots);
      EntriesListed(r) && Gone(r, t) && forall x :: Gone(s, x) ==> Gone(r, x)
  {
    var m := Forget(s, t);
    var r := FreeSlots(m, t, s.slots);
    FreeSlotsEmpties(m, t, s.slots);
    assert forall x :: r.Get(x) == m.Get(x) == s.Get(x);
    assert forall e :: m.Forbidden(e) == s.Forbidden(e) - {t} && m.Executing(e) == s.Executing(e);
  }

  /** Nothing but the records of tasks and the queue changed, and t neither runs nor waits. */
  ghost predicate Halted(s: State, r: State, t: TaskId) {
    && r == s.(tasks := r.tasks, done := r.done) && !r.Get(t).Running()
    && forall x :: x != t ==> r.Get(x) == s.Get(x)
  }

  lemma CancelHalts(g: Graph, s: State, t: TaskId)
    requires Safe(g, s, {})
    ensures Halted(s, Cancel(g, s, t), t)
  {
    CancelSafe(g, s, t);
    if s.Get(t).Running() {
      Cancelled(g, s, t);
    }
  }

  lemma HaltedGone(s: State, r: State, t: TaskId)
    requires Halted(s, r, t) && r.Get(t).blocked == {}
    ensures forall x :: Gone(s, x) ==> Gone(r, x)
  {
    assert forall e :: r.Forbidden(e) == s.Forbidden(e) && r.Executing(e) == s.Executing(e);
  }

  lemma UnblockedHalted(s: State, m: State, t: TaskId)
    requires Halted(s, m, t)
    ensures var r := m.Put(t, m.Get(t).(blocked := {})); Halted(s, r, t) && r.Get(t).blocked == {}
  {
  }

  lemma CancelledGone(g: Graph, s: State, t: TaskId)
    requires Safe(g, s, {}) && EntriesListed(s)
    ensures var r := CancelTask(g, s, t);
      && EntriesListed(r) && (t in s.known ==> Gone(r, t)) && forall x :: Gone(s, x) ==> Gone(r, x)
  {
    var s1 := Cancel(g, s, t);
    var s2 := s1.Put(t, s1.Get(t).(blocked := {}));
    CancelHalts(g, s, t);
    UnblockedHalted(s, s1, t);
    HaltedGone(s, s2, t);
    if t in s2.known {
      WithdrawnGone(s2, t);
    }
  }

  /** When a job ends nothing is kept of its tasks. */
  lemma {:induction false} CancelledJobGone(g: Graph, s: State, job: seq<TaskId>)
    requires Safe(g, s, {}) && EntriesListed(s)
    ensures var r := CancelTasks(g, s, job);
      && EntriesListed(r) && (forall t :: t in job && t in s.known ==> Gone(r, t))
      && forall x :: Gone(s, x) ==> Gone(r, x)
    decreases |job|
  {
    if job != [] {
      CancelledGone(g, s, job[0]);
      CancelTaskEffect(g, s, job[0]);
      CancelTaskSafe(g, s, job[0]);
      CancelledJobGone(g, CancelTask(g, s, job[0]), job[1..]);
    }
  }

  // ---- where results are ---------------------------------------------------------------------

  /** The task was executed last on e and its result is at l. */
  ghost predicate LocatedAt(d: Task, l: Executor, e: Executor) {
    && d.executedOn != [] && d.executedOn[|d.executedOn| - 1] == e
    && d.resultOn != [] && d.resultOn[|d.resultOn| - 1] == l
  }

  /** Of the reports that name both locations, just those that name these two count. */
  lemma LocatedReports(d: Task, t: TaskId, l: Executor, e: Executor, resultOn: Executor, executedOn: Executor)
    requires LocatedAt(d, l, e)
    ensures Reports(Lost(Some(resultOn), Some(executedOn), t), t, d) <==> resultOn == l && executedOn == e
    ensures Reports(Lost(None, Some(executedOn), t), t, d) <==> executedOn == e
    ensures Reports(Lost(Some(resultOn), None, t), t, d) <==> resultOn == l
    ensures Reports(Lost(None, None, t), t, d)
  {
  }

  /** A started task is where it executes. */
  lemma StartedLocation(g: Graph, s: State, choice: TaskId)
    requires WellFormed(g) && Enabled(g, s, Choose(Some(choice)))
    requires s.ready[0] in s.executors && s.executors[s.ready[0]] && !s.Get(choice).cancelled
    ensures var r := Step(g, s, Choose(Some(choice)));
      && r.Get(choice).Running() && LocatedAt(r.Get(choice), s.ready[0], s.ready[0])
      && r.Get(choice).executedOn == s.Get(choice).executedOn + [s.ready[0]]
      && choice in r.Executing(Some(s.ready[0])) && choice !in r.executable && r.ready == s.ready[1..]
  {
    StartEffect(g, s.(ready := s.ready[1..]), choice, s.ready[0]);
  }

  /** A finished task may say that its result is elsewhere; it was still executed where it was. */
  lemma FinishedLocation(g: Graph, s: State, t: TaskId, location: Option<Executor>, l: Executor, e: Executor)
    requires WellFormed(g) && Enabled(g, s, Finish(t, location)) && LocatedAt(s.Get(t), l, e)
    ensures LocatedAt(Step(g, s, Finish(t, location)).Get(t), if location.Some? then location.value else l, e)
  {
    SignalStopEffect(g, s, t, s.Get(t).At(location));
  }

  // ---- without executors ---------------------------------------------------------------------

  /** With no executor ever used, the executable tasks are failed, and handed over. */
  lemma {:induction false} NoExecutorsFails(g: Graph, s: State, order: seq<TaskId>, x: TaskId)
    ensures var r := FailGenerally(g, s, order);
      && r.Get(x) == (if x in order then s.Get(x).(stopped := true, exception := Some(GeneralFailure)) else s.Get(x))
      && r == s.(tasks := r.tasks, done := r.done) && (x in order && x in s.known ==> x in r.done)
      && forall y :: y in s.done ==> y in r.done
    decreases |order|
  {
    if order != [] {
      var m := MarkFailed(g, s, order[0], GeneralFailure);
      FailedGenerally(g, s, order[0], x);
      NoExecutorsFails(g, m, order[1..], x);
    }
  }

  /** Entries for executors are listed, and nothing was executed as long as there are none. */
  ghost predicate Listed(s: State) {
    EntriesListed(s) && (s.slots == [] ==> forall t :: s.Get(t).executedOn == [])
  }

  lemma StepListed(g: Graph, s: State, ev: Event)
    requires WellFormed(g) && Invariant2(g, s) && Enabled(g, s, ev) && Listed(s)
    ensures s.slots <= Step(g, s, ev).slots && Listed(Step(g, s, ev))
  {
    StepInvariant(g, s, ev);
    match ev
    case Submission(job) => SubmitKeepsEntries(g, s, job);
    case Cancellation(job) => CancelTasksKeepEntries(g, s, job);
    case CancelRequest(u) => StopKeepsEntries(g, s, u, s.Get(u).(cancelled := true));
    case Finish(u, location) => StopKeepsEntries(g, s, u, s.Get(u).At(location));
    case Fail(u, failure) => StopKeepsEntries(g, s, u, s.Get(u).(exception := Some(failure)));
    case FinishCancelled(u) => StopKeepsEntries(g, s, u, s.Get(u).(exception := None, cancelled := true));
    case AddExecutor(_, _) =>
    case RemoveExecutor(_) =>
    case SetConnected(_, _) =>
    case SetAvoided(_, _) =>
    case Drain => DrainSafe(g, s);
    case NoExecutors(order) => FailGenerallySafe(g, s, order);
    case Choose(choice) => PickListed(g, s, choice);
  }

  lemma StopKeepsEntries(g: Graph, s: State, t: TaskId, task: Task)
    requires task.blocked == s.Get(t).blocked
    ensures var r := SignalStop(g, s.Put(t, task), t); r.slots == s.slots && r.executing == s.executing
  {
    SignalStopEffect(g, s, t, task);
  }

  lemma PickListed(g: Graph, s: State, choice: Option<TaskId>)
    requires s.ready != [] && Listed(s)
    ensures var r := Pick(g, s, choice); s.slots <= r.slots && Listed(r)
  {
    var s1, e := s.(ready := s.ready[1..]), s.ready[0];
    SameListed(s, s1);
    if choice.Some? {
      StartListed(g, s1, choice.value, e);
    }
    SameListed(s, s1.(ready := s1.ready + [e]));
  }

  lemma SameListed(s: State, r: State)
    requires Listed(s) && r.tasks == s.tasks && r.slots == s.slots && r.executing == s.executing
    ensures Listed(r)
  {
    assert forall x :: r.Get(x) == s.Get(x);
  }

  lemma StartListed(g: Graph, s: State, t: TaskId, e: Executor)
    requires Listed(s)
    ensures var r := Start(g, s, t, e); s.slots <= r.slots && Listed(r)
  {
    StartEffect(g, s, t, e);
    OccupiedListed(s, t, e);
    MarkFailedEffect(g, Occupied(s, t, e), t, GeneralFailure);
  }

  lemma OccupiedListed(s: State, t: TaskId, e: Executor)
    requires Listed(s)
    ensures Listed(Occupied(s, t, e)) && Occupied(s, t, e).slots != []
    ensures s.slots <= Occupied(s, t, e).slots
  {
  }

  lemma SubmitKeepsEntries(g: Graph, s: State, job: seq<TaskId>)
    requires WellFormed(g) && Invariant(g, s) && Submittable(g, s, job)
    ensures Entries(s, Submit(g, s, job))
  {
    var s1 := s.(known := s.known + set t | t in job);
    SubmittedInvariant(g, s, job);
    MarkRootsSafe(g, s1, job);
    CancelTasksKeepEntries(g, MarkRoots(g, s1, job).state, job);
  }

  lemma {:induction false} CancelTasksKeepEntries(g: Graph, s: State, job: seq<TaskId>)
    ensures Entries(s, CancelTasks(g, s, job))
    decreases |job|
  {
    if job != [] {
      var t := job[0];
      SignalStopEffect(g, s, t, s.Get(t).(cancelled := true));
      var s1 := Cancel(g, s, t);
      var s2 := s1.Put(t, s1.Get(t).(blocked := {}));
      FreeSlotsSameTasks(Forget(s2, t), t, s2.slots);
      CancelTasksKeepEntries(g, CancelTask(g, s, t), job[1..]);
    }
  }

  lemma {:induction false} RunListed(g: Graph, s: State, evs: seq<Event>)
    requires WellFormed(g) && Invariant2(g, s) && IsRun(g, s, evs) && Listed(s)
    ensures s.slots <= Run(g, s, evs).slots && Listed(Run(g, s, evs))
    decreases |evs|
  {
    if evs != [] {
      StepListed(g, s, evs[0]);
      StepInvariant2(g, s, evs[0]);
      RunListed(g, Step(g, s, evs[0]), evs[1..]);
    }
  }

  lemma InitialListed(g: Graph, s0: State)
    requires Initial(s0)
    ensures Invariant2(g, s0) && Listed(s0)
  {
    InitialInvariant(g, s0);
    forall t ensures s0.Get(t).executedOn == [] {
      assert s0.Get(t) == NewTask || s0.Get(t) == DoneTask;
    }
  }

  /**
   Failing the executable tasks because there are no executors is in vain: they stay executable, and
   with at least one attempt allowed none of the failures is final, so none is handed out.
   */
  lemma NoExecutorsInVain(g: Graph, s0: State, evs: seq<Event>, order: seq<TaskId>, t: TaskId)
    requires WellFormed(g) && Initial(s0) && IsRun(g, s0, evs)
    requires Enabled(g, Run(g, s0, evs), NoExecutors(order)) && t in order && g.maxAttempts(t) > 0
    ensures var r := Step(g, Run(g, s0, evs), NoExecutors(order));
      t in r.done && t in r.executable && r.Get(t).Failed() && TriedAgain(g, r, t) && !FailedForGood(g, r.Get(t), t)
  {
    var s := Run(g, s0, evs);
    InitialListed(g, s0);
    RunListed(g, s0, evs);
    RunInvariant2(g, s0, evs);
    NoExecutorsFails(g, s, order, t);
  }

  /** When such a failure is handled the task is still executable, and an entry is made. */
  lemma InVain(g: Graph, s: State)
    requires WellFormed(g) && Invariant2(g, s) && Listed(s) && Enabled(g, s, Drain)
    requires s.done[0] in s.known && s.done[0] in s.executable
    requires s.Get(s.done[0]).Failed() && s.Get(s.done[0]).exception == Some(GeneralFailure)
    requires |s.Get(s.done[0]).executedOn| < g.maxAttempts(s.done[0])
    ensures var r := Step(g, s, Drain); s.done[0] in r.executable && r.emitted == s.emitted && r.slots != []
  {
    var t, s1 := s.done[0], s.(done := s.done[1..]);
    var e := s.Get(t).LastExecutedOn();
    var s0 := s1.Touch(e);
    assert s1.Get(t) == s.Get(t) == s0.Get(t);
    InVainHandled(g, s0, t);
    HandledListed(g, s);
    assert Step(g, s, Drain).emitted == FreeSlot(TaskFailed(g, s0, t).state, t, e).state.emitted;
  }

  lemma InVainHandled(g: Graph, s: State, t: TaskId)
    requires WellFormed(g) && t in s.executable && s.Get(t).Failed()
    requires s.Get(t).exception == Some(GeneralFailure) && |s.Get(t).executedOn| < g.maxAttempts(t)
    ensures var h := TaskFailed(g, s, t); !h.raised && h.state.emitted == s.emitted && t in h.state.executable
  {
    var m := MarkAllBlocked(g, s, t, 0);
    RetrySilent(g, s, t);
    BlockingLeaves(g, s, t);
    RetryExactly(g, Charge(m, t), t);
  }

  /** Once any known task was handled, tasks are not failed any more for want of executors. */
  lemma NeverFailedAgain(g: Graph, s: State, evs: seq<Event>, order: seq<TaskId>)
    requires WellFormed(g) && Invariant2(g, s) && Listed(s) && IsRun(g, s, [Drain] + evs) && s.done[0] in s.known
    ensures !Enabled(g, Run(g, s, [Drain] + evs), NoExecutors(order))
  {
    var r, all := Step(g, s, Drain), [Drain] + evs;
    assert all[0] == Drain && all[1..] == evs;
    StepListed(g, s, Drain);
    StepInvariant2(g, s, Drain);
    HandledListed(g, s);
    RunListed(g, r, evs);
  }

  lemma HandledListed(g: Graph, s: State)
    requires WellFormed(g) && Invariant(g, s) && Listed(s) && Enabled(g, s, Drain) && s.done[0] in s.known
    ensures Step(g, s, Drain).slots != []
  {
    var t, s1 := s.done[0], s.(done := s.done[1..]);
    var e := s.Get(t).LastExecutedOn();
    var s0 := s1.Touch(e);
    assert s1.Get(t) == s.Get(t) == s0.Get(t);
    PoppedSafe(g, s);
    TouchSameTasks(s1, e);
    SameTasksSafe(g, 0, s1, s0, {} + {t});
    if s0.Get(t).Succeeded() {
      TaskSucceededSafe(g, s0, t, 0, {});
      SettleKeepsEntries(g, TaskSucceeded(g, s0, t, 0), t, e);
    } else {
      TaskFailedSafe(g, s0, t, {});
      SettleKeepsEntries(g, TaskFailed(g, s0, t), t, e);
    }
  }

  lemma SettleKeepsEntries(g: Graph, handled: Outcome, t: TaskId, e: Option<Executor>)
    ensures Settle(g, handled, t, e).state.slots == handled.state.slots
  {
    MarkFailedEffect(g, handled.state, t, GeneralFailure);
  }
}

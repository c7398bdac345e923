/**
 Retries move on: a task is never started again on an executor where it failed in its own right,
 so its retried failures happen on distinct executors; and a run which shows that an executor name
 that is used again stops the scheduler loop.
 */
module SchedulerRetries {
  import opened Sequences
  import opened SchedulerModel
  import opened SchedulerSafety
  import opened SchedulerReadiness

  /** The task can not start on e any more. */
  ghost predicate Barred(s: State, t: TaskId, e: Executor) {
    if t in s.known then t in s.Forbidden(Some(e)) else t in s.released
  }

  /** A released task does not come back. */
  ghost predicate Invariant2(g: Graph, s: State) { Invariant(g, s) && s.known !! s.released }

  /** Nothing ran on e: the executions of t are those of before, followed by some elsewhere. */
  ghost predicate Elsewhere(s: State, r: State, t: TaskId, e: Executor) {
    && s.Get(t).executedOn <= r.Get(t).executedOn
    && e !in r.Get(t).executedOn[|s.Get(t).executedOn|..]
  }

  lemma QuietElsewhere(s: State, r: State, t: TaskId, e: Executor)
    requires Quiet(s, r)
    ensures Elsewhere(s, r, t, e)
  {
    assert r.Get(t).executedOn == s.Get(t).executedOn;
  }

  lemma KeepsBarred(s: State, r: State, t: TaskId, e: Executor)
    requires Keeps(s, r) && Barred(s, t, e)
    ensures Barred(r, t, e)
  {
    assert s.Forbidden(Some(e)) <= r.Forbidden(Some(e));
  }

  lemma SubmitBarred(g: Graph, s: State, job: seq<TaskId>, t: TaskId, e: Executor)
    requires WellFormed(g) && Invariant2(g, s) && Submittable(g, s, job) && Barred(s, t, e)
    ensures Invariant2(g, Submit(g, s, job)) && Barred(Submit(g, s, job), t, e)
  {
    SubmitInvariant(g, s, job);
    assert t !in job;
    assert t in s.known ==> t in Submit(g, s, job).Forbidden(Some(e));
  }

  lemma CancellationBarred(g: Graph, s: State, job: seq<TaskId>, t: TaskId, e: Executor)
    requires WellFormed(g) && Invariant2(g, s) && ClosedJob(g, job) && Barred(s, t, e)
    ensures Invariant2(g, CancelTasks(g, s, job)) && Barred(CancelTasks(g, s, job), t, e)
  {
    CancellationInvariant(g, s, job);
    CancelTasksSafe(g, s, job);
    CancelTasksReleases(g, s, job);
  }

  lemma StopBarred(g: Graph, s: State, t: TaskId, task: Task, u: TaskId, e: Executor)
    requires Barred(s, u, e) && s.known !! s.released
    ensures Barred(SignalStop(g, s.Put(t, task), t), u, e)
    ensures SignalStop(g, s.Put(t, task), t).known !! SignalStop(g, s.Put(t, task), t).released
  {
    FailAllOnlyFails(s.Put(t, task), g.dependencies(t));
  }

  lemma PickBarred(g: Graph, s: State, choice: Option<TaskId>, t: TaskId, e: Executor)
    requires WellFormed(g) && Invariant2(g, s) && Enabled(g, s, Choose(choice)) && Barred(s, t, e)
    ensures var r := Pick(g, s, choice);
      r.known !! r.released && Barred(r, t, e) && Elsewhere(s, r, t, e)
  {
    if s.ready[0] in s.executors && s.executors[s.ready[0]] && choice.Some? {
      var s1 := s.(ready := s.ready[1..]);
      assert s1.Get(t) == s.Get(t) && s1.Forbidden(Some(e)) == s.Forbidden(Some(e));
      StartBarred(g, s1, choice.value, s.ready[0], t, e);
    } else {
      assert Pick(g, s, choice).Get(t) == s.Get(t);
    }
  }

  /** The task started is another one, or starts elsewhere. */
  lemma StartBarred(g: Graph, s: State, u: TaskId, on: Executor, t: TaskId, e: Executor)
    requires s.known !! s.released && Barred(s, t, e) && u in s.known && u !in s.Forbidden(Some(on))
    ensures var r := Start(g, s, u, on);
      r.known !! r.released && Barred(r, t, e) && Elsewhere(s, r, t, e)
  {
    StartKeeps(g, s, u, on);
    var r := Start(g, s, u, on);
    assert r.Forbidden(Some(e)) == s.Forbidden(Some(e));
    if u == t {
      assert on != e;
    }
  }

  lemma DrainBarred(g: Graph, s: State, t: TaskId, e: Executor)
    requires WellFormed(g) && Invariant2(g, s) && Enabled(g, s, Drain) && Barred(s, t, e)
    ensures var r := Step(g, s, Drain); r.known !! r.released && Barred(r, t, e)
  {
    var s1 := s.(done := s.done[1..]);
    DrainSafe(g, s);
    KeepsBarred(s1, TaskDone(g, s1, s.done[0]).state, t, e);
  }

  lemma StepBarred(g: Graph, s: State, ev: Event, t: TaskId, e: Executor)
    requires WellFormed(g) && Invariant2(g, s) && Enabled(g, s, ev) && Barred(s, t, e)
    ensures Invariant2(g, Step(g, s, ev)) && Barred(Step(g, s, ev), t, e) && Elsewhere(s, Step(g, s, ev), t, e)
  {
    StepInvariant(g, s, ev);
    var r := Step(g, s, ev);
    if !ev.Choose? {
      QuietElsewhere(s, r, t, e);
    }
    match ev
    case Submission(job) => SubmitBarred(g, s, job, t, e);
    case Cancellation(job) => CancellationBarred(g, s, job, t, e);
    case CancelRequest(u) => CancelSafe(g, s, u);
    case Finish(u, location) => StopBarred(g, s, u, s.Get(u).At(location), t, e);
    case Fail(u, failure) => StopBarred(g, s, u, s.Get(u).(exception := Some(failure)), t, e);
    case FinishCancelled(u) => StopBarred(g, s, u, s.Get(u).(exception := None, cancelled := true), t, e);
    case AddExecutor(_, _) =>
    case RemoveExecutor(_) =>
    case SetConnected(_, _) =>
    case SetAvoided(_, _) =>
    case Drain => DrainBarred(g, s, t, e);
    case NoExecutors(order) =>
      FailGenerallySafe(g, s, order);
      KeepsBarred(s, r, t, e);
    case Choose(choice) => PickBarred(g, s, choice, t, e);
  }

  lemma {:induction false} BarredForever(g: Graph, s: State, evs: seq<Event>, t: TaskId, e: Executor)
    requires WellFormed(g) && Invariant2(g, s) && IsRun(g, s, evs) && Barred(s, t, e)
    ensures Elsewhere(s, Run(g, s, evs), t, e)
    decreases |evs|
  {
    if evs != [] {
      var m := Step(g, s, evs[0]);
      StepBarred(g, s, evs[0], t, e);
      BarredForever(g, m, evs[1..], t, e);
      ElsewhereTransitive(s, m, Run(g, s, evs), t, e);
    }
  }

  lemma ElsewhereTransitive(s: State, m: State, r: State, t: TaskId, e: Executor)
    requires Elsewhere(s, m, t, e) && Elsewhere(m, r, t, e)
    ensures Elsewhere(s, r, t, e)
  {
    var n := |s.Get(t).executedOn|;
    var last := r.Get(t).executedOn;
    assert last[n..] == m.Get(t).executedOn[n..] + last[|m.Get(t).executedOn|..];
  }

  // ---- the invariant of released tasks over runs ---------------------------------------------

  lemma CallbackReleases(g: Graph, s: State, ev: Event)
    requires WellFormed(g) && Enabled(g, s, ev) && (ev.Finish? || ev.Fail? || ev.FinishCancelled?)
    ensures Step(g, s, ev).known == s.known && Step(g, s, ev).released == s.released
  {
    var t := ev.task;
    match ev
    case Finish(_, location) => SignalStopEffect(g, s, t, s.Get(t).At(location));
    case Fail(_, failure) => SignalStopEffect(g, s, t, s.Get(t).(exception := Some(failure)));
    case FinishCancelled(_) => SignalStopEffect(g, s, t, s.Get(t).(exception := None, cancelled := true));
  }

  lemma StepInvariant2(g: Graph, s: State, ev: Event)
    requires WellFormed(g) && Invariant2(g, s) && Enabled(g, s, ev)
    ensures Invariant2(g, Step(g, s, ev))
  {
    StepInvariant(g, s, ev);
    match ev
    case Submission(job) => SubmitInvariant(g, s, job);
    case Cancellation(job) =>
      CancelTasksSafe(g, s, job);
      CancelTasksReleases(g, s, job);
    case CancelRequest(u) => CancelSafe(g, s, u);
    case Finish(_, _) => CallbackReleases(g, s, ev);
    case Fail(_, _) => CallbackReleases(g, s, ev);
    case FinishCancelled(_) => CallbackReleases(g, s, ev);
    case AddExecutor(_, _) =>
    case RemoveExecutor(_) =>
    case SetConnected(_, _) =>
    case SetAvoided(_, _) =>
    case Drain => DrainSafe(g, s);
    case NoExecutors(order) => FailGenerallySafe(g, s, order);
    case Choose(choice) => if choice.Some? { StartKeeps(g, s.(ready := s.ready[1..]), choice.value, s.ready[0]); }
  }

  lemma {:induction false} RunInvariant2(g: Graph, s: State, evs: seq<Event>)
    requires WellFormed(g) && Invariant2(g, s) && IsRun(g, s, evs)
    ensures Invariant2(g, Run(g, s, evs))
    decreases |evs|
  {
    if evs != [] {
      StepInvariant2(g, s, evs[0]);
      RunInvariant2(g, Step(g, s, evs[0]), evs[1..]);
    }
  }

  // ---- retried failures ----------------------------------------------------------------------

  /** The next notification is a failure of t itself, which will be retried. */
  ghost predicate AboutToRetry(g: Graph, s: State, t: TaskId) {
    && Enabled(g, s, Drain) && s.done[0] == t && t in s.known
    && s.Get(t).Failed() && s.Get(t).exception.value.GeneralFailure?
    && s.Get(t).executedOn != [] && |s.Get(t).executedOn| < g.maxAttempts(t)
  }

  lemma RetryBars(g: Graph, s: State, t: TaskId)
    requires WellFormed(g) && Invariant2(g, s) && AboutToRetry(g, s, t)
    ensures Barred(Step(g, s, Drain), t, s.Get(t).LastExecutedOn().value)
  {
    var s1 := s.(done := s.done[1..]);
    assert s1.Get(t) == s.Get(t);
    TaskDoneForbids(g, s1, t);
    DrainSafe(g, s);
  }

  lemma TaskDoneForbids(g: Graph, s: State, t: TaskId)
    requires WellFormed(g) && t in s.known && s.Get(t).Failed() && s.Get(t).exception.value.GeneralFailure?
    requires |s.Get(t).executedOn| < g.maxAttempts(t)
    ensures t in TaskDone(g, s, t).state.Forbidden(s.Get(t).LastExecutedOn())
  {
    var e := s.Get(t).LastExecutedOn();
    var s0 := s.Touch(e);
    assert s0.Get(t) == s.Get(t);
    TaskFailedForbids(g, s0, t);
    SettleForbids(g, TaskFailed(g, s0, t), t, e);
  }

  lemma SettleForbids(g: Graph, handled: Outcome, t: TaskId, e: Option<Executor>)
    ensures Settle(g, handled, t, e).state.forbidden == handled.state.forbidden
  {
    MarkFailedEffect(g, handled.state, t, GeneralFailure);
  }

  lemma TaskFailedForbids(g: Graph, s: State, t: TaskId)
    requires WellFormed(g) && s.Get(t).Failed() && s.Get(t).exception.value.GeneralFailure?
    requires |s.Get(t).executedOn| < g.maxAttempts(t)
    ensures t in TaskFailed(g, s, t).state.Forbidden(s.Get(t).LastExecutedOn())
  {
    var s1 := MarkAllBlocked(g, s, t, 0);
    MarkAllBlockedOnlyBlocks(g, s, t, 0);
    assert SameStatus(s.Get(t), s1.Get(t));
    var e := s1.Get(t).LastExecutedOn();
    var s2 := s1.(forbidden := s1.forbidden[e := s1.Forbidden(e) + {t}]);
    assert t in s2.Forbidden(e);
    MarkExecutableForbids(g, s2, t, e);
  }

  lemma MarkExecutableForbids(g: Graph, s: State, t: TaskId, e: Option<Executor>)
    requires t in s.Forbidden(e)
    ensures t in MarkExecutable(g, s, t).state.Forbidden(e)
  {
    var m := if s.Get(t).Succeeded() then s else Forbid(s.(executable := s.executable + {t}), t);
    assert t in m.Forbidden(e);
    BlockDependentsStatus(g, m, t, 0);
  }

  /**
   When a task fails in its own right, is retried, runs again and fails again to be retried, then
   the second failure happened on another executor, and both are within the allowed attempts.
   */
  lemma RetriesMoveOn(g: Graph, s0: State, before: seq<Event>, between: seq<Event>, t: TaskId)
    requires WellFormed(g) && Initial(s0) && IsRun(g, s0, before)
    requires AboutToRetry(g, Run(g, s0, before), t)
    requires IsRun(g, Step(g, Run(g, s0, before), Drain), between)
    requires AboutToRetry(g, Run(g, Step(g, Run(g, s0, before), Drain), between), t)
    requires |Run(g, s0, before).Get(t).executedOn| < |Run(g, Step(g, Run(g, s0, before), Drain),
      between).Get(t).executedOn|
    ensures var first := Run(g, s0, before).Get(t);
      var second := Run(g, Step(g, Run(g, s0, before), Drain), between).Get(t);
      && first.LastExecutedOn() != second.LastExecutedOn()
      && first.executedOn <= second.executedOn
      && 1 <= |first.executedOn| < |second.executedOn| < g.maxAttempts(t)
  {
    var s := Run(g, s0, before);
    InitialInvariant(g, s0);
    RunInvariant2(g, s0, before);
    RetryBars(g, s, t);
    StepInvariant2(g, s, Drain);
    StepInvariant(g, s, Drain);
    var m := Step(g, s, Drain);
    var e := s.Get(t).LastExecutedOn().value;
    BarredForever(g, m, between, t, e);
    assert m.Get(t).executedOn == s.Get(t).executedOn;
    var r := Run(g, m, between);
    var n := |s.Get(t).executedOn|;
    assert r.Get(t).executedOn[|r.Get(t).executedOn| - 1] in r.Get(t).executedOn[n..];
  }

  // ---- all retries of a run ------------------------------------------------------------------

  /** The next notification is a failure to be retried of an execution after the first `seen` ones. */
  ghost predicate RetriesNew(g: Graph, s: State, ev: Event, t: TaskId, seen: nat)
    requires WellFormed(g)
  {
    ev == Drain && AboutToRetry(g, s, t) && |s.Get(t).executedOn| > seen
  }

  /** The executors of the executions of t, after the first `seen` ones, whose failure is retried. */
  ghost function RetriedOn(g: Graph, s: State, evs: seq<Event>, t: TaskId, seen: nat): seq<Executor>
    requires WellFormed(g) && IsRun(g, s, evs)
    decreases |evs|
  {
    if evs == [] then []
    else
      var r := Step(g, s, evs[0]);
      if RetriesNew(g, s, evs[0], t, seen) then
        [s.Get(t).LastExecutedOn().value] + RetriedOn(g, r, evs[1..], t, |s.Get(t).executedOn|)
      else RetriedOn(g, r, evs[1..], t, seen)
  }

  /** None of the executors is used again: t is barred from them, and did not run there since. */
  ghost predicate AllBarred(s: State, t: TaskId, seen: nat, barred: set<Executor>) {
    && seen <= |s.Get(t).executedOn|
    && forall e :: e in barred ==> Barred(s, t, e) && e !in s.Get(t).executedOn[seen..]
  }

  lemma StepAllBarred(g: Graph, s: State, ev: Event, t: TaskId, seen: nat, barred: set<Executor>)
    requires WellFormed(g) && Invariant2(g, s) && Enabled(g, s, ev) && AllBarred(s, t, seen, barred)
    ensures AllBarred(Step(g, s, ev), t, seen, barred)
  {
    var r := Step(g, s, ev);
    ExecutionsGrow(g, s, ev, t);
    var earlier, later := s.Get(t).executedOn, r.Get(t).executedOn;
    forall e | e in barred ensures Barred(r, t, e) && e !in later[seen..] {
      StepBarred(g, s, ev, t, e);
      assert later[seen..] == earlier[seen..] + later[|earlier|..];
    }
  }

  lemma ExecutionsGrow(g: Graph, s: State, ev: Event, t: TaskId)
    requires WellFormed(g) && Invariant2(g, s) && Enabled(g, s, ev)
    ensures s.Get(t).executedOn <= Step(g, s, ev).Get(t).executedOn
  {
    StepInvariant(g, s, ev);
    if ev.Choose? {
      if ev.choice.Some? {
        StartKeeps(g, s.(ready := s.ready[1..]), ev.choice.value, s.ready[0]);
      }
      assert s.(ready := s.ready[1..]).Get(t) == s.Get(t);
    } else {
      assert Step(g, s, ev).Get(t).executedOn == s.Get(t).executedOn;
    }
  }

  lemma RetryAllBarred(g: Graph, s: State, t: TaskId, seen: nat, barred: set<Executor>)
    requires WellFormed(g) && Invariant2(g, s) && AllBarred(s, t, seen, barred) && RetriesNew(g, s, Drain, t, seen)
    ensures var e := s.Get(t).LastExecutedOn().value;
      e !in barred && AllBarred(Step(g, s, Drain), t, |s.Get(t).executedOn|, barred + {e})
  {
    var on := s.Get(t).executedOn;
    var e := s.Get(t).LastExecutedOn().value;
    assert on[seen..][|on| - 1 - seen] == e;
    StepInvariant(g, s, Drain);
    var r := Step(g, s, Drain);
    assert r.Get(t).executedOn == on;
    StepAllBarred(g, s, Drain, t, seen, barred);
    RetryBars(g, s, t);
    assert on[|on|..] == [];
  }

  lemma {:induction false} RetriesDiffer(
    g: Graph, s: State, evs: seq<Event>, t: TaskId, seen: nat, barred: set<Executor>)
    requires WellFormed(g) && Invariant2(g, s) && IsRun(g, s, evs) && AllBarred(s, t, seen, barred)
    ensures var es := RetriedOn(g, s, evs, t, seen);
      && (forall i :: 0 <= i < |es| ==> es[i] !in barred)
      && NoDuplicates(es)
      && (es != [] ==> seen + |es| < g.maxAttempts(t))
    decreases |evs|
  {
    if evs != [] {
      var r := Step(g, s, evs[0]);
      StepInvariant2(g, s, evs[0]);
      if RetriesNew(g, s, evs[0], t, seen) {
        RetryAllBarred(g, s, t, seen, barred);
        RetriesDiffer(g, r, evs[1..], t, |s.Get(t).executedOn|, barred + {s.Get(t).LastExecutedOn().value});
      } else {
        StepAllBarred(g, s, evs[0], t, seen, barred);
        RetriesDiffer(g, r, evs[1..], t, seen, barred);
      }
    }
  }

  /** In a whole run the retried failures of a task are on distinct executors, fewer than the attempts allowed. */
  lemma RetriesAreFew(g: Graph, s0: State, evs: seq<Event>, t: TaskId)
    requires WellFormed(g) && Initial(s0) && IsRun(g, s0, evs)
    ensures var es := RetriedOn(g, s0, evs, t, 0);
      && NoDuplicates(es)
      && (es != [] ==> |es| < g.maxAttempts(t))
  {
    InitialInvariant(g, s0);
    RetriesDiffer(g, s0, evs, t, 0, {});
  }

  // ---- a name that is used again --------------------------------------------------------------

  function Lone(): Graph { Graph(t => [], t => [], t => 0, t => 0, t => 1, t => true) }

  const Joined := Idle.(executors := map[7 := true], ready := [7])
  const Submitted := Joined.(known := {0}, executable := {0})
  const Executes := Submitted.(
    executable := {}, ready := [], slots := [Some(7)], executing := map[Some(7) := {0}],
    tasks := map[0 := NewTask.(started := true, executedOn := [7], resultOn := [7])])
  const Left := Executes.(executors := map[])
  const Rejoined := Left.(executors := map[7 := true], ready := [7])
  const Finished := Rejoined.(
    done := [0], tasks := map[0 := NewTask.(started := true, stopped := true, executedOn := [7], resultOn := [7])])

  lemma SubmittedStep()
    ensures Enabled(Lone(), Joined, Submission([0])) && Step(Lone(), Joined, Submission([0])) == Submitted
  {
    var g := Lone();
    var job: seq<TaskId> := [0];
    assert (set t | t in job) == {0} && job[1..] == [];
    var s := Joined.(known := {0});
    var m := Forbid(s.(executable := {0}), 0);
    assert m.forbidden == map[];
    assert MarkExecutable(g, s, 0) == Outcome(m, false);
    assert MarkRoots(g, s, job) == Outcome(m, false);
  }

  lemma ExecutesStep()
    ensures Enabled(Lone(), Submitted, Choose(Some(0))) && Step(Lone(), Submitted, Choose(Some(0))) == Executes
  {
    assert Submitted.ready[1..] == [];
    assert Submitted.Forbidden(Some(7)) == {};
    assert Chosen(Lone(), Submitted, 7, 0);
    ExecutesOccupied();
    StartEffect(Lone(), Submitted.(ready := []), 0, 7);
    assert NewTask.executedOn + [7] == [7] && NewTask.resultOn + [7] == [7];
    assert Start(Lone(), Submitted.(ready := []), 0, 7) == Executes;
  }

  lemma ExecutesOccupied()
    ensures Occupied(Submitted.(ready := []), 0, 7) == Executes.(tasks := Submitted.tasks)
  {
    var none: set<TaskId> := {};
    assert none + {0} == {0};
    var m := Occupied(Submitted.(ready := []), 0, 7);
    assert m.executing == map[Some(7) := none][Some(7) := none + {0}];
    assert m.executing == map[Some(7) := {0}];
    assert m.executable == {} by { assert {0} - {0} == none; }
    assert m.slots == [Some(7)];
  }

  lemma LeavesAndJoins()
    ensures Step(Lone(), Idle, AddExecutor(7, true)) == Joined
    ensures Step(Lone(), Executes, RemoveExecutor(7)) == Left
    ensures Step(Lone(), Left, AddExecutor(7, true)) == Rejoined
  {
    assert map[7 := true] - {7} == map[];
  }

  lemma FinishedStep()
    ensures Enabled(Lone(), Rejoined, Finish(0, None)) && Step(Lone(), Rejoined, Finish(0, None)) == Finished
  {
  }

  lemma CrashStep()
    ensures Enabled(Lone(), Finished, Drain) && Step(Lone(), Finished, Drain).crashed
  {
    var g := Lone();
    var s := Finished.(done := Finished.done[1..]);
    var handled := TaskSucceeded(g, s, 0, 0);
    assert handled == Outcome(s.(emitted := [0]), false);
    assert FreeSlot(handled.state, 0, Some(7)).raised;
    assert TaskDone(g, s, 0) == FreeSlot(handled.state, 0, Some(7));
  }

  ghost predicate Crashes(s: State, evs: seq<Event>) {
    WellFormed(Lone()) && IsRun(Lone(), s, evs) && Run(Lone(), s, evs).crashed
  }

  lemma CrashesFirst(s: State, ev: Event, m: State, evs: seq<Event>)
    requires WellFormed(Lone()) && Enabled(Lone(), s, ev) && Step(Lone(), s, ev) == m && Crashes(m, evs)
    ensures Crashes(s, [ev] + evs)
  {
    assert ([ev] + evs)[1..] == evs;
  }

  lemma CrashesOnceRejoined() returns (evs: seq<Event>)
    ensures Crashes(Rejoined, evs)
  {
    FinishedStep();
    CrashStep();
    CrashesFirst(Finished, Drain, Step(Lone(), Finished, Drain), []);
    CrashesFirst(Rejoined, Finish(0, None), Finished, [Drain] + []);
    evs := [Finish(0, None)] + ([Drain] + []);
  }

  lemma CrashesOnceExecuting() returns (evs: seq<Event>)
    ensures Crashes(Executes, evs)
  {
    evs := CrashesOnceRejoined();
    LeavesAndJoins();
    CrashesFirst(Left, AddExecutor(7, true), Rejoined, evs);
    evs := [AddExecutor(7, true)] + evs;
    CrashesFirst(Executes, RemoveExecutor(7), Left, evs);
    evs := [RemoveExecutor(7)] + evs;
  }

  /** The executor of a running task leaves and joins again under its name, then the task finishes. */
  lemma ReusedNameStopsTheLoop() returns (evs: seq<Event>)
    ensures Crashes(Idle, evs)
  {
    evs := CrashesOnceExecuting();
    ExecutesStep();
    CrashesFirst(Submitted, Choose(Some(0)), Executes, evs);
    evs := [Choose(Some(0))] + evs;
    SubmittedStep();
    CrashesFirst(Joined, Submission([0]), Submitted, evs);
    evs := [Submission([0])] + evs;
    LeavesAndJoins();
    CrashesFirst(Idle, AddExecutor(7, true), Joined, evs);
    evs := [AddExecutor(7, true)] + evs;
  }
}

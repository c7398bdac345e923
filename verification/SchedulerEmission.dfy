/**
 Results reach the job that waits for them: a task is handed to it when its success was handled, or
 when it failed for good, and at no other moment.
 */
module SchedulerEmission {
  import opened Sequences
  import opened SchedulerModel
  import opened SchedulerSafety
  import opened SchedulerReadiness
  import opened SchedulerDraining

  /** Failed in its own right, with no attempts left. */
  predicate FailedForGood(g: Graph, task: Task, t: TaskId) {
    task.Failed() && task.exception.value.GeneralFailure? && |task.executedOn| >= g.maxAttempts(t)
  }

  /** The execution of t came to its end. */
  predicate Final(g: Graph, s: State, t: TaskId) {
    (s.Get(t).Succeeded() && s.Get(t).executedOn != []) || FailedForGood(g, s.Get(t), t)
  }

  /** What was emitted on the way from s to r. */
  function NewResults(s: State, r: State): seq<TaskId> {
    if |s.emitted| <= |r.emitted| then r.emitted[|s.emitted|..] else []
  }

  /** Only known tasks that have succeeded were emitted. */
  ghost predicate Emits(s: State, r: State) {
    && r.known == s.known && s.emitted <= r.emitted
    && (forall x :: r.Get(x).Succeeded() ==> s.Get(x).Succeeded())
    && forall x :: x in NewResults(s, r) ==> x in s.known && s.Get(x).Succeeded()
  }

  lemma NewResultsConcat(s: State, m: State, r: State)
    requires s.emitted <= m.emitted <= r.emitted
    ensures s.emitted <= r.emitted && NewResults(s, r) == NewResults(s, m) + NewResults(m, r)
  {
  }

  lemma EmitsTransitive(s: State, m: State, r: State)
    requires Emits(s, m) && Emits(m, r)
    ensures Emits(s, r) && NewResults(s, r) == NewResults(s, m) + NewResults(m, r)
  {
    NewResultsConcat(s, m, r);
    forall x ensures r.Get(x).Succeeded() ==> s.Get(x).Succeeded() {
      assert r.Get(x).Succeeded() ==> m.Get(x).Succeeded();
    }
  }

  /** The same results, and no new success. */
  ghost predicate Silent(s: State, r: State) {
    r.known == s.known && r.emitted == s.emitted && forall x :: r.Get(x).Succeeded() ==> s.Get(x).Succeeded()
  }

  lemma MarkExecutableSilent(g: Graph, s: State, t: TaskId)
    ensures Silent(s, MarkExecutable(g, s, t).state)
    ensures SameStatus(s.Get(t), MarkExecutable(g, s, t).state.Get(t))
  {
    var m := if s.Get(t).Succeeded() then s else Forbid(s.(executable := s.executable + {t}), t);
    assert forall x :: m.Get(x) == s.Get(x);
    BlockDependentsStatus(g, m, t, 0);
    var r := BlockDependents(g, m, t, 0);
    forall x ensures r.Get(x).Succeeded() == s.Get(x).Succeeded() {
      assert SameStatus(m.Get(x), r.Get(x));
    }
  }

  lemma MarkFailedSilent(g: Graph, s: State, t: TaskId, failure: Failure)
    ensures Silent(s, MarkFailed(g, s, t, failure)) && MarkFailed(g, s, t, failure).Get(t).Failed()
  {
    MarkFailedEffect(g, s, t, failure);
    var r := MarkFailed(g, s, t, failure);
    forall x ensures r.Get(x).Succeeded() ==> s.Get(x).Succeeded() {
      assert SameOrFailed(s.Get(x), r.Get(x));
    }
  }

  /** An assertion error leaves t failed. */
  lemma SettleEmits(g: Graph, s: State, handled: Outcome, t: TaskId, e: Option<Executor>)
    requires Emits(s, handled.state)
    ensures var r := Settle(g, handled, t, e).state;
      && Emits(s, r) && NewResults(s, r) == NewResults(s, handled.state)
      && (if handled.raised then r.Get(t).Failed() else r.Get(t) == handled.state.Get(t))
  {
    MarkFailedSilent(g, handled.state, t, GeneralFailure);
    var m := if handled.raised then MarkFailed(g, handled.state, t, GeneralFailure) else handled.state;
    var r := FreeSlot(m, t, e).state;
    forall x ensures r.Get(x) == m.Get(x) {}
    EmitsTransitive(s, handled.state, r);
  }

  // ---- a success -----------------------------------------------------------------------------

  lemma {:induction false} UnblockEmits(g: Graph, s: State, t: TaskId, u: TaskId)
    requires WellFormed(g) && u in g.dependents(t)
    ensures Emits(s, Unblock(g, s, t, u).state)
    decreases g.height(t), 1, 0
  {
    var task := s.Get(u);
    if task.blocked != {} {
      var m := s.Put(u, task.(blocked := task.blocked - {t}));
      forall x ensures m.Get(x).Succeeded() == s.Get(x).Succeeded() {}
      assert Emits(s, m);
      if task.blocked - {t} == {} {
        if task.Succeeded() {
          SuccessEmits(g, m, u);
        } else {
          MarkExecutableSilent(g, m, u);
        }
        EmitsTransitive(s, m, Unblock(g, s, t, u).state);
      }
    }
  }

  /** Unless an assertion fails on the way, the task itself is emitted. */
  lemma {:induction false} TaskSucceededEmits(g: Graph, s: State, t: TaskId, i: nat)
    requires WellFormed(g) && i <= |g.dependents(t)| && s.Get(t).Succeeded() && t in s.known
    ensures var r := TaskSucceeded(g, s, t, i);
      Emits(s, r.state) && r.state.Get(t).Succeeded() && (!r.raised ==> t in NewResults(s, r.state))
    decreases g.height(t), 1, |g.dependents(t)| - i + 1
  {
    var r := TaskSucceeded(g, s, t, i);
    if i == |g.dependents(t)| {
      assert forall x :: r.state.Get(x) == s.Get(x);
      assert NewResults(s, r.state) == [t];
    } else {
      var u := g.dependents(t)[i];
      assert u in g.dependents(t);
      var m := Unblock(g, s, t, u);
      UnblockEmits(g, s, t, u);
      var ks := Listed(s.known);
      UnblockCosts(g, s, t, u, ks);
      assert SameStatus(s.Get(t), m.state.Get(t));
      if !m.raised {
        TaskSucceededEmits(g, m.state, t, i + 1);
        EmitsTransitive(s, m.state, r.state);
      }
    }
  }

  /** Handling a success emits the task, unless it fails by that. */
  lemma {:induction false} SuccessEmits(g: Graph, s: State, t: TaskId)
    requires WellFormed(g) && s.Get(t).Succeeded()
    ensures var r := TaskDone(g, s, t).state;
      && Emits(s, r) && (t in s.known && r.Get(t).Succeeded() ==> t in NewResults(s, r))
    decreases g.height(t), 2
  {
    if t in s.known {
      var e := s.Get(t).LastExecutedOn();
      var s0 := s.Touch(e);
      assert forall x :: s0.Get(x) == s.Get(x);
      TaskSucceededEmits(g, s0, t, 0);
      var h := TaskSucceeded(g, s0, t, 0);
      EmitsTransitive(s, s0, h.state);
      SettleEmits(g, s, h, t, e);
    }
  }

  // ---- a failure -----------------------------------------------------------------------------

  lemma BlockingSilent(g: Graph, s: State, t: TaskId)
    requires WellFormed(g)
    ensures var m := MarkAllBlocked(g, s, t, 0); Silent(s, m) && SameStatus(s.Get(t), m.Get(t))
  {
    var m := MarkAllBlocked(g, s, t, 0);
    MarkAllBlockedOnlyBlocks(g, s, t, 0);
    forall x ensures m.Get(x).Succeeded() == s.Get(x).Succeeded() {
      assert SameStatus(s.Get(x), m.Get(x));
    }
  }

  lemma {:induction false} DependenciesLostSilent(g: Graph, s: State, t: TaskId, lost: seq<Lost>)
    ensures Silent(s, DependenciesLost(g, s, t, lost).state)
    decreases |lost|
  {
    if lost == [] {
      MarkExecutableSilent(g, s, t);
    } else if lost[0].task !in s.known {
      MarkFailedSilent(g, s, t, GeneralFailure);
    } else if IsLost(s.Get(lost[0].task), lost[0]) {
      var m := MarkFailed(g, s, lost[0].task, FailedDependency);
      MarkFailedSilent(g, s, lost[0].task, FailedDependency);
      DependenciesLostSilent(g, m, t, lost[1..]);
      SilentTransitive(s, m, DependenciesLost(g, s, t, lost).state);
    } else {
      DependenciesLostSilent(g, s, t, lost[1..]);
    }
  }

  lemma SilentTransitive(s: State, m: State, r: State)
    requires Silent(s, m) && Silent(m, r)
    ensures Silent(s, r)
  {
    forall x ensures r.Get(x).Succeeded() ==> s.Get(x).Succeeded() {
      assert r.Get(x).Succeeded() ==> m.Get(x).Succeeded();
    }
  }

  /** A failure that is to be retried is kept from the job. */
  lemma RetrySilent(g: Graph, s: State, t: TaskId)
    requires WellFormed(g) && s.Get(t).Failed() && !FailedForGood(g, s.Get(t), t)
    ensures Silent(s, TaskFailed(g, s, t).state)
  {
    var m := MarkAllBlocked(g, s, t, 0);
    BlockingSilent(g, s, t);
    var f := match s.Get(t).exception.value
      case DependenciesFailed(lost) => DependenciesLost(g, m, t, lost).state
      case GeneralFailure => TransientFailure(g, Charge(m, t), t).state
      case _ => TransientFailure(g, m, t).state;
    match s.Get(t).exception.value {
      case DependenciesFailed(lost) => DependenciesLostSilent(g, m, t, lost);
      case GeneralFailure => ChargeSilent(g, m, t);
      case _ => MarkExecutableSilent(g, m, t);
    }
    SilentTransitive(s, m, f);
    var r := TaskFailed(g, s, t).state;
    assert forall x :: r.Get(x) == f.Get(x);
  }

  lemma ChargeSilent(g: Graph, s: State, t: TaskId)
    ensures Silent(s, TransientFailure(g, Charge(s, t), t).state)
  {
    var m := Charge(s, t);
    assert forall x :: m.Get(x) == s.Get(x);
    MarkExecutableSilent(g, m, t);
  }

  /** A failure for good is handed to the job, and nothing else is. */
  lemma FailureEmits(g: Graph, s: State, t: TaskId)
    requires WellFormed(g) && t in s.known && FailedForGood(g, s.Get(t), t)
    ensures var r := TaskFailed(g, s, t); !r.raised && NewResults(s, r.state) == [t] && s.emitted <= r.state.emitted
  {
    BlockingSilent(g, s, t);
  }

  // ---- draining ------------------------------------------------------------------------------

  /** The results that handling a notification hands out. */
  ghost predicate HandsOut(g: Graph, s: State, t: TaskId, r: State) {
    && s.emitted <= r.emitted
    && (forall x :: x in NewResults(s, r) ==>
          x in s.known && (s.Get(x).Succeeded() || (x == t && FailedForGood(g, s.Get(t), t))))
    && (t in s.known && (r.Get(t).Succeeded() || FailedForGood(g, s.Get(t), t)) ==> t in NewResults(s, r))
  }

  lemma FailedHandsOut(g: Graph, s: State, t: TaskId)
    requires WellFormed(g) && t in s.known && s.Get(t).Failed()
    ensures HandsOut(g, s, t, TaskDone(g, s, t).state)
  {
    var e := s.Get(t).LastExecutedOn();
    var s0 := s.Touch(e);
    assert forall x :: s0.Get(x) == s.Get(x);
    var h := TaskFailed(g, s0, t);
    if FailedForGood(g, s.Get(t), t) {
      FailureEmits(g, s0, t);
      assert NewResults(s, FreeSlot(h.state, t, e).state) == [t];
    } else {
      RetrySilent(g, s0, t);
      assert Emits(s, h.state);
      SettleEmits(g, s, h, t, e);
    }
  }

  /** A notification hands out successes and failures for good, in any case the one it is about. */
  lemma DrainHandsOut(g: Graph, s: State)
    requires WellFormed(g) && Sound(s) && Enabled(g, s, Drain)
    ensures HandsOut(g, s, s.done[0], Step(g, s, Drain))
  {
    var t := s.done[0];
    assert t in s.done;
    var s1 := s.(done := s.done[1..]);
    assert forall x :: s1.Get(x) == s.Get(x);
    var m := TaskDone(g, s1, t).state;
    if t in s.known {
      if s.Get(t).Succeeded() {
        SuccessEmits(g, s1, t);
      } else {
        FailedHandsOut(g, s1, t);
      }
    }
    assert HandsOut(g, s1, t, m);
    assert Step(g, s, Drain).Get(t) == m.Get(t);
  }

  // ---- all other events ----------------------------------------------------------------------

  lemma {:induction false} CancelTasksEmitNothing(g: Graph, s: State, job: seq<TaskId>)
    requires Safe(g, s, {})
    ensures CancelTasks(g, s, job).emitted == s.emitted
    decreases |job|
  {
    if job != [] {
      CancelTaskEffect(g, s, job[0]);
      CancelTaskSafe(g, s, job[0]);
      CancelTasksEmitNothing(g, CancelTask(g, s, job[0]), job[1..]);
    }
  }

  lemma {:induction false} MarkRootsEmitNothing(g: Graph, s: State, job: seq<TaskId>)
    ensures MarkRoots(g, s, job).state.emitted == s.emitted
    decreases |job|
  {
    if job != [] {
      MarkExecutableSilent(g, s, job[0]);
      var r := if !s.Get(job[0]).Succeeded() && DependenciesSucceeded(g, s, job[0])
               then MarkExecutable(g, s, job[0]) else Outcome(s, false);
      if !r.raised {
        MarkRootsEmitNothing(g, r.state, job[1..]);
      }
    }
  }

  lemma {:induction false} FailGenerallyEmitsNothing(g: Graph, s: State, ts: seq<TaskId>)
    ensures FailGenerally(g, s, ts).emitted == s.emitted
    decreases |ts|
  {
    if ts != [] {
      MarkFailedSilent(g, s, ts[0], GeneralFailure);
      FailGenerallyEmitsNothing(g, MarkFailed(g, s, ts[0], GeneralFailure), ts[1..]);
    }
  }

  lemma SubmitEmitsNothing(g: Graph, s: State, job: seq<TaskId>)
    requires WellFormed(g) && Invariant(g, s) && Submittable(g, s, job)
    ensures Submit(g, s, job).emitted == s.emitted
  {
    var s1 := s.(known := s.known + set t | t in job);
    SubmittedInvariant(g, s, job);
    MarkRootsEmitNothing(g, s1, job);
    MarkRootsSafe(g, s1, job);
    CancelTasksEmitNothing(g, MarkRoots(g, s1, job).state, job);
  }

  /** Nothing is handed out but by handling a notification. */
  lemma OnlyDrainEmits(g: Graph, s: State, ev: Event)
    requires WellFormed(g) && Invariant(g, s) && Enabled(g, s, ev) && !ev.Drain?
    ensures Step(g, s, ev).emitted == s.emitted
  {
    match ev
    case Submission(job) => SubmitEmitsNothing(g, s, job);
    case Cancellation(job) => CancelTasksEmitNothing(g, s, job);
    case CancelRequest(t) => SignalStopEffect(g, s, t, s.Get(t).(cancelled := true));
    case Finish(t, location) => SignalStopEffect(g, s, t, s.Get(t).At(location));
    case Fail(t, failure) => SignalStopEffect(g, s, t, s.Get(t).(exception := Some(failure)));
    case FinishCancelled(t) => SignalStopEffect(g, s, t, s.Get(t).(exception := None, cancelled := true));
    case NoExecutors(order) => FailGenerallyEmitsNothing(g, s, order);
    case Choose(choice) => PickEmitsNothing(g, s, choice);
    case _ =>
  }

  lemma PickEmitsNothing(g: Graph, s: State, choice: Option<TaskId>)
    requires s.ready != []
    ensures Pick(g, s, choice).emitted == s.emitted
  {
    var s1 := s.(ready := s.ready[1..]);
    if choice.Some? {
      MarkFailedSilent(g, Occupied(s1, choice.value, s.ready[0]), choice.value, GeneralFailure);
    }
  }

  // ---- runs ----------------------------------------------------------------------------------

  /** Each known task that came to its end was handed out, or has a notification waiting. */
  ghost predicate Delivered(g: Graph, s: State) {
    forall x :: x in s.known && Final(g, s, x) ==> x in s.emitted || x in s.done
  }

  lemma InResults(s: State, r: State, x: TaskId)
    requires s.emitted <= r.emitted && (x in s.emitted || x in NewResults(s, r))
    ensures x in r.emitted
  {
    assert r.emitted == s.emitted + NewResults(s, r);
  }

  lemma KeepsDelivered(g: Graph, s: State, r: State)
    requires Keeps(s, r) && Delivered(g, s)
    ensures Delivered(g, r)
  {
    forall x | x in r.known && Final(g, r, x) && x !in r.done ensures x in r.emitted {
      assert SameStatus(s.Get(x), r.Get(x));
      InResults(s, r, x);
    }
  }

  lemma DrainDelivered(g: Graph, s: State)
    requires WellFormed(g) && Invariant(g, s) && Delivered(g, s) && Enabled(g, s, Drain)
    ensures Delivered(g, Step(g, s, Drain))
  {
    var t := s.done[0];
    var s1 := s.(done := s.done[1..]);
    var r := Step(g, s, Drain);
    assert s.done == [t] + s1.done;
    DrainSafe(g, s);
    DrainHandsOut(g, s);
    var m := TaskDone(g, s1, t).state;
    forall x | x in r.known && x !in r.done ensures SameStatus(s.Get(x), r.Get(x)) {
      assert r.Get(x) == m.Get(x) && s1.Get(x) == s.Get(x);
      assert SameStatus(s1.Get(x), m.Get(x));
    }
    HandedOutDelivered(g, s, t, r);
  }

  lemma HandedOutDelivered(g: Graph, s: State, t: TaskId, r: State)
    requires Delivered(g, s) && HandsOut(g, s, t, r) && r.known == s.known
    requires forall x :: x in s.done ==> x == t || x in r.done
    requires forall x :: x in r.known && x !in r.done ==> SameStatus(s.Get(x), r.Get(x))
    ensures Delivered(g, r)
  {
    forall x | x in r.known && Final(g, r, x) && x !in r.done ensures x in r.emitted {
      assert SameStatus(s.Get(x), r.Get(x));
      InResults(s, r, x);
    }
  }

  /** Only tasks whose notification waits changed, and no known one is forgotten. */
  lemma QueuedDelivered(g: Graph, s: State, r: State)
    requires Delivered(g, s) && r.known <= s.known && r.emitted == s.emitted && forall x :: x in s.done ==> x in r.done
    requires forall x :: x in r.known && r.Get(x) != s.Get(x) ==> x in r.done || !Final(g, r, x)
    ensures Delivered(g, r)
  {
    forall x | x in r.known && Final(g, r, x) && x !in r.done ensures x in r.emitted {
      assert Final(g, s, x);
    }
  }

  lemma {:induction false} CancelTasksDelivered(g: Graph, s: State, job: seq<TaskId>)
    requires Safe(g, s, {}) && Delivered(g, s)
    ensures Delivered(g, CancelTasks(g, s, job))
    decreases |job|
  {
    if job != [] {
      CancelTaskEffect(g, s, job[0]);
      CancelTaskSafe(g, s, job[0]);
      QueuedDelivered(g, s, CancelTask(g, s, job[0]));
      CancelTasksDelivered(g, CancelTask(g, s, job[0]), job[1..]);
    }
  }

  lemma SubmitDelivered(g: Graph, s: State, job: seq<TaskId>)
    requires WellFormed(g) && Invariant(g, s) && Delivered(g, s) && Submittable(g, s, job)
    ensures Delivered(g, Submit(g, s, job))
  {
    var s1 := s.(known := s.known + set t | t in job);
    assert forall x :: s1.Get(x) == s.Get(x);
    assert Delivered(g, s1);
    SubmittedInvariant(g, s, job);
    MarkRootsSafe(g, s1, job);
    var m := MarkRoots(g, s1, job).state;
    KeepsDelivered(g, s1, m);
    CancelTasksDelivered(g, m, job);
  }

  lemma StopDelivered(g: Graph, s: State, t: TaskId, task: Task)
    requires Delivered(g, s) && task.blocked == s.Get(t).blocked
    ensures Delivered(g, SignalStop(g, s.Put(t, task), t))
  {
    SignalStopEffect(g, s, t, task);
    QueuedDelivered(g, s, SignalStop(g, s.Put(t, task), t));
  }

  lemma PickDelivered(g: Graph, s: State, choice: Option<TaskId>)
    requires Invariant(g, s) && Delivered(g, s) && Enabled(g, s, Choose(choice))
    ensures Delivered(g, Pick(g, s, choice))
  {
    var s1 := s.(ready := s.ready[1..]);
    var r := Pick(g, s, choice);
    PickEmitsNothing(g, s, choice);
    assert forall x :: s1.Get(x) == s.Get(x);
    if s.ready[0] in s.executors && s.executors[s.ready[0]] && choice.Some? {
      StartDelivered(g, s1, choice.value, s.ready[0]);
    } else {
      QueuedDelivered(g, s, r);
    }
  }

  lemma StartDelivered(g: Graph, s: State, t: TaskId, e: Executor)
    requires Delivered(g, s)
    ensures Delivered(g, Start(g, s, t, e))
  {
    StartEffect(g, s, t, e);
    var m := Occupied(s, t, e);
    QueuedDelivered(g, s, m);
    MarkFailedEffect(g, m, t, GeneralFailure);
    MarkFailedSilent(g, m, t, GeneralFailure);
    QueuedDelivered(g, m, Start(g, s, t, e));
  }

  lemma StepDelivered(g: Graph, s: State, ev: Event)
    requires WellFormed(g) && Invariant(g, s) && Delivered(g, s) && Enabled(g, s, ev)
    ensures Delivered(g, Step(g, s, ev))
  {
    match ev
    case Submission(job) => SubmitDelivered(g, s, job);
    case Cancellation(job) => CancelTasksDelivered(g, s, job);
    case CancelRequest(t) => StopDelivered(g, s, t, s.Get(t).(cancelled := true));
    case Finish(t, location) => StopDelivered(g, s, t, s.Get(t).At(location));
    case Fail(t, failure) => StopDelivered(g, s, t, s.Get(t).(exception := Some(failure)));
    case FinishCancelled(t) => StopDelivered(g, s, t, s.Get(t).(exception := None, cancelled := true));
    case Drain => DrainDelivered(g, s);
    case NoExecutors(order) =>
      FailGenerallySafe(g, s, order);
      KeepsDelivered(g, s, FailGenerally(g, s, order));
    case Choose(choice) => PickDelivered(g, s, choice);
    case _ => QueuedDelivered(g, s, Step(g, s, ev));
  }

  lemma {:induction false} RunDelivered(g: Graph, s: State, evs: seq<Event>)
    requires WellFormed(g) && IsRun(g, s, evs) && Invariant(g, s) && Delivered(g, s)
    ensures Delivered(g, Run(g, s, evs))
    decreases |evs|
  {
    if evs != [] {
      StepInvariant(g, s, evs[0]);
      StepDelivered(g, s, evs[0]);
      RunDelivered(g, Step(g, s, evs[0]), evs[1..]);
    }
  }

  /**
   In every run, a known task that was executed and has succeeded, or that failed for good, was
   handed to its job, or has a notification waiting.
   */
  lemma ResultsAreDelivered(g: Graph, s0: State, evs: seq<Event>)
    requires WellFormed(g) && Initial(s0) && IsRun(g, s0, evs)
    ensures var s := Run(g, s0, evs);
      forall t :: t in s.known && Final(g, s, t) ==> t in s.emitted || t in s.done
  {
    InitialInvariant(g, s0);
    RunDelivered(g, s0, evs);
  }
}

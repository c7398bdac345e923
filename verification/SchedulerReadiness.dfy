/**
 Every event keeps the safety invariant, so readiness holds over whole runs.
 */
module SchedulerReadiness {
  import opened Sequences
  import opened SchedulerModel
  import opened SchedulerSafety

  /** No task was started. */
  ghost predicate Quiet(s: State, r: State) {
    forall x :: (r.Get(x).Running() ==> s.Get(x).Running()) && r.Get(x).executedOn == s.Get(x).executedOn
  }

  lemma QuietTransitive(s: State, m: State, r: State)
    requires Quiet(s, m) && Quiet(m, r)
    ensures Quiet(s, r)
  {
    forall x ensures (r.Get(x).Running() ==> s.Get(x).Running()) && r.Get(x).executedOn == s.Get(x).executedOn {
      assert m.Get(x).executedOn == s.Get(x).executedOn;
    }
  }

  lemma KeepsQuiet(s: State, r: State)
    requires Keeps(s, r)
    ensures Quiet(s, r)
  {
    forall x ensures (r.Get(x).Running() ==> s.Get(x).Running()) && r.Get(x).executedOn == s.Get(x).executedOn {
      assert KeepsTask(s.Get(x), r.Get(x));
    }
  }

  // ---- cancellation --------------------------------------------------------------------------

  lemma {:induction false} FreeSlotsSameTasks(s: State, t: TaskId, es: seq<Option<Executor>>)
    ensures var r := FreeSlots(s, t, es);
      r == s.(executing := r.executing, ready := r.ready) && r.executing.Keys == s.executing.Keys
    decreases |es|
  {
    if es != [] {
      if t !in s.Executing(es[0]) {
        FreeSlotsSameTasks(s, t, es[1..]);
      } else {
        var left := s.Executing(es[0]) - {t};
        FreeSlotsSameTasks(s.(executing := s.executing[es[0] := left],
                              ready := if left == {} && es[0].Some? then s.ready + [es[0].value] else s.ready), t,
                                es[1..]);
      }
    }
  }

  /** The record of a single task that is not executable and has not succeeded may change. */
  lemma Changed(g: Graph, s: State, r: State, t: TaskId)
    requires Safe(g, s, {}) && !s.Get(t).Succeeded()
    requires r.executable <= s.executable && t !in r.executable && r.known == s.known
    requires forall x :: x != t ==> r.Get(x) == s.Get(x)
    requires r.done == s.done || (r.done == s.done + [t] && r.Get(t).stopped)
    requires t in s.done ==> r.Get(t).stopped
    requires r.Get(t).Running() ==> r.Get(t).exception.None?
    ensures Safe(g, r, {})
  {
    forall u, d | u in r.executable && d in g.dependencies(u) ensures Vouched(r, u, d, {}) {
      assert Vouched(s, u, d, {});
    }
  }

  lemma CancelSafe(g: Graph, s: State, t: TaskId)
    requires Safe(g, s, {})
    ensures var r := Cancel(g, s, t);
      && Safe(g, r, {}) && Quiet(s, r) && r == s.(tasks := r.tasks, done := r.done)
      && (forall e :: r.Forbidden(e) == s.Forbidden(e))
  {
    if s.Get(t).Running() {
      Cancelled(g, s, t);
      Changed(g, s, Cancel(g, s, t), t);
    }
  }

  lemma Cancelled(g: Graph, s: State, t: TaskId)
    requires Sound(s) && s.Get(t).Running()
    ensures var r := Cancel(g, s, t);
      && r == HandOff(s.Put(t, s.Get(t).(cancelled := true, stopped := true)), t)
      && r.Get(t) == s.Get(t).(cancelled := true, stopped := true) && forall x :: x != t ==> r.Get(x) == s.Get(x)
  {
    var task := s.Get(t).(cancelled := true);
    var m := s.Put(t, task);
    assert m.Get(t) == task && m.Put(t, task.(stopped := true)).tasks == s.Put(t, task.(stopped := true)).tasks;
  }

  lemma OtherSlotsSafe(g: Graph, s: State, r: State)
    requires Safe(g, s, {}) && r == s.(executing := r.executing, ready := r.ready)
    ensures Safe(g, r, {}) && Quiet(s, r) && forall e :: r.Forbidden(e) == s.Forbidden(e)
  {
    forall x ensures r.Get(x) == s.Get(x) {}
    forall u, d | u in r.executable && d in g.dependencies(u) ensures Vouched(r, u, d, {}) {
      assert Vouched(s, u, d, {});
    }
  }

  lemma CancelTaskSafe(g: Graph, s: State, t: TaskId)
    requires Safe(g, s, {})
    ensures var r := CancelTask(g, s, t);
      && Safe(g, r, {}) && Quiet(s, r) && r.known == s.known - {t}
      && s.released <= r.released <= s.released + {t} && (t in s.known ==> t in r.released)
      && (forall e :: r.Forbidden(e) >= s.Forbidden(e) - {t})
  {
    var s1 := Cancel(g, s, t);
    CancelSafe(g, s, t);
    var s2 := s1.Put(t, s1.Get(t).(blocked := {}));
    Unblocking(g, s1, t);
    QuietTransitive(s, s1, s2);
    if t in s2.known {
      var s3 := Forget(s2, t);
      forall x ensures s3.Get(x) == s2.Get(x) {}
      Withdraw(g, s2, s3, t);
      var r := FreeSlots(s3, t, s3.slots);
      FreeSlotsSameTasks(s3, t, s3.slots);
      OtherSlotsSafe(g, s3, r);
      QuietTransitive(s, s2, r);
      forall e ensures r.Forbidden(e) >= s.Forbidden(e) - {t} {
        assert s2.Forbidden(e) == s1.Forbidden(e);
      }
    }
  }

  lemma CancelTaskEffect(g: Graph, s: State, t: TaskId)
    requires Sound(s)
    ensures var r := CancelTask(g, s, t);
      && (forall x :: x != t ==> r.Get(x) == s.Get(x)) && r.emitted == s.emitted
      && r.executable == s.executable - {t} && r.known == s.known - {t}
      && (r.done == s.done || (r.done == s.done + [t] && s.Get(t).Running() && t in s.known))
  {
    if s.Get(t).Running() {
      Cancelled(g, s, t);
    }
    var s1 := Cancel(g, s, t);
    var s2 := s1.Put(t, s1.Get(t).(blocked := {}));
    forall x | x != t ensures s2.Get(x) == s.Get(x) {}
    if t in s2.known {
      var s3 := Forget(s2, t);
      var r := FreeSlots(s3, t, s3.slots);
      FreeSlotsSameTasks(s3, t, s3.slots);
      forall x | x != t ensures r.Get(x) == s.Get(x) {
        assert r.Get(x) == s2.Get(x);
      }
    }
  }

  lemma Unblocking(g: Graph, s: State, t: TaskId)
    requires Safe(g, s, {})
    ensures var r := s.Put(t, s.Get(t).(blocked := {}));
      Safe(g, r, {}) && Quiet(s, r)
  {
    var r := s.Put(t, s.Get(t).(blocked := {}));
    forall x | x != t ensures r.Get(x) == s.Get(x) {}
    forall u, d | u in r.executable && d in g.dependencies(u) ensures Vouched(r, u, d, {}) {
      assert Vouched(s, u, d, {});
    }
  }

  lemma Withdraw(g: Graph, s: State, r: State, t: TaskId)
    requires Safe(g, s, {}) && (forall x :: r.Get(x) == s.Get(x)) && r.done == s.done
    requires r.executable == s.executable - {t} && r.known == s.known - {t}
    ensures Safe(g, r, {}) && Quiet(s, r)
  {
    forall u, d | u in r.executable && d in g.dependencies(u) ensures Vouched(r, u, d, {}) {
      assert Vouched(s, u, d, {});
    }
  }

  lemma {:induction false} CancelTasksSafe(g: Graph, s: State, job: seq<TaskId>)
    requires Safe(g, s, {})
    ensures var r := CancelTasks(g, s, job);
      Safe(g, r, {}) && Quiet(s, r) && r.known == s.known - (set t | t in job)
    decreases |job|
  {
    if job != [] {
      var s1 := CancelTask(g, s, job[0]);
      CancelTaskSafe(g, s, job[0]);
      CancelTasksSafe(g, s1, job[1..]);
      QuietTransitive(s, s1, CancelTasks(g, s, job));
      assert (set t | t in job) == {job[0]} + set t | t in job[1..];
    }
  }

  /** Cancelled tasks are released, and prohibitions of other tasks stay. */
  lemma {:induction false} CancelTasksReleases(g: Graph, s: State, job: seq<TaskId>)
    requires Safe(g, s, {})
    ensures var r := CancelTasks(g, s, job);
      && s.released <= r.released <= s.released + (set t | t in job)
      && (forall t :: t in s.known && t !in r.known ==> t in r.released)
      && (forall e, t :: t in s.Forbidden(e) && t !in job ==> t in r.Forbidden(e))
    decreases |job|
  {
    if job != [] {
      var s1 := CancelTask(g, s, job[0]);
      CancelTaskSafe(g, s, job[0]);
      CancelTasksReleases(g, s1, job[1..]);
      forall e, t | t in s.Forbidden(e) && t !in job ensures t in CancelTasks(g, s, job).Forbidden(e) {
        assert t in s.Forbidden(e) - {job[0]} && t !in job[1..];
        assert t in s1.Forbidden(e);
      }
    }
  }

  lemma CancellationInvariant(g: Graph, s: State, job: seq<TaskId>)
    requires Invariant(g, s) && ClosedJob(g, job) && WellFormed(g)
    ensures Invariant(g, CancelTasks(g, s, job))
  {
    CancelTasksSafe(g, s, job);
    var r := CancelTasks(g, s, job);
    forall t, d | t in r.known && d in g.dependencies(t) ensures d in r.known {
      assert t in g.dependents(d);
    }
    forall t, u | t in r.known && u in g.dependents(t) ensures u in r.known {
      assert t in g.dependencies(u);
    }
  }

  // ---- submission ----------------------------------------------------------------------------

  lemma {:induction false} MarkRootsSafe(g: Graph, s: State, job: seq<TaskId>)
    requires Invariant(g, s) && forall t :: t in job ==> t in s.known
    ensures Invariant(g, MarkRoots(g, s, job).state) && Keeps(s, MarkRoots(g, s, job).state)
    decreases |job|
  {
    if job != [] {
      var r := if !s.Get(job[0]).Succeeded() && DependenciesSucceeded(g, s, job[0])
               then MarkExecutable(g, s, job[0]) else Outcome(s, false);
      if !s.Get(job[0]).Succeeded() {
        MarkExecutableSafe(g, s, job[0], {});
      }
      assert Keeps(s, r.state);
      if !r.raised {
        MarkRootsSafe(g, r.state, job[1..]);
        KeepsTransitive(s, r.state, MarkRoots(g, s, job).state);
      }
    }
  }

  lemma SubmittedInvariant(g: Graph, s: State, job: seq<TaskId>)
    requires Invariant(g, s) && Submittable(g, s, job)
    ensures Invariant(g, s.(known := s.known + set t | t in job))
  {
    var s1 := s.(known := s.known + set t | t in job);
    forall x ensures s1.Get(x) == s.Get(x) {}
    forall u, d | u in s1.executable && d in g.dependencies(u) ensures Vouched(s1, u, d, {}) {
      assert Vouched(s, u, d, {});
    }
  }

  lemma SubmitInvariant(g: Graph, s: State, job: seq<TaskId>)
    requires WellFormed(g) && Invariant(g, s) && Submittable(g, s, job)
    ensures var r := Submit(g, s, job);
      && Invariant(g, r) && Quiet(s, r) && r.known <= s.known + (set t | t in job) && s.known <= r.known
      && s.released <= r.released && (forall t :: t in r.known ==> t in s.known || t !in r.released)
      && (forall e, t :: t in s.Forbidden(e) && t in s.known ==> t in r.Forbidden(e))
      && (forall t :: t in r.released ==> t in s.released || t in job)
  {
    var s1 := s.(known := s.known + set t | t in job);
    forall x ensures s1.Get(x) == s.Get(x) {}
    SubmittedInvariant(g, s, job);
    MarkRootsSafe(g, s1, job);
    var m := MarkRoots(g, s1, job);
    KeepsQuiet(s1, m.state);
    QuietTransitive(s, s1, m.state);
    forall e, t | t in s.Forbidden(e) ensures t in m.state.Forbidden(e) {
      assert s1.Forbidden(e) <= m.state.Forbidden(e);
    }
    if m.raised {
      CancellationInvariant(g, m.state, job);
      CancelTasksSafe(g, m.state, job);
      QuietTransitive(s, m.state, Submit(g, s, job));
      CancelTasksReleases(g, m.state, job);
    }
  }

  // ---- the loop ------------------------------------------------------------------------------

  /** The state in which executor e is occupied by t. */
  // ---- what a submission does ----------------------------------------------------------------

  /** A task of a new job that waits for nothing. */
  ghost predicate IsRoot(g: Graph, s: State, t: TaskId) { !s.Get(t).Succeeded() && DependenciesSucceeded(g, s, t) }

  /** Tasks wait only for dependencies that have not succeeded, and are not running. */
  ghost predicate WaitsRightly(g: Graph, s: State, t: TaskId) {
    !s.Get(t).Running() && forall d :: d in s.Get(t).blocked ==> d in g.dependencies(t) && !s.Get(d).Succeeded()
  }

  lemma RootStarts(g: Graph, s: State, t: TaskId)
    requires WellFormed(g) && IsRoot(g, s, t) && WaitsRightly(g, s, t) && t !in s.executable
    ensures var r := MarkExecutable(g, s, t);
      && !r.raised && r.state.executable == s.executable + {t}
      && (forall x :: SameStatus(s.Get(x), r.state.Get(x)))
      && forall x :: WaitsRightly(g, s, x) ==> WaitsRightly(g, r.state, x)
  {
    assert s.Get(t).blocked == {};
    var m := Forbid(s.(executable := s.executable + {t}), t);
    assert forall x :: m.Get(x) == s.Get(x);
    BlockDependentsEffect(g, m, t, 0);
    var r := MarkExecutable(g, s, t);
    assert g.dependents(t)[0..] == g.dependents(t);
    forall x | WaitsRightly(g, s, x) ensures WaitsRightly(g, r.state, x) {
      assert SameStatus(s.Get(x), r.state.Get(x));
      forall d | d in r.state.Get(x).blocked ensures d in g.dependencies(x) && !r.state.Get(d).Succeeded() {
        assert SameStatus(s.Get(d), r.state.Get(d));
        assert d !in s.Get(x).blocked ==> d == t && x in g.dependents(t);
      }
    }
  }

  lemma SameRoots(g: Graph, s: State, r: State, t: TaskId)
    requires forall x :: SameStatus(s.Get(x), r.Get(x))
    ensures IsRoot(g, r, t) <==> IsRoot(g, s, t)
  {
    forall d ensures r.Get(d).Succeeded() == s.Get(d).Succeeded() {
      assert SameStatus(s.Get(d), r.Get(d));
    }
  }

  lemma {:induction false} RootsMarked(g: Graph, s: State, job: seq<TaskId>)
    requires WellFormed(g) && NoDuplicates(job)
    requires forall t :: t in job ==> WaitsRightly(g, s, t) && t !in s.executable
    ensures var r := MarkRoots(g, s, job);
      && !r.raised && (forall x :: SameStatus(s.Get(x), r.state.Get(x)))
      && forall t :: t in r.state.executable <==> t in s.executable || (t in job && IsRoot(g, s, t))
    decreases |job|
  {
    if job != [] {
      var t, rest := job[0], job[1..];
      assert t !in rest;
      if IsRoot(g, s, t) {
        RootStarts(g, s, t);
        var m := MarkExecutable(g, s, t).state;
        RootsMarked(g, m, rest);
        forall x ensures IsRoot(g, m, x) <==> IsRoot(g, s, x) {
          SameRoots(g, s, m, x);
        }
      } else {
        RootsMarked(g, s, rest);
      }
    }
  }

  /** A submission fails no assertion; of the job exactly the tasks that wait for nothing become executable. */
  lemma SubmissionStartsRoots(g: Graph, s: State, job: seq<TaskId>)
    requires WellFormed(g) && Invariant(g, s) && Submittable(g, s, job)
    ensures var r := Submit(g, s, job);
      && !MarkRoots(g, s.(known := s.known + set t | t in job), job).raised
      && r.known == s.known + (set t | t in job) && (forall x :: SameStatus(s.Get(x), r.Get(x)))
      && forall t :: t in r.executable <==> t in s.executable || (t in job && IsRoot(g, s, t))
  {
    var m := s.(known := s.known + set t | t in job);
    assert forall x :: m.Get(x) == s.Get(x);
    RootsMarked(g, m, job);
    SubmittedInvariant(g, s, job);
    MarkRootsSafe(g, m, job);
    forall t ensures IsRoot(g, m, t) <==> IsRoot(g, s, t) {
      SameRoots(g, s, m, t);
    }
  }

  function Occupied(s: State, t: TaskId, e: Executor): State {
    var s1 := s.(executable := s.executable - {t}).Touch(Some(e));
    s1.(executing := s1.executing[Some(e) := s1.Executing(Some(e)) + {t}])
  }

  lemma StartEffect(g: Graph, s: State, t: TaskId, e: Executor)
    ensures var r := Start(g, s, t, e);
      var m := Occupied(s, t, e);
      && (forall x :: m.Get(x) == s.Get(x))
      && m.known == s.known && m.released == s.released && m.done == s.done && m.forbidden == s.forbidden
      && m.executors == s.executors && m.executable == s.executable - {t}
      && r == if s.Get(t).cancelled then MarkFailed(g, m, t, GeneralFailure)
              else m.Put(t, s.Get(t).(started := true, stopped := false, exception := None,
                                      executedOn := s.Get(t).executedOn + [e], resultOn := s.Get(t).resultOn + [e]))
  {
  }

  lemma StartSafe(g: Graph, s: State, t: TaskId, e: Executor)
    requires Invariant(g, s) && s.done == [] && t in s.executable
    ensures Invariant(g, Start(g, s, t, e))
  {
    StartEffect(g, s, t, e);
    var m := Occupied(s, t, e);
    var r := Start(g, s, t, e);
    if s.Get(t).cancelled {
      OccupiedSafe(g, s, m, t);
      MarkFailedEffect(g, m, t, GeneralFailure);
      OnlyFailedSafe(g, m, r, {});
    } else {
      Changed(g, s, r, t);
    }
  }

  lemma StartKeeps(g: Graph, s: State, t: TaskId, e: Executor)
    ensures var r := Start(g, s, t, e);
      && (forall x :: x != t ==> r.Get(x) == s.Get(x))
      && (r.Get(t).executedOn == s.Get(t).executedOn || r.Get(t).executedOn == s.Get(t).executedOn + [e])
      && r.known == s.known && r.released == s.released && r.forbidden == s.forbidden && r.executors == s.executors
  {
    StartEffect(g, s, t, e);
    var m := Occupied(s, t, e);
    MarkFailedEffect(g, m, t, GeneralFailure);
    assert SameOrFailed(m.Get(t), MarkFailed(g, m, t, GeneralFailure).Get(t));
  }

  lemma OccupiedSafe(g: Graph, s: State, r: State, t: TaskId)
    requires Invariant(g, s) && (forall x :: r.Get(x) == s.Get(x)) && r.known == s.known && r.done == s.done
    requires r.executable == s.executable - {t}
    ensures Invariant(g, r)
  {
    forall u, d | u in r.executable && d in g.dependencies(u) ensures Vouched(r, u, d, {}) {
      assert Vouched(s, u, d, {});
    }
  }

  lemma {:induction false} FailGenerallySafe(g: Graph, s: State, ts: seq<TaskId>)
    requires Invariant(g, s)
    ensures Invariant(g, FailGenerally(g, s, ts)) && Keeps(s, FailGenerally(g, s, ts))
    decreases |ts|
  {
    if ts != [] {
      var m := MarkFailed(g, s, ts[0], GeneralFailure);
      MarkFailedEffect(g, s, ts[0], GeneralFailure);
      OnlyFailedSafe(g, s, m, {});
      OnlyFailedKeeps(s, m);
      FailGenerallySafe(g, m, ts[1..]);
      KeepsTransitive(s, m, FailGenerally(g, s, ts));
    }
  }

  lemma DrainSafe(g: Graph, s: State)
    requires WellFormed(g) && Invariant(g, s) && s.done != []
    ensures var r := TaskDone(g, s.(done := s.done[1..]), s.done[0]).state;
      Invariant(g, r) && Keeps(s.(done := s.done[1..]), r)
  {
    PoppedSafe(g, s);
    TaskDoneSafe(g, s.(done := s.done[1..]), s.done[0], {});
  }

  lemma PoppedSafe(g: Graph, s: State)
    requires Invariant(g, s) && s.done != []
    ensures var s1 := s.(done := s.done[1..]);
      Closed(g, s1) && Safe(g, s1, {} + {s.done[0]}) && s1.Get(s.done[0]).stopped
  {
    var t := s.done[0];
    var s1 := s.(done := s.done[1..]);
    forall x ensures s1.Get(x) == s.Get(x) {}
    assert s.done == [t] + s1.done;
    forall u, d | u in s1.executable && d in g.dependencies(u) ensures Vouched(s1, u, d, {t}) {
      assert Vouched(s, u, d, {});
    }
    assert {} + {t} == {t};
  }

  lemma CallbackSafe(g: Graph, s: State, t: TaskId, task: Task)
    requires Invariant(g, s) && s.Get(t).started
    requires task.blocked == s.Get(t).blocked && task.executedOn == s.Get(t).executedOn
    requires task.started && task.stopped == s.Get(t).stopped
    requires (task.exception == s.Get(t).exception && task.cancelled == s.Get(t).cancelled) || task.exception.Some?
      || task.cancelled
    ensures var r := SignalStop(g, s.Put(t, task), t);
      Invariant(g, r) && Quiet(s, r)
  {
    SignalStopSafe(g, s, t, task, {});
    SignalStopEffect(g, s, t, task);
    var r := SignalStop(g, s.Put(t, task), t);
    forall x ensures (r.Get(x).Running() ==> s.Get(x).Running()) && r.Get(x).executedOn == s.Get(x).executedOn {
      assert x != t ==> SameOrFailed(s.Get(x), r.Get(x));
    }
  }

  lemma SameTaskRecords(g: Graph, s: State, r: State)
    requires Invariant(g, s) && r.tasks == s.tasks && r.known == s.known && r.executable == s.executable
      && r.done == s.done
    ensures Invariant(g, r) && Quiet(s, r)
  {
    forall x ensures r.Get(x) == s.Get(x) {}
    forall u, d | u in r.executable && d in g.dependencies(u) ensures Vouched(r, u, d, {}) {
      assert Vouched(s, u, d, {});
    }
  }

  lemma ChooseSafe(g: Graph, s: State, choice: Option<TaskId>)
    requires Invariant(g, s) && Enabled(g, s, Choose(choice))
    ensures var r := Pick(g, s, choice);
      && Invariant(g, r)
      && (forall x: TaskId :: r.Get(x) == s.Get(x) || choice == Some(x))
  {
    var s1 := s.(ready := s.ready[1..]);
    SameTaskRecords(g, s, s1);
    forall x ensures s1.Get(x) == s.Get(x) {}
    if s.ready[0] in s.executors && s.executors[s.ready[0]] {
      if choice.Some? {
        StartSafe(g, s1, choice.value, s.ready[0]);
        StartKeeps(g, s1, choice.value, s.ready[0]);
      } else {
        SameTaskRecords(g, s, Pick(g, s, choice));
      }
    }
  }

  lemma CallbackInvariant(g: Graph, s: State, ev: Event)
    requires WellFormed(g) && Invariant(g, s) && Enabled(g, s, ev)
    requires ev.Finish? || ev.Fail? || ev.FinishCancelled?
    ensures Invariant(g, Step(g, s, ev)) && Quiet(s, Step(g, s, ev))
  {
    var t := ev.task;
    match ev
    case Finish(_, location) => CallbackSafe(g, s, t, s.Get(t).At(location));
    case Fail(_, failure) => CallbackSafe(g, s, t, s.Get(t).(exception := Some(failure)));
    case FinishCancelled(_) => CallbackSafe(g, s, t, s.Get(t).(exception := None, cancelled := true));
  }

  lemma DrainInvariant(g: Graph, s: State)
    requires WellFormed(g) && Invariant(g, s) && Enabled(g, s, Drain)
    ensures Invariant(g, Step(g, s, Drain)) && Quiet(s, Step(g, s, Drain))
  {
    var s1 := s.(done := s.done[1..]);
    var m := TaskDone(g, s1, s.done[0]).state;
    DrainSafe(g, s);
    KeepsQuiet(s1, m);
    forall x ensures s1.Get(x) == s.Get(x) {}
    SameTaskRecords(g, m, Step(g, s, Drain));
  }

  /** Each single event keeps the invariant, and only the choice of a task can start one. */
  lemma StepInvariant(g: Graph, s: State, ev: Event)
    requires WellFormed(g) && Invariant(g, s) && Enabled(g, s, ev)
    ensures Invariant(g, Step(g, s, ev))
    ensures !ev.Choose? ==> Quiet(s, Step(g, s, ev))
  {
    var r := Step(g, s, ev);
    match ev
    case Submission(job) => SubmitInvariant(g, s, job);
    case Cancellation(job) =>
      CancellationInvariant(g, s, job);
      CancelTasksSafe(g, s, job);
    case CancelRequest(t) => CancelSafe(g, s, t);
    case Finish(_, _) => CallbackInvariant(g, s, ev);
    case Fail(_, _) => CallbackInvariant(g, s, ev);
    case FinishCancelled(_) => CallbackInvariant(g, s, ev);
    case Drain =>
      DrainInvariant(g, s);
    case NoExecutors(order) =>
      FailGenerallySafe(g, s, order);
      KeepsQuiet(s, r);
    case Choose(choice) => ChooseSafe(g, s, choice);
    case _ => SameTaskRecords(g, s, r);
  }

  lemma {:induction false} RunInvariant(g: Graph, s: State, evs: seq<Event>)
    requires WellFormed(g) && IsRun(g, s, evs) && Invariant(g, s)
    ensures Invariant(g, Run(g, s, evs))
    decreases |evs|
  {
    if evs != [] {
      StepInvariant(g, s, evs[0]);
      RunInvariant(g, Step(g, s, evs[0]), evs[1..]);
    }
  }

  lemma InitialInvariant(g: Graph, s: State)
    requires Initial(s)
    ensures Invariant(g, s)
  {
  }

  /**
   In every reachable state an executable task is not running, and each of its dependencies has
   succeeded and does not block it, or is about to be handled.
   */
  lemma ExecutableTasksAreReady(g: Graph, s0: State, evs: seq<Event>)
    requires WellFormed(g) && Initial(s0) && IsRun(g, s0, evs)
    ensures var s := Run(g, s0, evs);
      forall t :: t in s.executable ==>
        && !s.Get(t).Running()
        && forall d :: d in g.dependencies(t) ==>
             (s.Get(d).Succeeded() && d !in s.Get(t).blocked) || d in s.done
  {
    InitialInvariant(g, s0);
    RunInvariant(g, s0, evs);
    var s := Run(g, s0, evs);
    forall t, d | t in s.executable && d in g.dependencies(t)
      ensures (s.Get(d).Succeeded() && d !in s.Get(t).blocked) || d in s.done
    {
      assert Vouched(s, t, d, {});
    }
  }

  /** A task that starts running, in any run, was not running and has only succeeded dependencies. */
  lemma StartedTasksAreReady(g: Graph, s0: State, evs: seq<Event>, ev: Event, t: TaskId)
    requires WellFormed(g) && Initial(s0) && IsRun(g, s0, evs)
    requires Enabled(g, Run(g, s0, evs), ev)
    requires !Run(g, s0, evs).Get(t).Running() && Step(g, Run(g, s0, evs), ev).Get(t).Running()
    ensures DependenciesSucceeded(g, Run(g, s0, evs), t)
    ensures forall d :: d in g.dependencies(t) ==> d !in Run(g, s0, evs).Get(t).blocked
    ensures ev == Choose(Some(t)) && Run(g, s0, evs).done == []
  {
    var s := Run(g, s0, evs);
    InitialInvariant(g, s0);
    RunInvariant(g, s0, evs);
    StepInvariant(g, s, ev);
    ChooseSafeIf(g, s, ev, t);
    forall d | d in g.dependencies(t) ensures s.Get(d).Succeeded() && d !in s.Get(t).blocked {
      assert Vouched(s, t, d, {});
    }
  }

  lemma ChooseSafeIf(g: Graph, s: State, ev: Event, t: TaskId)
    requires WellFormed(g) && Invariant(g, s) && Enabled(g, s, ev)
    requires !s.Get(t).Running() && Step(g, s, ev).Get(t).Running()
    ensures ev == Choose(Some(t)) && s.done == [] && t in s.executable
  {
    StepInvariant(g, s, ev);
    if ev.Choose? {
      ChooseSafe(g, s, ev.choice);
    }
  }
}

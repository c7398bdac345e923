/**
 Executor accounting: an executor is either ready or occupied by a single task, the assertion in
 `_task_done` never stops the scheduler loop, and retries of a task move on to other executors.
 */
module SchedulerSlots {
  import opened Sequences
  import opened SchedulerModel
  import opened SchedulerSafety
  import opened SchedulerReadiness

  ghost predicate Slots(s: State) {
    && NoDuplicates(s.ready)
    && (forall e :: e in s.ready ==> s.Executing(Some(e)) == {})
    && (forall e, x, y :: x in s.Executing(e) && y in s.Executing(e) ==> x == y)
    && s.Executing(None) == {}
  }

  /** Slots only empty, and an executor becomes ready only when it had a task. */
  ghost predicate Frees(s: State, r: State) {
    && (forall e :: r.Executing(e) <= s.Executing(e))
    && (forall e :: e in r.ready ==> e in s.ready || s.Executing(Some(e)) != {})
  }

  ghost predicate SameSlots(s: State, r: State) { r.ready == s.ready && r.executing == s.executing }

  lemma FreesTransitive(s: State, m: State, r: State)
    requires Frees(s, m) && Frees(m, r)
    ensures Frees(s, r)
  {
    forall e ensures r.Executing(e) <= s.Executing(e) {
      assert m.Executing(e) <= s.Executing(e);
    }
    forall e | e in r.ready ensures e in s.ready || s.Executing(Some(e)) != {} {
      assert m.Executing(Some(e)) <= s.Executing(Some(e));
    }
  }

  lemma SameSlotsSlots(s: State, r: State)
    requires SameSlots(s, r)
    ensures Slots(s) ==> Slots(r)
    ensures Frees(s, r)
  {
    forall e ensures r.Executing(e) == s.Executing(e) {}
  }

  // ---- handlers that leave the slots alone ---------------------------------------------------

  lemma MarkExecutableSlots(g: Graph, s: State, t: TaskId)
    ensures SameSlots(s, MarkExecutable(g, s, t).state)
  {
    var s1 := if s.Get(t).Succeeded() then s else Forbid(s.(executable := s.executable + {t}), t);
    BlockDependentsEffect(g, s1, t, 0);
  }

  lemma {:induction false} DependenciesLostSlots(g: Graph, s: State, t: TaskId, lost: seq<Lost>)
    ensures SameSlots(s, DependenciesLost(g, s, t, lost).state)
    decreases |lost|
  {
    MarkExecutableSlots(g, s, t);
    if lost != [] {
      MarkFailedEffect(g, s, t, GeneralFailure);
      MarkFailedEffect(g, s, lost[0].task, FailedDependency);
      DependenciesLostSlots(g, MarkFailed(g, s, lost[0].task, FailedDependency), t, lost[1..]);
      DependenciesLostSlots(g, s, t, lost[1..]);
    }
  }

  lemma {:induction false} DropFirstKeepsOrder(es: seq<Executor>, e: Executor)
    requires NoDuplicates(es)
    ensures var r := DropFirst(es, e);
      && (forall x :: x in r <==> x in es && x != e)
      && NoDuplicates(r)
  {
    if es != [] && es[0] != e {
      DropFirstKeepsOrder(es[1..], e);
      assert es[0] !in es[1..];
    } else if es != [] {
      assert es[0] !in es[1..];
      assert es == [es[0]] + es[1..];
    }
  }

  lemma DropReadySlots(s: State, e: Option<Executor>)
    requires Slots(s)
    ensures Slots(DropReady(s, e)) && Frees(s, DropReady(s, e))
  {
    if e.Some? {
      DropFirstKeepsOrder(s.ready, e.value);
    }
    forall x ensures DropReady(s, e).Executing(x) == s.Executing(x) {}
  }

  lemma GeneralFailureSlots(g: Graph, s: State, t: TaskId)
    ensures var e := s.Get(t).LastExecutedOn();
      SameSlots(s, TransientFailure(g, s.(forbidden := s.forbidden[e := s.Forbidden(e) + {t}]), t).state)
  {
    var e := s.Get(t).LastExecutedOn();
    MarkExecutableSlots(g, s.(forbidden := s.forbidden[e := s.Forbidden(e) + {t}]), t);
  }

  lemma NotConnectedSlots(g: Graph, s: State, t: TaskId)
    requires Slots(s)
    ensures var r := DropReady(TransientFailure(g, s, t).state, s.Get(t).LastExecutedOn());
      Slots(r) && Frees(s, r)
  {
    var m := TransientFailure(g, s, t).state;
    MarkExecutableSlots(g, s, t);
    SameSlotsSlots(s, m);
    DropReadySlots(m, s.Get(t).LastExecutedOn());
    FreesTransitive(s, m, DropReady(m, s.Get(t).LastExecutedOn()));
  }

  lemma TaskFailedSameSlots(g: Graph, s: State, t: TaskId)
    requires WellFormed(g) && s.Get(t).Failed() && !s.Get(t).exception.value.NotConnected?
    ensures SameSlots(s, TaskFailed(g, s, t).state)
  {
    var m := MarkAllBlocked(g, s, t, 0);
    MarkAllBlockedOnlyBlocks(g, s, t, 0);
    match s.Get(t).exception.value
    case DependenciesFailed(lost) => DependenciesLostSlots(g, m, t, lost);
    case FailedDependency => MarkExecutableSlots(g, m, t);
    case GeneralFailure => GeneralFailureSlots(g, m, t);
  }

  lemma TaskFailedSlots(g: Graph, s: State, t: TaskId)
    requires WellFormed(g) && s.Get(t).Failed() && Slots(s)
    ensures Slots(TaskFailed(g, s, t).state) && Frees(s, TaskFailed(g, s, t).state)
  {
    var r := TaskFailed(g, s, t).state;
    if s.Get(t).exception.value.NotConnected? {
      var m := MarkAllBlocked(g, s, t, 0);
      MarkAllBlockedOnlyBlocks(g, s, t, 0);
      SameSlotsSlots(s, m);
      NotConnectedSlots(g, m, t);
      MarkExecutableSlots(g, m, t);
      FreesTransitive(s, m, r);
    } else {
      TaskFailedSameSlots(g, s, t);
      SameSlotsSlots(s, r);
    }
  }

  lemma FreeSlotSlots(s: State, t: TaskId, e: Option<Executor>)
    requires Slots(s)
    ensures !FreeSlot(s, t, e).raised && Slots(FreeSlot(s, t, e).state) && Frees(s, FreeSlot(s, t, e).state)
  {
    var r := FreeSlot(s, t, e).state;
    if t in s.Executing(e) {
      assert e.Some?;
      assert s.Executing(e) == {t};
      forall x ensures r.Executing(x) == if x == e then {} else s.Executing(x) {}
    }
  }

  lemma {:induction false} TaskDoneSlots(g: Graph, s: State, t: TaskId)
    requires WellFormed(g) && Slots(s)
    ensures !TaskDone(g, s, t).raised && Slots(TaskDone(g, s, t).state) && Frees(s, TaskDone(g, s, t).state)
    decreases g.height(t), 2
  {
    if t in s.known {
      var e := s.Get(t).LastExecutedOn();
      var s0 := s.Touch(e);
      TouchSlots(s, e);
      var handled := if s0.Get(t).Succeeded() then TaskSucceeded(g, s0, t, 0)
                     else if s0.Get(t).Failed() then TaskFailed(g, s0, t) else Outcome(s0, false);
      if s0.Get(t).Succeeded() {
        TaskSucceededSlots(g, s0, t, 0);
      } else if s0.Get(t).Failed() {
        TaskFailedSlots(g, s0, t);
      }
      FreesTransitive(s, s0, handled.state);
      var s1 := if handled.raised then MarkFailed(g, handled.state, t, GeneralFailure) else handled.state;
      MarkFailedEffect(g, handled.state, t, GeneralFailure);
      SameSlotsSlots(handled.state, s1);
      FreesTransitive(s, handled.state, s1);
      FreeSlotSlots(s1, t, e);
      FreesTransitive(s, s1, FreeSlot(s1, t, e).state);
    }
  }

  lemma TouchSlots(s: State, e: Option<Executor>)
    requires Slots(s)
    ensures Slots(s.Touch(e)) && Frees(s, s.Touch(e))
  {
    forall x ensures s.Touch(e).Executing(x) == s.Executing(x) {}
  }

  lemma {:induction false} UnblockSlots(g: Graph, s: State, t: TaskId, u: TaskId)
    requires WellFormed(g) && u in g.dependents(t) && Slots(s)
    ensures Slots(Unblock(g, s, t, u).state) && Frees(s, Unblock(g, s, t, u).state)
    decreases g.height(t), 1, 0
  {
    var task := s.Get(u);
    var s1 := s.Put(u, task.(blocked := task.blocked - {t}));
    var r := Unblock(g, s, t, u).state;
    SameSlotsSlots(s, s1);
    if task.blocked != {} && task.blocked - {t} == {} {
      if task.Succeeded() {
        TaskDoneSlots(g, s1, u);
        FreesTransitive(s, s1, r);
      } else {
        MarkExecutableSlots(g, s1, u);
        SameSlotsSlots(s, r);
      }
    } else {
      SameSlotsSlots(s, r);
    }
  }

  lemma {:induction false} TaskSucceededSlots(g: Graph, s: State, t: TaskId, i: nat)
    requires WellFormed(g) && i <= |g.dependents(t)| && Slots(s)
    ensures Slots(TaskSucceeded(g, s, t, i).state) && Frees(s, TaskSucceeded(g, s, t, i).state)
    decreases g.height(t), 1, |g.dependents(t)| - i + 1
  {
    var r := TaskSucceeded(g, s, t, i).state;
    if i == |g.dependents(t)| {
      SameSlotsSlots(s, r);
    } else {
      var u := g.dependents(t)[i];
      assert u in g.dependents(t);
      var m := Unblock(g, s, t, u);
      UnblockSlots(g, s, t, u);
      if !m.raised {
        TaskSucceededSlots(g, m.state, t, i + 1);
        FreesTransitive(s, m.state, r);
      }
    }
  }

  // ---- events --------------------------------------------------------------------------------

  lemma {:induction false} FreeSlotsSlots(s: State, t: TaskId, es: seq<Option<Executor>>)
    requires Slots(s)
    ensures Slots(FreeSlots(s, t, es)) && Frees(s, FreeSlots(s, t, es))
    decreases |es|
  {
    if es != [] {
      if t !in s.Executing(es[0]) {
        FreeSlotsSlots(s, t, es[1..]);
      } else {
        var left := s.Executing(es[0]) - {t};
        assert es[0].Some? && left == {};
        var m := s.(executing := s.executing[es[0] := left], ready := s.ready + [es[0].value]);
        forall x ensures m.Executing(x) == if x == es[0] then {} else s.Executing(x) {}
        FreeSlotsSlots(m, t, es[1..]);
        FreesTransitive(s, m, FreeSlots(s, t, es));
      }
    }
  }

  lemma SignalStopSlots(g: Graph, s: State, t: TaskId, task: Task)
    ensures SameSlots(s, SignalStop(g, s.Put(t, task), t))
  {
    FailAllOnlyFails(s.Put(t, task), g.dependencies(t));
  }

  lemma {:induction false} CancelTasksSlots(g: Graph, s: State, job: seq<TaskId>)
    requires Slots(s)
    ensures Slots(CancelTasks(g, s, job)) && Frees(s, CancelTasks(g, s, job))
    decreases |job|
  {
    if job == [] {
      SameSlotsSlots(s, s);
    } else {
      var t := job[0];
      var s1 := Cancel(g, s, t);
      SignalStopSlots(g, s, t, s.Get(t).(cancelled := true));
      var s2 := s1.Put(t, s1.Get(t).(blocked := {}));
      SameSlotsSlots(s, s2);
      var r := CancelTask(g, s, t);
      if t in s2.known {
        var s3 := Forget(s2, t);
        SameSlotsSlots(s, s3);
        FreeSlotsSlots(s3, t, s3.slots);
        FreesTransitive(s, s3, r);
      }
      CancelTasksSlots(g, r, job[1..]);
      FreesTransitive(s, r, CancelTasks(g, s, job));
    }
  }

  lemma {:induction false} MarkRootsSlots(g: Graph, s: State, job: seq<TaskId>)
    ensures SameSlots(s, MarkRoots(g, s, job).state)
    decreases |job|
  {
    if job != [] {
      var r := if !s.Get(job[0]).Succeeded() && DependenciesSucceeded(g, s, job[0])
               then MarkExecutable(g, s, job[0]) else Outcome(s, false);
      MarkExecutableSlots(g, s, job[0]);
      MarkRootsSlots(g, r.state, job[1..]);
    }
  }

  lemma {:induction false} FailGenerallySlots(g: Graph, s: State, ts: seq<TaskId>)
    ensures SameSlots(s, FailGenerally(g, s, ts))
    decreases |ts|
  {
    if ts != [] {
      MarkFailedEffect(g, s, ts[0], GeneralFailure);
      FailGenerallySlots(g, MarkFailed(g, s, ts[0], GeneralFailure), ts[1..]);
    }
  }

  /** Only names that were added before occur in the queues. */
  ghost predicate Named(s: State, names: set<Executor>) {
    && (forall e :: e in s.executors ==> e in names)
    && (forall e :: e in s.ready ==> e in names)
    && (forall e :: s.Executing(Some(e)) != {} ==> e in names)
  }

  lemma FreesNamed(s: State, r: State, names: set<Executor>)
    requires Named(s, names) && Frees(s, r) && r.executors == s.executors
    ensures Named(r, names)
  {
    forall e | r.Executing(Some(e)) != {} ensures e in names {
      assert r.Executing(Some(e)) <= s.Executing(Some(e));
    }
  }

  /** Joining keeps the accounting intact exactly when the name is registered or out of use. */
  lemma AddExecutorSlots(g: Graph, s: State, e: Executor, connected: bool)
    requires WellFormed(g) && Slots(s)
    ensures Slots(Step(g, s, AddExecutor(e, connected))) <==>
            e in s.executors || (e !in s.ready && s.Executing(Some(e)) == {})
  {
    var r := Step(g, s, AddExecutor(e, connected));
    forall x ensures r.Executing(x) == s.Executing(x) {}
    if e !in s.executors {
      assert r.ready == s.ready + [e];
      if e in s.ready {
        var i :| 0 <= i < |s.ready| && s.ready[i] == e;
        assert r.ready[i] == r.ready[|s.ready|];
      }
      assert e in r.ready;
    }
  }

  lemma OccupiedSlots(s: State, t: TaskId, e: Executor)
    requires Slots(s) && e !in s.ready && s.Executing(Some(e)) == {}
    ensures var m := Occupied(s, t, e);
      && Slots(m) && m.ready == s.ready && m.executors == s.executors && m.crashed == s.crashed
      && forall x :: m.Executing(x) == if x == Some(e) then {t} else s.Executing(x)
  {
    OccupiedExecuting(s, t, e);
    var m := Occupied(s, t, e);
    forall x, a, b | a in m.Executing(x) && b in m.Executing(x) ensures a == b {}
  }

  lemma OccupiedExecuting(s: State, t: TaskId, e: Executor)
    requires s.Executing(Some(e)) == {}
    ensures var m := Occupied(s, t, e);
      && m.ready == s.ready && m.executors == s.executors && m.crashed == s.crashed
      && forall x :: m.Executing(x) == if x == Some(e) then {t} else s.Executing(x)
  {
    var m := s.(executable := s.executable - {t}).Touch(Some(e));
    assert m.Executing(Some(e)) == {};
    var occupied := m.Executing(Some(e)) + {t};
    assert occupied == {t};
    assert Occupied(s, t, e).executing == m.executing[Some(e) := occupied];
    forall x ensures Occupied(s, t, e).Executing(x) == if x == Some(e) then {t} else s.Executing(x) {}
  }

  lemma StartSameSlots(g: Graph, s: State, t: TaskId, e: Executor)
    ensures var m := Occupied(s, t, e);
      var r := Start(g, s, t, e);
      SameSlots(m, r) && r.executors == m.executors && r.crashed == m.crashed
  {
    StartEffect(g, s, t, e);
    MarkFailedEffect(g, Occupied(s, t, e), t, GeneralFailure);
  }

  lemma StartAccounted(g: Graph, s: State, t: TaskId, e: Executor, names: set<Executor>)
    requires Accounted(s, names) && e !in s.ready && s.Executing(Some(e)) == {} && e in names
    ensures Accounted(Start(g, s, t, e), names)
  {
    var m := Occupied(s, t, e);
    OccupiedSlots(s, t, e);
    assert Accounted(m, names);
    StartSameSlots(g, s, t, e);
    SameSlotsSlots(m, Start(g, s, t, e));
    FreesNamed(m, Start(g, s, t, e), names);
  }

  lemma PickAccounted(g: Graph, s: State, choice: Option<TaskId>, names: set<Executor>)
    requires Accounted(s, names) && s.ready != []
    ensures Accounted(Pick(g, s, choice), names)
  {
    var e := s.ready[0];
    var s1 := s.(ready := s.ready[1..]);
    forall x ensures s1.Executing(x) == s.Executing(x) {}
    assert e !in s1.ready;
    assert Accounted(s1, names);
    if e in s.executors && s.executors[e] {
      if choice.Some? {
        StartAccounted(g, s1, choice.value, e, names);
      } else {
        var r := Pick(g, s, choice);
        forall x ensures r.Executing(x) == s.Executing(x) {}
      }
    }
  }

  ghost predicate Accounted(s: State, names: set<Executor>) { Slots(s) && Named(s, names) && !s.crashed }

  function NamesAfter(names: set<Executor>, ev: Event): set<Executor> {
    if ev.AddExecutor? then names + {ev.executor} else names
  }

  /** An executor may come back only while its earlier registration is still there. */
  ghost predicate NoReuse(g: Graph, s: State, evs: seq<Event>, names: set<Executor>)
    requires WellFormed(g) && IsRun(g, s, evs)
    decreases |evs|
  {
    evs != [] ==>
      && (evs[0].AddExecutor? ==> evs[0].executor in s.executors || evs[0].executor !in names)
      && NoReuse(g, Step(g, s, evs[0]), evs[1..], NamesAfter(names, evs[0]))
  }

  lemma StepAccounted(g: Graph, s: State, ev: Event, names: set<Executor>)
    requires WellFormed(g) && Invariant(g, s) && Enabled(g, s, ev) && Accounted(s, names)
    requires ev.AddExecutor? ==> ev.executor in s.executors || ev.executor !in names
    ensures Accounted(Step(g, s, ev), NamesAfter(names, ev))
  {
    var r := Step(g, s, ev);
    match ev
    case Submission(job) => SubmitAccounted(g, s, job, names);
    case Cancellation(job) =>
      CancelTasksSlots(g, s, job);
      CancelTasksKeepsExecutors(g, s, job);
      FreesNamed(s, r, names);
    case CancelRequest(t) =>
      SignalStopSlots(g, s, t, s.Get(t).(cancelled := true));
      StopAccounted(g, s, t, s.Get(t).(cancelled := true), names);
    case Finish(t, location) => StopAccounted(g, s, t, s.Get(t).At(location), names);
    case Fail(t, failure) => StopAccounted(g, s, t, s.Get(t).(exception := Some(failure)), names);
    case FinishCancelled(t) => StopAccounted(g, s, t, s.Get(t).(exception := None, cancelled := true), names);
    case AddExecutor(e, connected) =>
      AddExecutorSlots(g, s, e, connected);
      forall x ensures r.Executing(x) == s.Executing(x) {}
    case RemoveExecutor(e) =>
      DropFirstKeepsOrder(s.ready, e);
      forall x ensures r.Executing(x) == s.Executing(x) {}
    case SetConnected(e, connected) => SameSlotsSlots(s, r); forall x ensures r.Executing(x) == s.Executing(x) {}
    case SetAvoided(t, es) => SameSlotsSlots(s, r); FreesNamed(s, r, names);
    case Drain =>
      var s1 := s.(done := s.done[1..]);
      SameSlotsSlots(s, s1);
      var m := TaskDone(g, s1, s.done[0]).state;
      TaskDoneSlots(g, s1, s.done[0]);
      FreesTransitive(s, s1, m);
      DrainSafe(g, s);
      SameSlotsSlots(m, r);
      FreesTransitive(s, m, r);
      FreesNamed(s, r, names);
    case NoExecutors(order) =>
      FailGenerallySlots(g, s, order);
      SameSlotsSlots(s, r);
      FailGenerallySafe(g, s, order);
      FreesNamed(s, r, names);
    case Choose(choice) => PickAccounted(g, s, choice, names);
  }

  lemma StopAccounted(g: Graph, s: State, t: TaskId, task: Task, names: set<Executor>)
    requires Accounted(s, names)
    ensures Accounted(SignalStop(g, s.Put(t, task), t), names)
  {
    var r := SignalStop(g, s.Put(t, task), t);
    SignalStopSlots(g, s, t, task);
    SameSlotsSlots(s, r);
    FailAllOnlyFails(s.Put(t, task), g.dependencies(t));
    FreesNamed(s, r, names);
  }

  lemma CancelTaskKeepsExecutors(g: Graph, s: State, t: TaskId)
    ensures CancelTask(g, s, t).executors == s.executors && CancelTask(g, s, t).crashed == s.crashed
  {
    CancelKeepsExecutors(g, s, t);
    var s1 := Cancel(g, s, t);
    var s2 := s1.Put(t, s1.Get(t).(blocked := {}));
    if t in s2.known {
      var s3 := Forget(s2, t);
      FreeSlotsSameTasks(s3, t, s3.slots);
    }
  }

  lemma CancelKeepsExecutors(g: Graph, s: State, t: TaskId)
    ensures Cancel(g, s, t).executors == s.executors && Cancel(g, s, t).crashed == s.crashed
  {
    SignalStopEffect(g, s, t, s.Get(t).(cancelled := true));
  }

  lemma {:induction false} CancelTasksKeepsExecutors(g: Graph, s: State, job: seq<TaskId>)
    ensures CancelTasks(g, s, job).executors == s.executors && CancelTasks(g, s, job).crashed == s.crashed
    decreases |job|
  {
    if job != [] {
      CancelTaskKeepsExecutors(g, s, job[0]);
      CancelTasksKeepsExecutors(g, CancelTask(g, s, job[0]), job[1..]);
    }
  }

  lemma SubmitAccounted(g: Graph, s: State, job: seq<TaskId>, names: set<Executor>)
    requires Invariant(g, s) && WellFormed(g) && Submittable(g, s, job) && Accounted(s, names)
    ensures Accounted(Submit(g, s, job), names)
  {
    var s1 := s.(known := s.known + set t | t in job);
    var m := MarkRoots(g, s1, job);
    MarkRootsSlots(g, s1, job);
    SameSlotsSlots(s, m.state);
    forall x ensures s1.Get(x) == s.Get(x) {}
    forall u, d | u in s1.executable && d in g.dependencies(u) ensures Vouched(s1, u, d, {}) {
      assert Vouched(s, u, d, {});
    }
    MarkRootsSafe(g, s1, job);
    FreesNamed(s, m.state, names);
    if m.raised {
      CancelTasksSlots(g, m.state, job);
      CancelTasksKeepsExecutors(g, m.state, job);
      FreesNamed(m.state, Submit(g, s, job), names);
    }
  }

  // ---- exactly when --------------------------------------------------------------------------

  /** The names that are registered, ready or occupied. */
  function NamesInUse(s: State): (names: set<Executor>)
    ensures Named(s, names)
    ensures forall e :: e in names ==> e in s.executors || e in s.ready || s.Executing(Some(e)) != {}
  {
    s.executors.Keys + (set e | e in s.ready) + (set k | k in s.executing && k.Some? && s.executing[k] != {} :: k.value)
  }

  ghost predicate Intact(s: State) { Slots(s) && !s.crashed }

  /** An executor joins under a name that is registered, or neither ready nor occupied. */
  ghost predicate Joinable(s: State, ev: Event) {
    ev.AddExecutor? ==>
      ev.executor in s.executors || (ev.executor !in s.ready && s.Executing(Some(ev.executor)) == {})
  }

  /** An event keeps the accounting exactly when it is no join, or one under such a name. */
  lemma StepExactly(g: Graph, s: State, ev: Event)
    requires WellFormed(g) && Invariant(g, s) && Enabled(g, s, ev) && Intact(s)
    ensures Intact(Step(g, s, ev)) <==> Joinable(s, ev)
  {
    if ev.AddExecutor? {
      AddExecutorSlots(g, s, ev.executor, ev.connected);
    } else {
      StepAccounted(g, s, ev, NamesInUse(s));
    }
  }

  ghost predicate AlwaysIntact(g: Graph, s: State, evs: seq<Event>)
    requires WellFormed(g) && IsRun(g, s, evs)
    decreases |evs|
  {
    Intact(s) && (evs != [] ==> AlwaysIntact(g, Step(g, s, evs[0]), evs[1..]))
  }

  ghost predicate AlwaysJoinable(g: Graph, s: State, evs: seq<Event>)
    requires WellFormed(g) && IsRun(g, s, evs)
    decreases |evs|
  {
    evs != [] ==> Joinable(s, evs[0]) && AlwaysJoinable(g, Step(g, s, evs[0]), evs[1..])
  }

  /** A run keeps the accounting throughout exactly when every join in it is under such a name. */
  lemma {:induction false} RunExactly(g: Graph, s: State, evs: seq<Event>)
    requires WellFormed(g) && Invariant(g, s) && IsRun(g, s, evs) && Intact(s)
    ensures AlwaysIntact(g, s, evs) <==> AlwaysJoinable(g, s, evs)
    decreases |evs|
  {
    if evs != [] {
      StepInvariant(g, s, evs[0]);
      StepExactly(g, s, evs[0]);
      if Intact(Step(g, s, evs[0])) {
        RunExactly(g, Step(g, s, evs[0]), evs[1..]);
      } else {
        assert !AlwaysIntact(g, Step(g, s, evs[0]), evs[1..]);
      }
    }
  }

  lemma {:induction false} IntactAtEnd(g: Graph, s: State, evs: seq<Event>)
    requires WellFormed(g) && IsRun(g, s, evs) && AlwaysIntact(g, s, evs)
    ensures Intact(Run(g, s, evs))
    decreases |evs|
  {
    if evs != [] {
      IntactAtEnd(g, Step(g, s, evs[0]), evs[1..]);
    }
  }

  /**
   For every run: at all times the ready queue is free of duplicates and of occupied executors, an
   executor has at most one task and the loop has not stopped, if and only if every executor joins
   under a name that is registered, or neither ready nor occupied, at that moment.
   */
  lemma SlotAccounting(g: Graph, s0: State, evs: seq<Event>)
    requires WellFormed(g) && Initial(s0) && IsRun(g, s0, evs)
    ensures AlwaysIntact(g, s0, evs) <==> AlwaysJoinable(g, s0, evs)
    ensures var s := Run(g, s0, evs);
      AlwaysJoinable(g, s0, evs) ==>
        && !s.crashed
        && NoDuplicates(s.ready)
        && (forall e :: e in s.ready ==> s.Executing(Some(e)) == {})
        && (forall e, x, y :: x in s.Executing(e) && y in s.Executing(e) ==> x == y)
  {
    InitialInvariant(g, s0);
    RunExactly(g, s0, evs);
    if AlwaysJoinable(g, s0, evs) {
      IntactAtEnd(g, s0, evs);
    }
  }

  /** In particular when no executor name is used again after its removal. */
  lemma {:induction false} FreshNamesJoin(g: Graph, s: State, evs: seq<Event>, names: set<Executor>)
    requires WellFormed(g) && Invariant(g, s) && IsRun(g, s, evs)
    requires Accounted(s, names) && NoReuse(g, s, evs, names)
    ensures AlwaysJoinable(g, s, evs)
    decreases |evs|
  {
    if evs != [] {
      StepInvariant(g, s, evs[0]);
      StepAccounted(g, s, evs[0], names);
      FreshNamesJoin(g, Step(g, s, evs[0]), evs[1..], NamesAfter(names, evs[0]));
    }
  }
}

/**
 No executor is lost: an executor whose task is done becomes ready again, and in between a connected
 executor is always ready or occupied.
 */
module SchedulerStaffing {
  import opened Sequences
  import opened SchedulerModel
  import opened SchedulerSafety
  import opened SchedulerReadiness
  import opened SchedulerSlots

  predicate Connected(s: State, e: Executor) { e in s.executors && s.executors[e] }

  ghost predicate Staffed(s: State) {
    forall e :: Connected(s, e) ==> e in s.ready || s.Executing(Some(e)) != {}
  }

  /** Ready executors stay ready, and those that are freed become ready. */
  ghost predicate Returns(s: State, r: State) {
    && r.executors == s.executors && (forall e :: e in s.ready ==> e in r.ready)
    && forall e :: Connected(s, e) && s.Executing(Some(e)) != {} ==> e in r.ready || r.Executing(Some(e)) != {}
  }

  lemma ReturnsTransitive(s: State, m: State, r: State)
    requires Returns(s, m) && Returns(m, r)
    ensures Returns(s, r)
  {
  }

  lemma ReturnsStaffed(s: State, r: State)
    requires Returns(s, r) && Staffed(s)
    ensures Staffed(r)
  {
    forall e | Connected(r, e) ensures e in r.ready || r.Executing(Some(e)) != {} {
      assert Connected(s, e);
    }
  }

  lemma SameReturns(s: State, r: State)
    requires SameSlots(s, r) && r.executors == s.executors
    ensures Returns(s, r)
  {
    forall e ensures r.Executing(e) == s.Executing(e) {}
  }

  lemma FreeSlotReturns(s: State, t: TaskId, e: Option<Executor>)
    ensures Returns(s, FreeSlot(s, t, e).state)
  {
    var r := FreeSlot(s, t, e).state;
    forall x ensures r.Executing(x) == if x == e then s.Executing(e) - {t} else s.Executing(x) {}
  }

  // ---- the handlers --------------------------------------------------------------------------

  lemma MarkExecutableReturns(g: Graph, s: State, t: TaskId)
    ensures Returns(s, MarkExecutable(g, s, t).state)
  {
    MarkExecutableSlots(g, s, t);
    var m := if s.Get(t).Succeeded() then s else Forbid(s.(executable := s.executable + {t}), t);
    BlockDependentsStatus(g, m, t, 0);
    SameReturns(s, MarkExecutable(g, s, t).state);
  }

  lemma MarkFailedReturns(g: Graph, s: State, t: TaskId, failure: Failure)
    ensures Returns(s, MarkFailed(g, s, t, failure))
  {
    MarkFailedEffect(g, s, t, failure);
    SameReturns(s, MarkFailed(g, s, t, failure));
  }

  lemma SettleReturns(g: Graph, s: State, handled: Outcome, t: TaskId, e: Option<Executor>)
    requires Returns(s, handled.state)
    ensures Returns(s, Settle(g, handled, t, e).state)
  {
    MarkFailedReturns(g, handled.state, t, GeneralFailure);
    var m := if handled.raised then MarkFailed(g, handled.state, t, GeneralFailure) else handled.state;
    SameReturns(handled.state, handled.state);
    ReturnsTransitive(s, handled.state, m);
    FreeSlotReturns(m, t, e);
    ReturnsTransitive(s, m, FreeSlot(m, t, e).state);
  }

  lemma TouchReturns(s: State, e: Option<Executor>)
    ensures Returns(s, s.Touch(e))
  {
    forall x ensures s.Touch(e).Executing(x) == s.Executing(x) {}
  }

  lemma {:induction false} UnblockReturns(g: Graph, s: State, t: TaskId, u: TaskId)
    requires WellFormed(g) && u in g.dependents(t)
    ensures Returns(s, Unblock(g, s, t, u).state)
    decreases g.height(t), 1, 0
  {
    var task := s.Get(u);
    var m := s.Put(u, task.(blocked := task.blocked - {t}));
    SameReturns(s, s);
    SameReturns(s, m);
    if task.blocked != {} && task.blocked - {t} == {} {
      if task.Succeeded() {
        SuccessReturns(g, m, u);
      } else {
        MarkExecutableReturns(g, m, u);
      }
      ReturnsTransitive(s, m, Unblock(g, s, t, u).state);
    }
  }

  lemma {:induction false} TaskSucceededReturns(g: Graph, s: State, t: TaskId, i: nat)
    requires WellFormed(g) && i <= |g.dependents(t)|
    ensures Returns(s, TaskSucceeded(g, s, t, i).state)
    decreases g.height(t), 1, |g.dependents(t)| - i + 1
  {
    if i == |g.dependents(t)| {
      SameReturns(s, Emit(s, t));
    } else {
      var u := g.dependents(t)[i];
      assert u in g.dependents(t);
      var m := Unblock(g, s, t, u);
      UnblockReturns(g, s, t, u);
      if !m.raised {
        TaskSucceededReturns(g, m.state, t, i + 1);
        ReturnsTransitive(s, m.state, TaskSucceeded(g, s, t, i).state);
      }
    }
  }

  lemma {:induction false} SuccessReturns(g: Graph, s: State, t: TaskId)
    requires WellFormed(g) && s.Get(t).Succeeded()
    ensures Returns(s, TaskDone(g, s, t).state)
    decreases g.height(t), 2
  {
    SameReturns(s, s);
    if t in s.known {
      var e := s.Get(t).LastExecutedOn();
      var s0 := s.Touch(e);
      TouchReturns(s, e);
      assert s0.Get(t) == s.Get(t);
      TaskSucceededReturns(g, s0, t, 0);
      ReturnsTransitive(s, s0, TaskSucceeded(g, s0, t, 0).state);
      SettleReturns(g, s, TaskSucceeded(g, s0, t, 0), t, e);
    }
  }

  lemma {:induction false} DependenciesLostReturns(g: Graph, s: State, t: TaskId, lost: seq<Lost>)
    ensures Returns(s, DependenciesLost(g, s, t, lost).state)
    decreases |lost|
  {
    if lost == [] {
      MarkExecutableReturns(g, s, t);
      SameReturns(s, s);
    } else if lost[0].task !in s.known {
      MarkFailedReturns(g, s, t, GeneralFailure);
    } else if IsLost(s.Get(lost[0].task), lost[0]) {
      var m := MarkFailed(g, s, lost[0].task, FailedDependency);
      MarkFailedReturns(g, s, lost[0].task, FailedDependency);
      DependenciesLostReturns(g, m, t, lost[1..]);
      ReturnsTransitive(s, m, DependenciesLost(g, s, t, lost).state);
    } else {
      DependenciesLostReturns(g, s, t, lost[1..]);
    }
  }

  /** Only a lost connection makes a ready executor leave the queue. */
  lemma TaskFailedReturns(g: Graph, s: State, t: TaskId)
    requires WellFormed(g) && s.Get(t).Failed() && !s.Get(t).exception.value.NotConnected?
    ensures Returns(s, TaskFailed(g, s, t).state)
  {
    var m := MarkAllBlocked(g, s, t, 0);
    MarkAllBlockedOnlyBlocks(g, s, t, 0);
    SameReturns(s, m);
    match s.Get(t).exception.value
    case DependenciesFailed(lost) =>
      DependenciesLostReturns(g, m, t, lost);
      ReturnsTransitive(s, m, DependenciesLost(g, m, t, lost).state);
    case FailedDependency =>
      RetryReturns(g, m, m, t);
      ReturnsTransitive(s, m, TransientFailure(g, m, t).state);
    case GeneralFailure =>
      SameReturns(m, Charge(m, t));
      RetryReturns(g, m, Charge(m, t), t);
      SameReturns(m, Emit(m, t));
      ReturnsTransitive(s, m, TransientFailure(g, Charge(m, t), t).state);
      ReturnsTransitive(s, m, Emit(m, t));
  }

  lemma RetryReturns(g: Graph, s: State, m: State, t: TaskId)
    requires SameSlots(s, m) && m.executors == s.executors
    ensures Returns(s, TransientFailure(g, m, t).state)
  {
    SameReturns(s, m);
    MarkExecutableReturns(g, m, t);
    ReturnsTransitive(s, m, MarkExecutable(g, m, t).state);
  }

  lemma TaskDoneReturns(g: Graph, s: State, t: TaskId)
    requires WellFormed(g) && !(s.Get(t).Failed() && s.Get(t).exception.value.NotConnected?)
    ensures Returns(s, TaskDone(g, s, t).state)
  {
    SameReturns(s, s);
    if t in s.known {
      if s.Get(t).Succeeded() {
        SuccessReturns(g, s, t);
      } else {
        var e := s.Get(t).LastExecutedOn();
        var s0 := s.Touch(e);
        TouchReturns(s, e);
        assert s0.Get(t) == s.Get(t);
        var h := if s0.Get(t).Failed() then TaskFailed(g, s0, t) else Outcome(s0, false);
        if s0.Get(t).Failed() {
          TaskFailedReturns(g, s0, t);
        } else {
          SameReturns(s0, s0);
        }
        ReturnsTransitive(s, s0, h.state);
        SettleReturns(g, s, h, t, e);
      }
    }
  }

  // ---- lost connections ----------------------------------------------------------------------

  lemma {:induction false} DropFirstKeeps(es: seq<Executor>, e: Executor, x: Executor)
    requires x != e
    ensures x in DropFirst(es, e) <==> x in es
  {
    if es != [] {
      assert es == [es[0]] + es[1..];
      DropFirstKeeps(es[1..], e, x);
    }
  }

  /** Like Returns, but for one executor. */
  ghost predicate ReturnsBut(s: State, r: State, e: Option<Executor>) {
    && r.executors == s.executors && (forall x :: x in s.ready && Some(x) != e ==> x in r.ready)
    && forall x :: Connected(s, x) && s.Executing(Some(x)) != {} ==> x in r.ready || r.Executing(Some(x)) != {}
  }

  lemma DroppedReturns(s: State, e: Option<Executor>)
    ensures ReturnsBut(s, DropReady(s, e), e)
  {
    if e.Some? {
      forall x | x in s.ready && x != e.value ensures x in DropFirst(s.ready, e.value) {
        DropFirstKeeps(s.ready, e.value, x);
      }
    }
    forall x ensures DropReady(s, e).Executing(x) == s.Executing(x) {}
  }

  /** A task that failed because its executor could not be reached. */
  predicate Unreachable(s: State, t: TaskId) { s.Get(t).Failed() && s.Get(t).exception.value.NotConnected? }

  lemma UnreachableFailed(g: Graph, s: State, t: TaskId)
    requires WellFormed(g) && Unreachable(s, t)
    ensures var r := TaskFailed(g, s, t).state;
      ReturnsBut(s, r, s.Get(t).LastExecutedOn()) && r.executing == s.executing
  {
    var m := MarkAllBlocked(g, s, t, 0);
    MarkAllBlockedOnlyBlocks(g, s, t, 0);
    assert SameStatus(s.Get(t), m.Get(t));
    RetryReturns(g, s, m, t);
    MarkExecutableSlots(g, m, t);
    DroppedReturns(TransientFailure(g, m, t).state, m.Get(t).LastExecutedOn());
  }

  lemma UnreachableReturns(g: Graph, s: State, t: TaskId)
    requires WellFormed(g) && Unreachable(s, t)
    ensures ReturnsBut(s, TaskDone(g, s, t).state, s.Get(t).LastExecutedOn())
  {
    if t in s.known {
      var e := s.Get(t).LastExecutedOn();
      var s0 := s.Touch(e);
      TouchReturns(s, e);
      assert s0.Get(t) == s.Get(t);
      UnreachableFailed(g, s0, t);
      var h := TaskFailed(g, s0, t).state;
      SameReturns(h, h);
      SettleReturns(g, h, TaskFailed(g, s0, t), t, e);
    }
  }

  // ---- a task that is done -------------------------------------------------------------------

  lemma FreeSlotFrees(s: State, t: TaskId, e: Executor)
    requires Slots(s) && Connected(s, e) && s.Executing(Some(e)) <= {t}
    requires s.Executing(Some(e)) == {} ==> e in s.ready
    ensures var r := FreeSlot(s, t, Some(e)).state; r.Executing(Some(e)) == {} && e in r.ready
  {
    if t in s.Executing(Some(e)) {
      assert s.Executing(Some(e)) == {t};
    }
  }

  /** When its task is done, a connected executor is free and ready again. */
  lemma DoneFreesExecutor(g: Graph, s: State, t: TaskId, e: Executor)
    requires WellFormed(g) && Slots(s) && t in s.known && s.Get(t).LastExecutedOn() == Some(e)
    requires Connected(s, e) && t in s.Executing(Some(e))
    ensures var r := TaskDone(g, s, t).state; r.Executing(Some(e)) == {} && e in r.ready
  {
    var s0 := s.Touch(Some(e));
    TouchSlots(s, Some(e));
    TouchReturns(s, Some(e));
    assert s0.Get(t) == s.Get(t) && s0.Executing(Some(e)) == {t};
    var h := if s0.Get(t).Succeeded() then TaskSucceeded(g, s0, t, 0)
             else if s0.Get(t).Failed() then TaskFailed(g, s0, t) else Outcome(s0, false);
    HandledSlot(g, s0, t, e, h);
    var m := if h.raised then MarkFailed(g, h.state, t, GeneralFailure) else h.state;
    MarkFailedEffect(g, h.state, t, GeneralFailure);
    SameSlotsSlots(h.state, m);
    assert m.Executing(Some(e)) == h.state.Executing(Some(e));
    FreeSlotFrees(m, t, e);
  }

  lemma HandledSlot(g: Graph, s: State, t: TaskId, e: Executor, h: Outcome)
    requires WellFormed(g) && Slots(s) && Connected(s, e) && s.Executing(Some(e)) == {t}
    requires h == if s.Get(t).Succeeded() then TaskSucceeded(g, s, t, 0)
                  else if s.Get(t).Failed() then TaskFailed(g, s, t) else Outcome(s, false)
    ensures Slots(h.state) && Connected(h.state, e) && h.state.Executing(Some(e)) <= {t}
    ensures h.state.Executing(Some(e)) == {} ==> e in h.state.ready
  {
    if s.Get(t).Succeeded() {
      TaskSucceededSlots(g, s, t, 0);
      TaskSucceededReturns(g, s, t, 0);
    } else if s.Get(t).Failed() {
      TaskFailedSlots(g, s, t);
      if Unreachable(s, t) {
        UnreachableFailed(g, s, t);
      } else {
        TaskFailedReturns(g, s, t);
      }
    }
  }

  // ---- events --------------------------------------------------------------------------------

  /** Neither an idle executor that was given up comes back, nor is one reported as lost that was ready. */
  ghost predicate Steady(s: State, ev: Event) {
    match ev
    case SetConnected(e, connected) =>
      connected && e in s.executors ==> s.executors[e] || e in s.ready || s.Executing(Some(e)) != {}
    case Drain =>
      s.done != [] && Unreachable(s, s.done[0]) ==>
        forall e :: s.Get(s.done[0]).LastExecutedOn() == Some(e) && Connected(s, e) ==> e !in s.ready
    case _ => true
  }

  lemma DrainStaffed(g: Graph, s: State)
    requires WellFormed(g) && Enabled(g, s, Drain) && Steady(s, Drain) && Staffed(s)
    ensures Staffed(Step(g, s, Drain))
  {
    var t := s.done[0];
    var s1 := s.(done := s.done[1..]);
    assert s1.Get(t) == s.Get(t);
    SameReturns(s, s1);
    var m, r := TaskDone(g, s1, t).state, Step(g, s, Drain);
    SameReturns(m, r);
    if Unreachable(s, t) {
      UnreachableReturns(g, s1, t);
      forall e | Connected(m, e) ensures e in m.ready || m.Executing(Some(e)) != {} {
        assert Connected(s, e);
      }
    } else {
      TaskDoneReturns(g, s1, t);
      ReturnsTransitive(s, s1, m);
      ReturnsStaffed(s, m);
    }
    ReturnsStaffed(m, r);
  }

  lemma {:induction false} FreeSlotsReturn(s: State, t: TaskId, es: seq<Option<Executor>>)
    ensures Returns(s, FreeSlots(s, t, es))
    decreases |es|
  {
    SameReturns(s, s);
    if es != [] {
      if t !in s.Executing(es[0]) {
        FreeSlotsReturn(s, t, es[1..]);
      } else {
        var left := s.Executing(es[0]) - {t};
        var m := s.(executing := s.executing[es[0] := left],
                    ready := if left == {} && es[0].Some? then s.ready + [es[0].value] else s.ready);
        forall x ensures m.Executing(x) == if x == es[0] then left else s.Executing(x) {}
        FreeSlotsReturn(m, t, es[1..]);
        ReturnsTransitive(s, m, FreeSlots(s, t, es));
      }
    }
  }

  lemma CancelTaskReturns(g: Graph, s: State, t: TaskId)
    ensures Returns(s, CancelTask(g, s, t))
  {
    var s1 := Cancel(g, s, t);
    SignalStopEffect(g, s, t, s.Get(t).(cancelled := true));
    SameReturns(s, s);
    SameReturns(s, s1);
    var s2 := s1.Put(t, s1.Get(t).(blocked := {}));
    SameReturns(s1, s2);
    ReturnsTransitive(s, s1, s2);
    if t in s2.known {
      var s3 := Forget(s2, t);
      SameReturns(s2, s3);
      ReturnsTransitive(s, s2, s3);
      FreeSlotsReturn(s3, t, s3.slots);
      ReturnsTransitive(s, s3, FreeSlots(s3, t, s3.slots));
    }
  }

  lemma {:induction false} CancelTasksReturn(g: Graph, s: State, job: seq<TaskId>)
    ensures Returns(s, CancelTasks(g, s, job))
    decreases |job|
  {
    SameReturns(s, s);
    if job != [] {
      CancelTaskReturns(g, s, job[0]);
      CancelTasksReturn(g, CancelTask(g, s, job[0]), job[1..]);
      ReturnsTransitive(s, CancelTask(g, s, job[0]), CancelTasks(g, s, job));
    }
  }

  lemma {:induction false} MarkRootsReturn(g: Graph, s: State, job: seq<TaskId>)
    ensures Returns(s, MarkRoots(g, s, job).state)
    decreases |job|
  {
    SameReturns(s, s);
    if job != [] {
      MarkExecutableReturns(g, s, job[0]);
      var r := if !s.Get(job[0]).Succeeded() && DependenciesSucceeded(g, s, job[0])
               then MarkExecutable(g, s, job[0]) else Outcome(s, false);
      if !r.raised {
        MarkRootsReturn(g, r.state, job[1..]);
        ReturnsTransitive(s, r.state, MarkRoots(g, s, job).state);
      }
    }
  }

  lemma SubmitReturns(g: Graph, s: State, job: seq<TaskId>)
    ensures Returns(s, Submit(g, s, job))
  {
    var s1 := s.(known := s.known + set t | t in job);
    SameReturns(s, s1);
    MarkRootsReturn(g, s1, job);
    var m := MarkRoots(g, s1, job).state;
    ReturnsTransitive(s, s1, m);
    CancelTasksReturn(g, m, job);
    ReturnsTransitive(s, m, CancelTasks(g, m, job));
  }

  lemma {:induction false} FailGenerallyReturns(g: Graph, s: State, ts: seq<TaskId>)
    ensures Returns(s, FailGenerally(g, s, ts))
    decreases |ts|
  {
    SameReturns(s, s);
    if ts != [] {
      MarkFailedReturns(g, s, ts[0], GeneralFailure);
      FailGenerallyReturns(g, MarkFailed(g, s, ts[0], GeneralFailure), ts[1..]);
      ReturnsTransitive(s, MarkFailed(g, s, ts[0], GeneralFailure), FailGenerally(g, s, ts));
    }
  }

  lemma StopReturns(g: Graph, s: State, t: TaskId, task: Task)
    requires task.blocked == s.Get(t).blocked
    ensures Returns(s, SignalStop(g, s.Put(t, task), t))
  {
    SignalStopEffect(g, s, t, task);
    SameReturns(s, SignalStop(g, s.Put(t, task), t));
  }

  lemma PickStaffed(g: Graph, s: State, choice: Option<TaskId>)
    requires Staffed(s) && s.ready != []
    ensures Staffed(Pick(g, s, choice))
  {
    var e := s.ready[0];
    var s1 := s.(ready := s.ready[1..]);
    var r := Pick(g, s, choice);
    assert s.ready == [e] + s1.ready;
    if Connected(s, e) && choice.Some? {
      StartSameSlots(g, s1, choice.value, e);
      OccupiedGrows(s1, choice.value, e);
    }
    forall x | Connected(r, x) ensures x in r.ready || r.Executing(Some(x)) != {} {
      assert Connected(s, x);
    }
  }

  lemma OccupiedGrows(s: State, t: TaskId, e: Executor)
    ensures var m := Occupied(s, t, e);
      && m.ready == s.ready && m.executors == s.executors && t in m.Executing(Some(e))
      && forall x :: s.Executing(x) <= m.Executing(x)
  {
    var m := s.(executable := s.executable - {t}).Touch(Some(e));
    forall x ensures m.Executing(x) == s.Executing(x) {}
    forall x ensures s.Executing(x) <= Occupied(s, t, e).Executing(x) {}
  }

  lemma RemovedStaffed(s: State, e: Executor)
    requires Staffed(s)
    ensures Staffed(s.(executors := s.executors - {e}, ready := DropFirst(s.ready, e)))
  {
    var r := s.(executors := s.executors - {e}, ready := DropFirst(s.ready, e));
    forall x | Connected(r, x) ensures x in r.ready || r.Executing(Some(x)) != {} {
      assert Connected(s, x);
      DropFirstKeeps(s.ready, e, x);
    }
  }

  lemma RegisteredStaffed(s: State, r: State)
    requires Staffed(s) && r.executing == s.executing && forall x :: x in s.ready ==> x in r.ready
    requires forall x :: Connected(r, x) ==> Connected(s, x) || x in r.ready || s.Executing(Some(x)) != {}
    ensures Staffed(r)
  {
    forall x ensures r.Executing(x) == s.Executing(x) {}
  }

  /** Each such event leaves every connected executor ready or occupied. */
  lemma StepStaffed(g: Graph, s: State, ev: Event)
    requires WellFormed(g) && Enabled(g, s, ev) && Steady(s, ev) && Staffed(s)
    ensures Staffed(Step(g, s, ev))
  {
    var r := Step(g, s, ev);
    match ev {
      case Submission(job) => SubmitReturns(g, s, job);
      case Cancellation(job) => CancelTasksReturn(g, s, job);
      case CancelRequest(t) =>
        SameReturns(s, s);
        StopReturns(g, s, t, s.Get(t).(cancelled := true));
      case Finish(t, location) => StopReturns(g, s, t, s.Get(t).At(location));
      case Fail(t, failure) => StopReturns(g, s, t, s.Get(t).(exception := Some(failure)));
      case FinishCancelled(t) => StopReturns(g, s, t, s.Get(t).(exception := None, cancelled := true));
      case AddExecutor(_, _) => RegisteredStaffed(s, r);
      case RemoveExecutor(e) => RemovedStaffed(s, e);
      case SetConnected(_, _) => RegisteredStaffed(s, r);
      case SetAvoided(_, _) => SameReturns(s, r);
      case Drain => DrainStaffed(g, s);
      case NoExecutors(order) => FailGenerallyReturns(g, s, order);
      case Choose(choice) => PickStaffed(g, s, choice);
    }
    if Returns(s, r) {
      ReturnsStaffed(s, r);
    }
  }

  ghost predicate IsSteadyRun(g: Graph, s: State, evs: seq<Event>)
    requires WellFormed(g) && IsRun(g, s, evs)
    decreases |evs|
  {
    evs != [] ==> Steady(s, evs[0]) && IsSteadyRun(g, Step(g, s, evs[0]), evs[1..])
  }

  lemma {:induction false} RunStaffed(g: Graph, s: State, evs: seq<Event>)
    requires WellFormed(g) && IsRun(g, s, evs) && IsSteadyRun(g, s, evs) && Staffed(s)
    ensures Staffed(Run(g, s, evs))
    decreases |evs|
  {
    if evs != [] {
      StepStaffed(g, s, evs[0]);
      RunStaffed(g, Step(g, s, evs[0]), evs[1..]);
    }
  }

  /** In every such run, a connected executor is ready or occupied. */
  lemma NoExecutorIsLost(g: Graph, s0: State, evs: seq<Event>, e: Executor)
    requires WellFormed(g) && Initial(s0) && IsRun(g, s0, evs) && IsSteadyRun(g, s0, evs)
    requires Connected(Run(g, s0, evs), e)
    ensures e in Run(g, s0, evs).ready || Run(g, s0, evs).Executing(Some(e)) != {}
  {
    RunStaffed(g, s0, evs);
  }
}

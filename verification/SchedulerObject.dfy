/**
 The scheduler as an object whose handlers update its collections in place.  Every handler is
 proved to compute the corresponding function of the transition system, so the invariants that hold
 over all runs hold of this object; the operations that serve events restate the invariant.
 */
module SchedulerObject {
  import opened Sequences
  import opened SchedulerModel
  import opened SchedulerSafety
  import opened SchedulerReadiness

  class Scheduler {
    const graph: Graph
    var tasks: map<TaskId, Task>
    var known: set<TaskId>
    var released: set<TaskId>
    var executable: set<TaskId>
    var done: seq<TaskId>
    var emitted: seq<TaskId>
    var executors: map<Executor, bool>
    var ready: seq<Executor>
    var slots: seq<Option<Executor>>
    var executing: map<Option<Executor>, set<TaskId>>
    var forbidden: map<Option<Executor>, set<TaskId>>
    var avoided: map<TaskId, set<Executor>>
    var crashed: bool

    ghost function Model(): State
      reads this
    {
      State(tasks, known, released, executable, done, emitted, executors, ready, slots, executing, forbidden, avoided,
        crashed)
    }

    ghost predicate Valid()
      reads this
    {
      WellFormed(graph) && Invariant(graph, Model())
    }

    constructor (graph: Graph, tasks: map<TaskId, Task>)
      requires WellFormed(graph) && Initial(Idle.(tasks := tasks))
      ensures Valid() && this.graph == graph && Model() == Idle.(tasks := tasks)
    {
      this.graph := graph;
      this.tasks := tasks;
      known, released, executable, done, emitted := {}, {}, {}, [], [];
      executors, ready, slots, executing, forbidden, avoided := map[], [], [], map[], map[], map[];
      crashed := false;
    }

    function Get(t: TaskId): Task
      reads this
    {
      if t in tasks then tasks[t] else NewTask
    }

    // ---- stopping a task ---------------------------------------------------------------------

    method HandOff(t: TaskId)
      modifies this
      ensures Model() == SchedulerModel.HandOff(old(Model()), t)
    {
      if t in known {
        done := done + [t];
      }
    }

    method SignalStop(t: TaskId)
      modifies this
      ensures Model() == SchedulerModel.SignalStop(graph, old(Model()), t)
    {
      if graph.computes(t) && Invalidates(Get(t).exception) {
        var ds := graph.dependencies(t);
        var i := 0;
        while i < |ds|
          invariant i <= |ds|
          invariant FailAll(Model(), ds[i..]) == FailAll(old(Model()), ds)
        {
          tasks := tasks[ds[i] := Get(ds[i]).(stopped := true, exception := Some(FailedDependency))];
          HandOff(ds[i]);
          i := i + 1;
        }
      }
      tasks := tasks[t := Get(t).(stopped := true)];
      HandOff(t);
    }

    method MarkFailed(t: TaskId, failure: Failure)
      modifies this
      ensures Model() == SchedulerModel.MarkFailed(graph, old(Model()), t, failure)
    {
      tasks := tasks[t := Get(t).(stopped := true, exception := Some(failure))];
      SignalStop(t);
    }

    // ---- handlers ----------------------------------------------------------------------------

    method MarkBlocked(t: TaskId, blocker: TaskId)
      requires WellFormed(graph)
      modifies this
      ensures Model() == SchedulerModel.MarkBlocked(graph, old(Model()), t, blocker)
      decreases graph.height(t)
    {
      executable := executable - {t};
      if blocker !in Get(t).blocked {
        if Get(t).blocked == {} {
          ghost var entry := Model();
          var i := 0;
          while i < |graph.dependents(t)|
            invariant i <= |graph.dependents(t)|
            invariant MarkAllBlocked(graph, Model(), t, i) == MarkAllBlocked(graph, entry, t, 0)
          {
            assert graph.dependents(t)[i] in graph.dependents(t);
            MarkBlocked(graph.dependents(t)[i], t);
            i := i + 1;
          }
        }
        tasks := tasks[t := Get(t).(blocked := Get(t).blocked + {blocker})];
      }
    }

    method BlockDependents(t: TaskId)
      modifies this
      ensures Model() == SchedulerModel.BlockDependents(graph, old(Model()), t, 0)
    {
      var i := 0;
      while i < |graph.dependents(t)|
        invariant i <= |graph.dependents(t)|
        invariant SchedulerModel.BlockDependents(graph, Model(), t, i) ==
          SchedulerModel.BlockDependents(graph, old(Model()), t, 0)
      {
        var u := graph.dependents(t)[i];
        if !Get(u).Succeeded() {
          tasks := tasks[u := Get(u).(blocked := Get(u).blocked + {t})];
        }
        i := i + 1;
      }
    }

    method AllSucceeded(t: TaskId) returns (all: bool)
      ensures all == DependenciesSucceeded(graph, Model(), t)
    {
      var ds, i := graph.dependencies(t), 0;
      while i < |ds|
        invariant i <= |ds|
        invariant forall j :: 0 <= j < i ==> Model().Get(ds[j]).Succeeded()
      {
        if !Get(ds[i]).Succeeded() {
          assert ds[i] in ds;
          return false;
        }
        i := i + 1;
      }
      all := true;
    }

    method MarkExecutable(t: TaskId) returns (raised: bool)
      modifies this
      ensures Outcome(Model(), raised) == SchedulerModel.MarkExecutable(graph, old(Model()), t)
    {
      if t in executable || Get(t).Running() {
        return false;
      }
      var all := AllSucceeded(t);
      if Get(t).blocked != {} || !all {
        return true;
      }
      if !Get(t).Succeeded() {
        executable := executable + {t};
        var avoids := if t in avoided then avoided[t] else {};
        forbidden := Prohibit(forbidden, (set e | e in avoids && e in executors), t);
        assert Model() == Forbid(old(Model()).(executable := executable), t);
      }
      BlockDependents(t);
      raised := false;
    }

    method TransientFailure(t: TaskId) returns (raised: bool)
      modifies this
      ensures Outcome(Model(), raised) == SchedulerModel.TransientFailure(graph, old(Model()), t)
    {
      raised := false;
      if Get(t).blocked == {} {
        raised := MarkExecutable(t);
      }
    }

    method Emit(t: TaskId)
      modifies this
      ensures Model() == SchedulerModel.Emit(old(Model()), t)
    {
      if t in known {
        emitted := emitted + [t];
      }
    }

    method DependenciesLost(t: TaskId, lost: seq<Lost>) returns (raised: bool)
      modifies this
      ensures Outcome(Model(), raised) == SchedulerModel.DependenciesLost(graph, old(Model()), t, lost)
    {
      var i := 0;
      while i < |lost|
        invariant i <= |lost|
        invariant SchedulerModel.DependenciesLost(graph, Model(), t, lost[i..]) ==
                  SchedulerModel.DependenciesLost(graph, old(Model()), t, lost)
      {
        if lost[i].task !in known {
          MarkFailed(t, Failure.GeneralFailure);
          return false;
        }
        if IsLost(Get(lost[i].task), lost[i]) {
          MarkFailed(lost[i].task, FailedDependency);
        }
        i := i + 1;
      }
      raised := TransientFailure(t);
    }

    method BlockAllDependents(t: TaskId)
      requires WellFormed(graph)
      modifies this
      ensures Model() == MarkAllBlocked(graph, old(Model()), t, 0)
    {
      var i := 0;
      while i < |graph.dependents(t)|
        invariant i <= |graph.dependents(t)|
        invariant MarkAllBlocked(graph, Model(), t, i) == MarkAllBlocked(graph, old(Model()), t, 0)
      {
        MarkBlocked(graph.dependents(t)[i], t);
        i := i + 1;
      }
    }

    method DropReady(e: Option<Executor>)
      modifies this
      ensures Model() == SchedulerModel.DropReady(old(Model()), e)
    {
      if e.Some? {
        ready := DropFirst(ready, e.value);
      }
    }

    method TaskFailed(t: TaskId) returns (raised: bool)
      requires WellFormed(graph) && Get(t).Failed()
      modifies this
      ensures Outcome(Model(), raised) == SchedulerModel.TaskFailed(graph, old(Model()), t)
    {
      var failure := Get(t).exception.value;
      BlockAllDependents(t);
      var e := Get(t).LastExecutedOn();
      match failure {
        case DependenciesFailed(lost) =>
          raised := DependenciesLost(t, lost);
        case NotConnected =>
          raised := TransientFailure(t);
          if !raised {
            DropReady(e);
          }
        case FailedDependency =>
          raised := TransientFailure(t);
        case GeneralFailure =>
          raised := GeneralFailure(t);
      }
    }

    method GeneralFailure(t: TaskId) returns (raised: bool)
      modifies this
      ensures var s := old(Model());
        var e := s.Get(t).LastExecutedOn();
        Outcome(Model(), raised) ==
          if |s.Get(t).executedOn| < graph.maxAttempts(t)
          then SchedulerModel.TransientFailure(graph, s.(forbidden := s.forbidden[e := s.Forbidden(e) + {t}]), t)
          else Outcome(SchedulerModel.Emit(s, t), false)
    {
      if |Get(t).executedOn| < graph.maxAttempts(t) {
        var e := Get(t).LastExecutedOn();
        forbidden := forbidden[e := (if e in forbidden then forbidden[e] else {}) + {t}];
        raised := TransientFailure(t);
      } else {
        Emit(t);
        raised := false;
      }
    }

    method TaskSucceeded(t: TaskId) returns (raised: bool)
      requires WellFormed(graph)
      modifies this
      ensures Outcome(Model(), raised) == SchedulerModel.TaskSucceeded(graph, old(Model()), t, 0)
      decreases graph.height(t), 1
    {
      var i := 0;
      while i < |graph.dependents(t)|
        invariant i <= |graph.dependents(t)|
        invariant SchedulerModel.TaskSucceeded(graph, Model(), t, i) ==
          SchedulerModel.TaskSucceeded(graph, old(Model()), t, 0)
      {
        assert graph.dependents(t)[i] in graph.dependents(t);
        raised := Unblock(t, graph.dependents(t)[i]);
        if raised {
          return;
        }
        i := i + 1;
      }
      Emit(t);
      raised := false;
    }

    method Unblock(t: TaskId, u: TaskId) returns (raised: bool)
      requires WellFormed(graph) && u in graph.dependents(t)
      modifies this
      ensures Outcome(Model(), raised) == SchedulerModel.Unblock(graph, old(Model()), t, u)
      decreases graph.height(t), 0
    {
      raised := false;
      if Get(u).blocked != {} {
        tasks := tasks[u := Get(u).(blocked := Get(u).blocked - {t})];
        if Get(u).blocked == {} {
          if Get(u).Succeeded() {
            raised := TaskDone(u);
          } else {
            raised := MarkExecutable(u);
          }
        }
      }
    }

    method TaskDone(t: TaskId) returns (raised: bool)
      requires WellFormed(graph)
      modifies this
      ensures Outcome(Model(), raised) == SchedulerModel.TaskDone(graph, old(Model()), t)
      decreases graph.height(t), 2
    {
      if t !in known {
        return false;
      }
      var e := Get(t).LastExecutedOn();
      Touch(e);
      var failed := false;
      if Get(t).Succeeded() {
        failed := TaskSucceeded(t);
      } else if Get(t).Failed() {
        failed := TaskFailed(t);
      }
      if failed {
        MarkFailed(t, Failure.GeneralFailure);
      }
      raised := FreeSlot(t, e);
    }

    method Touch(e: Option<Executor>)
      modifies this
      ensures Model() == old(Model()).Touch(e)
    {
      if e !in executing {
        slots := slots + [e];
        executing := executing[e := {}];
      }
    }

    method FreeSlot(t: TaskId, e: Option<Executor>) returns (raised: bool)
      modifies this
      ensures Outcome(Model(), raised) == SchedulerModel.FreeSlot(old(Model()), t, e)
    {
      raised := false;
      if e in executing && t in executing[e] {
        executing := executing[e := executing[e] - {t}];
        if e.Some? {
          if e.value in ready {
            return true;
          }
          if e.value in executors && executors[e.value] {
            ready := ready + [e.value];
          }
        }
      }
    }

    // ---- jobs --------------------------------------------------------------------------------

    method MarkRoots(job: seq<TaskId>) returns (raised: bool)
      modifies this
      ensures Outcome(Model(), raised) == SchedulerModel.MarkRoots(graph, old(Model()), job)
    {
      var i := 0;
      while i < |job|
        invariant i <= |job|
        invariant SchedulerModel.MarkRoots(graph, Model(), job[i..]) ==
          SchedulerModel.MarkRoots(graph, old(Model()), job)
      {
        var all := AllSucceeded(job[i]);
        if !Get(job[i]).Succeeded() && all {
          raised := MarkExecutable(job[i]);
          if raised {
            return;
          }
        }
        i := i + 1;
      }
      raised := false;
    }

    method Execute(job: seq<TaskId>)
      requires Valid() && Submittable(graph, Model(), job)
      modifies this
      ensures Valid() && Model() == Step(graph, old(Model()), Submission(job))
    {
      StepInvariant(graph, Model(), Submission(job));
      Register(job);
    }

    method Register(job: seq<TaskId>)
      modifies this
      ensures Model() == SchedulerModel.Submit(graph, old(Model()), job)
    {
      known := known + set t | t in job;
      var raised := MarkRoots(job);
      if raised {
        CancelAll(job);
      }
    }

    method CancelTasks(job: seq<TaskId>)
      requires Valid() && ClosedJob(graph, job)
      modifies this
      ensures Valid() && Model() == Step(graph, old(Model()), Cancellation(job))
    {
      StepInvariant(graph, Model(), Cancellation(job));
      CancelAll(job);
    }

    method CancelAll(job: seq<TaskId>)
      modifies this
      ensures Model() == SchedulerModel.CancelTasks(graph, old(Model()), job)
    {
      var i := 0;
      while i < |job|
        invariant i <= |job|
        invariant SchedulerModel.CancelTasks(graph, Model(), job[i..]) ==
          SchedulerModel.CancelTasks(graph, old(Model()), job)
      {
        CancelTask(job[i]);
        i := i + 1;
      }
    }

    method CancelTask(t: TaskId)
      modifies this
      ensures Model() == SchedulerModel.CancelTask(graph, old(Model()), t)
    {
      if Get(t).Running() {
        tasks := tasks[t := Get(t).(cancelled := true)];
        SignalStop(t);
      }
      tasks := tasks[t := Get(t).(blocked := {})];
      if t in known {
        Withdraw(t);
        FreeSlots(t);
      }
    }

    method Withdraw(t: TaskId)
      modifies this
      ensures var s := old(Model());
        Model() == s.(known := s.known - {t}, released := s.released + {t}, executable := s.executable - {t},
                      forbidden := map e | e in s.forbidden :: s.forbidden[e] - {t})
    {
      known, released, executable := known - {t}, released + {t}, executable - {t};
      forbidden := map e | e in forbidden :: forbidden[e] - {t};
    }

    method FreeSlots(t: TaskId)
      modifies this
      ensures Model() == SchedulerModel.FreeSlots(old(Model()), t, old(slots))
    {
      var es, i := slots, 0;
      while i < |es|
        invariant i <= |es|
        invariant SchedulerModel.FreeSlots(Model(), t, es[i..]) == SchedulerModel.FreeSlots(old(Model()), t, es)
      {
        if es[i] in executing && t in executing[es[i]] {
          var left := executing[es[i]] - {t};
          executing := executing[es[i] := left];
          if left == {} && es[i].Some? {
            ready := ready + [es[i].value];
          }
        }
        i := i + 1;
      }
    }

    // ---- the loop ----------------------------------------------------------------------------

    /** Handle the notification at the head of the done queue. */
    method HandleNext()
      requires Valid() && Enabled(graph, Model(), Drain)
      modifies this
      ensures Valid() && Model() == Step(graph, old(Model()), Drain)
    {
      StepInvariant(graph, Model(), Drain);
      var t := done[0];
      done := done[1..];
      crashed := TaskDone(t);
    }

    /** A task that may be started on e. */
    ghost predicate Allowed(t: TaskId, e: Executor)
      reads this
    {
      t in executable && (Some(e) in forbidden ==> t !in forbidden[Some(e)])
    }

    /** The first executable task, by priority, which is not forbidden on e. */
    method Select(e: Executor) returns (choice: Option<TaskId>)
      ensures choice.Some? ==> Allowed(choice.value, e) && forall t :: Allowed(t, e) ==>
        graph.priority(choice.value) <= graph.priority(t)
      ensures choice.None? ==> forall t :: !Allowed(t, e)
    {
      var barred := if Some(e) in forbidden then forbidden[Some(e)] else {};
      var rest := executable - barred;
      choice := None;
      while rest != {}
        invariant rest <= executable - barred
        invariant choice.None? ==> rest == executable - barred
        invariant choice.Some? ==> choice.value in executable - barred
        invariant choice.Some? ==> forall u :: u in executable - barred - rest ==>
          graph.priority(choice.value) <= graph.priority(u)
        decreases rest
      {
        var t :| t in rest;
        if choice.None? || graph.priority(t) < graph.priority(choice.value) {
          choice := Some(t);
        }
        rest := rest - {t};
      }
      assert forall t :: Allowed(t, e) ==> t in executable - barred;
    }

    /** With the done queue drained, give the first ready executor a task. */
    method GiveTask() returns (choice: Option<TaskId>)
      requires Valid() && !crashed && done == [] && ready != []
      modifies this
      ensures Valid() && Enabled(graph, old(Model()), Choose(choice))
      ensures Model() == Step(graph, old(Model()), Choose(choice))
      ensures choice.Some? && Get(choice.value).Running() ==> DependenciesSucceeded(graph, old(Model()), choice.value)
    {
      var e := ready[0];
      choice := Select(e);
      assert forall t :: t in executable ==> Allowed(t, e) || t in Model().Forbidden(Some(e));
      StepInvariant(graph, Model(), Choose(choice));
      if choice.Some? {
        Ready(choice);
      }
      ready := ready[1..];
      if e in executors && executors[e] {
        if choice.Some? {
          Start(choice.value, e);
        } else {
          ready := ready + [e];
        }
      }
    }

    lemma Ready(choice: Option<TaskId>)
      requires Valid() && Enabled(graph, Model(), Choose(choice)) && choice.Some?
      ensures DependenciesSucceeded(graph, Model(), choice.value)
    {
      forall d | d in graph.dependencies(choice.value) ensures Model().Get(d).Succeeded() {
        assert Vouched(Model(), choice.value, d, {});
      }
    }

    method Start(t: TaskId, e: Executor)
      modifies this
      ensures Model() == SchedulerModel.Start(graph, old(Model()), t, e)
    {
      executable := executable - {t};
      Touch(Some(e));
      executing := executing[Some(e) := executing[Some(e)] + {t}];
      var task := Get(t);
      if task.cancelled {
        MarkFailed(t, Failure.GeneralFailure);
      } else {
        tasks := tasks[t := task.(started := true, stopped := false, exception := None,
                                  executedOn := task.executedOn + [e], resultOn := task.resultOn + [e])];
      }
    }

    // ---- executors and callbacks -------------------------------------------------------------

    method AddExecutor(e: Executor, connected: bool)
      requires Valid()
      modifies this
      ensures Valid() && Model() == Step(graph, old(Model()), Event.AddExecutor(e, connected))
    {
      StepInvariant(graph, Model(), Event.AddExecutor(e, connected));
      if e !in executors {
        executors := executors[e := connected];
        ready := ready + [e];
      }
    }

    method RemoveExecutor(e: Executor)
      requires Valid()
      modifies this
      ensures Valid() && Model() == Step(graph, old(Model()), Event.RemoveExecutor(e))
    {
      StepInvariant(graph, Model(), Event.RemoveExecutor(e));
      ready := DropFirst(ready, e);
      executors := executors - {e};
    }

    /** An execution of t ends: with a result, with a failure, or because it was cancelled. */
    method Callback(ev: Event)
      requires Valid() && (ev.Finish? || ev.Fail? || ev.FinishCancelled?) && Enabled(graph, Model(), ev)
      modifies this
      ensures Valid() && Model() == Step(graph, old(Model()), ev)
    {
      StepInvariant(graph, Model(), ev);
      var t := ev.task;
      match ev {
        case Finish(_, location) => tasks := tasks[t := Get(t).At(location)];
        case Fail(_, failure) => tasks := tasks[t := Get(t).(exception := Some(failure))];
        case FinishCancelled(_) => tasks := tasks[t := Get(t).(exception := None, cancelled := true)];
      }
      SignalStop(t);
    }
  }
}

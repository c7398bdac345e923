/**
 The task scheduler of bndl.compute as a transition system.

 A state holds the scheduler's own collections (`known` is the key set of `self.tasks`) and the
 records of the tasks.  Every handler of the scheduler is a function from state to state; the
 handlers that contain assertions return an Outcome that says whether an assertion failed, because
 the code catches such an error and turns it into a failure of the task that is being handled.
 Events cover the scheduler loop, job submission and cancellation, and the environment: callbacks
 of executions (also late ones), executors that come and go, changing locality.
 */
module SchedulerModel {
  import opened Sequences

  type TaskId = nat
  type Executor = nat

  /** One entry of the nested mapping carried by DependenciesFailed. */
  datatype Lost = Lost(resultOn: Option<Executor>, executedOn: Option<Executor>, task: TaskId)

  datatype Failure =
    | DependenciesFailed(lost: seq<Lost>)
    | NotConnected
    | FailedDependency
    | GeneralFailure

  datatype Task = Task(
      started: bool, stopped: bool, exception: Option<Failure>, cancelled: bool,
      blocked: set<TaskId>, executedOn: seq<Executor>, resultOn: seq<Executor>)
  {
    predicate Running() { started && !stopped }

    predicate Succeeded() { stopped && exception.None? }

    predicate Failed() { stopped && exception.Some? }

    function LastExecutedOn(): Option<Executor> {
      if executedOn == [] then None else Some(executedOn[|executedOn| - 1])
    }

    function LastResultOn(): Option<Executor> {
      if resultOn == [] then None else Some(resultOn[|resultOn| - 1])
    }

    /** Set the location of the last result. */
    function At(location: Option<Executor>): Task {
      if location.None? || resultOn == [] then this
      else this.(resultOn := resultOn[|resultOn| - 1 := location.value])
    }
  }

  const NewTask := Task(false, false, None, false, {}, [], [])

  /** A task whose effect was available before it was ever executed. */
  const DoneTask := Task(true, true, None, false, {}, [], [])

  /**
   The static part of the tasks.  `computes` marks the tasks that compute a partition, as opposed
   to barriers; `height` witnesses that the dependency relation has no cycles.
   */
  datatype Graph = Graph(
      dependencies: TaskId -> seq<TaskId>, dependents: TaskId -> seq<TaskId>,
      height: TaskId -> nat, priority: TaskId -> int, maxAttempts: TaskId -> nat,
      computes: TaskId -> bool)

  ghost predicate WellFormed(g: Graph) {
    && (forall t, u :: u in g.dependents(t) <==> t in g.dependencies(u))
    && (forall t, u :: u in g.dependents(t) ==> g.height(u) < g.height(t))
  }

  datatype State = State(
      tasks: map<TaskId, Task>, known: set<TaskId>, released: set<TaskId>,
      executable: set<TaskId>, done: seq<TaskId>, emitted: seq<TaskId>,
      executors: map<Executor, bool>, ready: seq<Executor>,
      slots: seq<Option<Executor>>, executing: map<Option<Executor>, set<TaskId>>,
      forbidden: map<Option<Executor>, set<TaskId>>, avoided: map<TaskId, set<Executor>>,
      crashed: bool)
  {
    function Get(t: TaskId): Task { if t in tasks then tasks[t] else NewTask }

    function Put(t: TaskId, task: Task): State { this.(tasks := tasks[t := task]) }

    function Executing(e: Option<Executor>): set<TaskId> { if e in executing then executing[e] else {} }

    function Forbidden(e: Option<Executor>): set<TaskId> { if e in forbidden then forbidden[e] else {} }

    function Avoided(t: TaskId): set<Executor> { if t in avoided then avoided[t] else {} }

    /** Access to a missing key of `executing_on` creates the key. */
    function Touch(e: Option<Executor>): State {
      if e in executing then this else this.(slots := slots + [e], executing := executing[e := {}])
    }
  }

  const Idle := State(map[], {}, {}, {}, [], [], map[], [], [], map[], map[], map[], false)

  /** An idle scheduler; the effect of some tasks may be available already. */
  ghost predicate Initial(s: State) {
    s == Idle.(tasks := s.tasks) && forall t :: s.Get(t) == NewTask || s.Get(t) == DoneTask
  }

  datatype Outcome = Outcome(state: State, raised: bool)

  // ---- stopping a task -------------------------------------------------------------------

  /** The stop listener hands the task over to the scheduler thread while the task is known. */
  function HandOff(s: State, t: TaskId): State {
    if t in s.known then s.(done := s.done + [t]) else s
  }

  function FailPlainly(s: State, t: TaskId): State {
    HandOff(s.Put(t, s.Get(t).(stopped := true, exception := Some(FailedDependency))), t)
  }

  function FailAll(s: State, ts: seq<TaskId>): State
    decreases |ts|
  {
    if ts == [] then s else FailAll(FailPlainly(s, ts[0]), ts[1..])
  }

  predicate Invalidates(exception: Option<Failure>) {
    exception.Some? && (exception.value.DependenciesFailed? || exception.value.FailedDependency?)
  }

  /** A computing task which lost its input first fails the barriers it depends on. */
  function SignalStop(g: Graph, s: State, t: TaskId): State {
    var s1 := if g.computes(t) && Invalidates(s.Get(t).exception) then FailAll(s, g.dependencies(t)) else s;
    HandOff(s1.Put(t, s1.Get(t).(stopped := true)), t)
  }

  function MarkFailed(g: Graph, s: State, t: TaskId, failure: Failure): State {
    SignalStop(g, s.Put(t, s.Get(t).(stopped := true, exception := Some(failure))), t)
  }

  // ---- handlers --------------------------------------------------------------------------

  function Emit(s: State, t: TaskId): State {
    if t in s.known then s.(emitted := s.emitted + [t]) else s
  }

  function MarkBlocked(g: Graph, s: State, t: TaskId, blocker: TaskId): State
    requires WellFormed(g)
    decreases g.height(t), 0, 1
  {
    var s1 := s.(executable := s.executable - {t});
    var blocked := s1.Get(t).blocked;
    if blocker in blocked then s1
    else
      var s2 := if blocked == {} then MarkAllBlocked(g, s1, t, 0) else s1;
      s2.Put(t, s2.Get(t).(blocked := s2.Get(t).blocked + {blocker}))
  }

  /** Block the dependents of t from position i on. */
  function MarkAllBlocked(g: Graph, s: State, t: TaskId, i: nat): State
    requires WellFormed(g) && i <= |g.dependents(t)|
    decreases g.height(t), 0, 0, |g.dependents(t)| - i
  {
    if i == |g.dependents(t)| then s
    else MarkAllBlocked(g, MarkBlocked(g, s, g.dependents(t)[i], t), t, i + 1)
  }

  /** Record an executable task as a blocker of its dependents from position i on. */
  function BlockDependents(g: Graph, s: State, t: TaskId, i: nat): State
    requires i <= |g.dependents(t)|
    decreases |g.dependents(t)| - i
  {
    if i == |g.dependents(t)| then s
    else
      var u := g.dependents(t)[i];
      var task := s.Get(u);
      BlockDependents(g, if task.Succeeded() then s else s.Put(u, task.(blocked := task.blocked + {t})), t, i + 1)
  }

  /** Record t as forbidden on each of the executors. */
  function Prohibit(
    forbidden: map<Option<Executor>, set<TaskId>>, es: set<Executor>, t: TaskId): map<Option<Executor>, set<TaskId>> {
    var names := set e | e in es :: Some(e);
    map e | e in forbidden.Keys + names ::
      (if e in forbidden then forbidden[e] else {}) + (if e in names then {t} else {})
  }

  /** Registered executors with a negative locality for t are recorded as forbidden. */
  function Forbid(s: State, t: TaskId): State {
    s.(forbidden := Prohibit(s.forbidden, (set e | e in s.Avoided(t) && e in s.executors), t))
  }

  predicate DependenciesSucceeded(g: Graph, s: State, t: TaskId) {
    forall d :: d in g.dependencies(t) ==> s.Get(d).Succeeded()
  }

  function MarkExecutable(g: Graph, s: State, t: TaskId): Outcome {
    if t in s.executable || s.Get(t).Running() then Outcome(s, false)
    else if s.Get(t).blocked != {} || !DependenciesSucceeded(g, s, t) then Outcome(s, true)
    else
      var s1 := if s.Get(t).Succeeded() then s else Forbid(s.(executable := s.executable + {t}), t);
      Outcome(BlockDependents(g, s1, t, 0), false)
  }

  function TaskDone(g: Graph, s: State, t: TaskId): Outcome
    requires WellFormed(g)
    decreases g.height(t), 2
  {
    if t !in s.known then Outcome(s, false)
    else
      var e := s.Get(t).LastExecutedOn();
      var s0 := s.Touch(e);
      var handled :=
        if s0.Get(t).Succeeded() then TaskSucceeded(g, s0, t, 0)
        else if s0.Get(t).Failed() then TaskFailed(g, s0, t)
        else Outcome(s0, false);
      Settle(g, handled, t, e)
  }

  /** An assertion error becomes a failure of t; then the slot of t is freed. */
  function Settle(g: Graph, handled: Outcome, t: TaskId, e: Option<Executor>): Outcome {
    FreeSlot(if handled.raised then MarkFailed(g, handled.state, t, GeneralFailure) else handled.state, t, e)
  }

  /** Take t from the slot of e and return the executor to the ready queue. */
  function FreeSlot(s: State, t: TaskId, e: Option<Executor>): Outcome {
    if t !in s.Executing(e) then Outcome(s, false)
    else
      var s1 := s.(executing := s.executing[e := s.Executing(e) - {t}]);
      if e.Some? && e.value in s.ready then Outcome(s1, true)
      else if e.Some? && e.value in s.executors && s.executors[e.value] then
        Outcome(s1.(ready := s.ready + [e.value]), false)
      else Outcome(s1, false)
  }

  /** The dependent u of the succeeded task t is no longer blocked by it. */
  function Unblock(g: Graph, s: State, t: TaskId, u: TaskId): Outcome
    requires WellFormed(g) && u in g.dependents(t)
    decreases g.height(t), 1, 0
  {
    var task := s.Get(u);
    if task.blocked == {} then Outcome(s, false)
    else
      var s1 := s.Put(u, task.(blocked := task.blocked - {t}));
      if task.blocked - {t} != {} then Outcome(s1, false)
      else if task.Succeeded() then TaskDone(g, s1, u)
      else MarkExecutable(g, s1, u)
  }

  /** Unblock the dependents of t from position i on, then emit t. */
  function TaskSucceeded(g: Graph, s: State, t: TaskId, i: nat): Outcome
    requires WellFormed(g) && i <= |g.dependents(t)|
    decreases g.height(t), 1, |g.dependents(t)| - i + 1
  {
    if i == |g.dependents(t)| then Outcome(Emit(s, t), false)
    else
      var r := Unblock(g, s, t, g.dependents(t)[i]);
      if r.raised then r else TaskSucceeded(g, r.state, t, i + 1)
  }

  function TaskFailed(g: Graph, s: State, t: TaskId): Outcome
    requires WellFormed(g)
    requires s.Get(t).Failed()
  {
    var s1 := MarkAllBlocked(g, s, t, 0);
    match s.Get(t).exception.value
    case DependenciesFailed(lost) => DependenciesLost(g, s1, t, lost)
    case NotConnected =>
      var r := TransientFailure(g, s1, t);
      if r.raised then r else Outcome(DropReady(r.state, s1.Get(t).LastExecutedOn()), false)
    case FailedDependency => TransientFailure(g, s1, t)
    case GeneralFailure =>
      if |s1.Get(t).executedOn| < g.maxAttempts(t) then
        TransientFailure(g, Charge(s1, t), t)
      else Outcome(Emit(s1, t), false)
  }

  /** Record t as forbidden where it failed. */
  function Charge(s: State, t: TaskId): State {
    var e := s.Get(t).LastExecutedOn();
    s.(forbidden := s.forbidden[e := s.Forbidden(e) + {t}])
  }

  function DropFirst(es: seq<Executor>, e: Executor): seq<Executor> {
    if es == [] then [] else if es[0] == e then es[1..] else [es[0]] + DropFirst(es[1..], e)
  }

  function DropReady(s: State, e: Option<Executor>): State {
    if e.None? then s else s.(ready := DropFirst(s.ready, e.value))
  }

  function DependenciesLost(g: Graph, s: State, t: TaskId, lost: seq<Lost>): Outcome
    decreases |lost|
  {
    if lost == [] then TransientFailure(g, s, t)
    else if lost[0].task !in s.known then Outcome(MarkFailed(g, s, t, GeneralFailure), false)
    else
      DependenciesLost(g, if IsLost(s.Get(lost[0].task), lost[0])
        then MarkFailed(g, s, lost[0].task, FailedDependency) else s,
                       t, lost[1..])
  }

  /** A report counts only when it speaks of the last execution and of the last result. */
  predicate IsLost(d: Task, l: Lost) {
    !d.Failed() && (l.resultOn.None? || l.resultOn == d.LastResultOn())
      && (l.executedOn.None? || l.executedOn == d.LastExecutedOn())
  }

  function TransientFailure(g: Graph, s: State, t: TaskId): Outcome {
    if s.Get(t).blocked == {} then MarkExecutable(g, s, t) else Outcome(s, false)
  }

  // ---- jobs ------------------------------------------------------------------------------

  /** A job names fresh tasks, each once, and is closed under the dependency relation. */
  ghost predicate Submittable(g: Graph, s: State, job: seq<TaskId>) {
    && NoDuplicates(job)
    && (forall t :: t in job ==> t !in s.known && t !in s.released && (s.Get(t) == NewTask || s.Get(t) == DoneTask))
    && ClosedJob(g, job)
  }

  ghost predicate ClosedJob(g: Graph, job: seq<TaskId>) {
    && (forall t, d :: t in job && d in g.dependencies(t) ==> d in job)
    && (forall t, u :: t in job && u in g.dependents(t) ==> u in job)
  }

  function Submit(g: Graph, s: State, job: seq<TaskId>): State {
    var r := MarkRoots(g, s.(known := s.known + set t | t in job), job);
    if r.raised then CancelTasks(g, r.state, job) else r.state
  }

  /** Make the tasks executable that wait for nothing. */
  function MarkRoots(g: Graph, s: State, job: seq<TaskId>): Outcome
    decreases |job|
  {
    if job == [] then Outcome(s, false)
    else
      var r := if !s.Get(job[0]).Succeeded() && DependenciesSucceeded(g, s, job[0])
               then MarkExecutable(g, s, job[0]) else Outcome(s, false);
      if r.raised then r else MarkRoots(g, r.state, job[1..])
  }

  function CancelTasks(g: Graph, s: State, job: seq<TaskId>): State
    decreases |job|
  {
    if job == [] then s else CancelTasks(g, CancelTask(g, s, job[0]), job[1..])
  }

  function CancelTask(g: Graph, s: State, t: TaskId): State {
    var s1 := Cancel(g, s, t);
    var s2 := s1.Put(t, s1.Get(t).(blocked := {}));
    if t !in s2.known then s2
    else
      var s3 := Forget(s2, t);
      FreeSlots(s3, t, s3.slots)
  }

  function Forget(s: State, t: TaskId): State {
    s.(known := s.known - {t}, released := s.released + {t}, executable := s.executable - {t},
       forbidden := map e | e in s.forbidden :: s.forbidden[e] - {t})
  }

  /** Cancelling marks a running task as stopped, without an exception. */
  function Cancel(g: Graph, s: State, t: TaskId): State {
    if s.Get(t).Running() then SignalStop(g, s.Put(t, s.Get(t).(cancelled := true)), t) else s
  }

  function FreeSlots(s: State, t: TaskId, es: seq<Option<Executor>>): State
    decreases |es|
  {
    if es == [] then s
    else if t !in s.Executing(es[0]) then FreeSlots(s, t, es[1..])
    else
      var left := s.Executing(es[0]) - {t};
      FreeSlots(s.(executing := s.executing[es[0] := left],
                   ready := if left == {} && es[0].Some? then s.ready + [es[0].value] else s.ready),
                t, es[1..])
  }

  // ---- the scheduler loop ----------------------------------------------------------------

  ghost predicate Chosen(g: Graph, s: State, e: Executor, t: TaskId) {
    && t in s.executable - s.Forbidden(Some(e))
    && forall u :: u in s.executable - s.Forbidden(Some(e)) ==> g.priority(t) <= g.priority(u)
  }

  function Start(g: Graph, s: State, t: TaskId, e: Executor): State {
    var s1 := s.(executable := s.executable - {t}).Touch(Some(e));
    var s2 := s1.(executing := s1.executing[Some(e) := s1.Executing(Some(e)) + {t}]);
    var task := s2.Get(t);
    if task.cancelled then MarkFailed(g, s2, t, GeneralFailure)
    else s2.Put(t, task.(started := true, stopped := false, exception := None,
                         executedOn := task.executedOn + [e], resultOn := task.resultOn + [e]))
  }

  /** The executor at the head of the ready queue gets the task, or goes to the back of the queue. */
  function Pick(g: Graph, s: State, choice: Option<TaskId>): State
    requires s.ready != []
  {
    var e := s.ready[0];
    var s1 := s.(ready := s.ready[1..]);
    if e !in s.executors || !s.executors[e] then s1
    else if choice.Some? then Start(g, s1, choice.value, e)
    else s1.(ready := s1.ready + [e])
  }

  function FailGenerally(g: Graph, s: State, ts: seq<TaskId>): State
    decreases |ts|
  {
    if ts == [] then s else FailGenerally(g, MarkFailed(g, s, ts[0], GeneralFailure), ts[1..])
  }

  // ---- events ----------------------------------------------------------------------------

  datatype Event =
    | Submission(job: seq<TaskId>)             // execute(tasks)
    | Cancellation(job: seq<TaskId>)           // cancel_tasks(tasks)
    | CancelRequest(task: TaskId)              // cancel() on a task
    | Finish(task: TaskId, location: Option<Executor>)
    | Fail(task: TaskId, failure: Failure)
    | FinishCancelled(task: TaskId)            // an execution returns TaskCancelled
    | AddExecutor(executor: Executor, connected: bool)
    | RemoveExecutor(executor: Executor)
    | SetConnected(executor: Executor, connected: bool)
    | SetAvoided(task: TaskId, executors: set<Executor>)
    | Drain                                    // handle the head of the done queue
    | NoExecutors(order: seq<TaskId>)          // fail what is executable: nothing can run it
    | Choose(choice: Option<TaskId>)           // give the first ready executor a task

  ghost predicate Enabled(g: Graph, s: State, ev: Event) {
    match ev
    case Submission(job) => Submittable(g, s, job)
    case Cancellation(job) => ClosedJob(g, job)
    case CancelRequest(_) => true
    case Finish(t, _) => s.Get(t).started
    case Fail(t, _) => s.Get(t).started
    case FinishCancelled(t) => s.Get(t).started
    case AddExecutor(_, _) => true
    case RemoveExecutor(_) => true
    case SetConnected(_, _) => true
    case SetAvoided(_, _) => true
    case Drain => !s.crashed && s.done != []
    case NoExecutors(order) => !s.crashed && s.done == [] && s.ready == [] && s.slots == [] &&
                               (forall t :: t in order <==> t in s.executable)
    case Choose(choice) =>
      && !s.crashed && s.done == [] && s.ready != []
      && match choice
         case Some(t) => Chosen(g, s, s.ready[0], t)
         case None => s.executable <= s.Forbidden(Some(s.ready[0]))
  }

  ghost function Step(g: Graph, s: State, ev: Event): State
    requires WellFormed(g) && Enabled(g, s, ev)
  {
    match ev
    case Submission(job) => Submit(g, s, job)
    case Cancellation(job) => CancelTasks(g, s, job)
    case CancelRequest(t) => Cancel(g, s, t)
    case Finish(t, location) => SignalStop(g, s.Put(t, s.Get(t).At(location)), t)
    case Fail(t, failure) => SignalStop(g, s.Put(t, s.Get(t).(exception := Some(failure))), t)
    case FinishCancelled(t) => SignalStop(g, s.Put(t, s.Get(t).(exception := None, cancelled := true)), t)
    case AddExecutor(e, connected) =>
      if e in s.executors then s else s.(executors := s.executors[e := connected], ready := s.ready + [e])
    case RemoveExecutor(e) => s.(executors := s.executors - {e}, ready := DropFirst(s.ready, e))
    case SetConnected(e, connected) =>
      if e in s.executors then s.(executors := s.executors[e := connected]) else s
    case SetAvoided(t, es) => s.(avoided := s.avoided[t := es])
    case Drain =>
      var r := TaskDone(g, s.(done := s.done[1..]), s.done[0]);
      r.state.(crashed := r.raised)
    case NoExecutors(order) => FailGenerally(g, s, order)
    case Choose(choice) => Pick(g, s, choice)
  }

  /** A run executes the events in order; every event has to be enabled when its turn comes. */
  ghost predicate IsRun(g: Graph, s: State, evs: seq<Event>)
    requires WellFormed(g)
    decreases |evs|
  {
    evs != [] ==> Enabled(g, s, evs[0]) && IsRun(g, Step(g, s, evs[0]), evs[1..])
  }

  ghost function Run(g: Graph, s: State, evs: seq<Event>): State
    requires WellFormed(g) && IsRun(g, s, evs)
    decreases |evs|
  {
    if evs == [] then s else Run(g, Step(g, s, evs[0]), evs[1..])
  }
}

/**
 Readiness: whatever happens, a task is only started when all of its dependencies have succeeded.

 No single handler states this.  The invariant `Safe` says of every executable task that it is not
 running and that each dependency is vouched for: it succeeded and does not block the task, or the
 done queue still holds a notification that will settle the matter before the next task is picked.
 */
module SchedulerSafety {
  import opened Sequences
  import opened SchedulerModel

  /** The set p holds the tasks whose notification is being handled. */
  ghost predicate Vouched(s: State, t: TaskId, d: TaskId, p: set<TaskId>) {
    (s.Get(d).Succeeded() && d !in s.Get(t).blocked) || d in s.done || d in p
  }

  ghost predicate Sound(s: State) {
    && (forall t :: t in s.executable ==>
          t in s.known && !s.Get(t).Running() && (s.Get(t).Succeeded() ==> s.Get(t).cancelled))
    && (forall t :: t in s.done ==> s.Get(t).stopped)
    && (forall t :: s.Get(t).Running() ==> s.Get(t).exception.None?)
  }

  ghost predicate Safe(g: Graph, s: State, p: set<TaskId>) {
    && Sound(s)
    && (forall t, d :: t in s.executable && d in g.dependencies(t) ==> Vouched(s, t, d, p))
  }

  ghost predicate Closed(g: Graph, s: State) {
    && (forall t, d :: t in s.known && d in g.dependencies(t) ==> d in s.known)
    && (forall t, u :: t in s.known && u in g.dependents(t) ==> u in s.known)
  }

  ghost predicate Invariant(g: Graph, s: State) { Safe(g, s, {}) && Closed(g, s) }

  // ---- what every handler keeps ------------------------------------------------------------

  ghost predicate KeepsTask(a: Task, b: Task) {
    && b.started == a.started && b.cancelled == a.cancelled && b.executedOn == a.executedOn && b.resultOn == a.resultOn
    && (a.stopped ==> b.stopped) && (b.Succeeded() ==> a.Succeeded())
  }

  /** Handlers start nothing, forget no prohibition and lose no notification and no result. */
  ghost predicate Keeps(s: State, r: State) {
    && r.known == s.known && r.released == s.released && r.executors == s.executors && r.crashed == s.crashed
    && (forall x :: x in s.done ==> x in r.done) && s.emitted <= r.emitted && Entries(s, r) && Readies(s, r)
    && (forall x :: KeepsTask(s.Get(x), r.Get(x)))
    && (forall x :: x in s.known && x !in r.done ==> SameStatus(s.Get(x), r.Get(x)))
    && (forall e :: s.Forbidden(e) <= r.Forbidden(e)) && Heeds(s, r)
  }

  /** Only connected executors become ready. */
  ghost predicate Readies(s: State, r: State) {
    forall e :: e in r.ready && e !in s.ready ==> e in s.executors && s.executors[e]
  }

  lemma {:induction false} DropFirstSubset(es: seq<Executor>, e: Executor)
    ensures forall x :: x in DropFirst(es, e) ==> x in es
  {
    if es != [] && es[0] != e {
      DropFirstSubset(es[1..], e);
    }
  }

  /** Entries for executors are only added, and listed. */
  ghost predicate Entries(s: State, r: State) {
    s.slots <= r.slots && forall e :: e in r.executing && e !in s.executing ==> e in r.slots
  }

  /** A task that became executable is recorded as forbidden on each registered executor that it avoids. */
  ghost predicate Heeds(s: State, r: State) {
    && r.avoided == s.avoided
    && forall t, e :: t in r.executable && t !in s.executable && e in s.Avoided(t) && e in s.executors ==>
      t in r.Forbidden(Some(e))
  }

  /** Tasks that are at least as high as h keep their status and block no more than before. */
  ghost predicate Above(g: Graph, h: int, s: State, r: State) {
    && (forall x :: g.height(x) >= h ==> SameStatus(s.Get(x), r.Get(x)))
    && (forall x, v :: g.height(x) >= h && x in r.Get(v).blocked ==> x in s.Get(v).blocked)
  }

  ghost predicate SameStatus(a: Task, b: Task) { b == a.(blocked := b.blocked) }

  // ---- blocking ------------------------------------------------------------------------------

  /** Only blocked sets and the executable set changed, and what stayed executable was not touched. */
  ghost predicate OnlyBlocked(s: State, r: State) {
    && r == s.(tasks := r.tasks, executable := r.executable)
    && r.executable <= s.executable
    && (forall x :: SameStatus(s.Get(x), r.Get(x)) && s.Get(x).blocked <= r.Get(x).blocked)
    && (forall x :: x in r.executable ==> r.Get(x).blocked == s.Get(x).blocked)
  }

  lemma OnlyBlockedTransitive(s: State, m: State, r: State)
    requires OnlyBlocked(s, m) && OnlyBlocked(m, r)
    ensures OnlyBlocked(s, r)
  {
    forall x ensures SameStatus(s.Get(x), r.Get(x)) && s.Get(x).blocked <= r.Get(x).blocked {
      assert SameStatus(s.Get(x), m.Get(x)) && SameStatus(m.Get(x), r.Get(x));
    }
  }

  lemma AddBlocker(s: State, m: State, t: TaskId, blocker: TaskId)
    requires OnlyBlocked(s, m) && t !in m.executable
    ensures OnlyBlocked(s, m.Put(t, m.Get(t).(blocked := m.Get(t).blocked + {blocker})))
  {
    var r := m.Put(t, m.Get(t).(blocked := m.Get(t).blocked + {blocker}));
    forall x ensures SameStatus(s.Get(x), r.Get(x)) && s.Get(x).blocked <= r.Get(x).blocked {
      assert SameStatus(s.Get(x), m.Get(x));
    }
  }

  lemma {:induction false} MarkBlockedOnlyBlocks(g: Graph, s: State, t: TaskId, blocker: TaskId)
    requires WellFormed(g)
    ensures OnlyBlocked(s, MarkBlocked(g, s, t, blocker))
    ensures t !in MarkBlocked(g, s, t, blocker).executable
    ensures blocker in MarkBlocked(g, s, t, blocker).Get(t).blocked
    decreases g.height(t), 0, 1
  {
    var s1 := s.(executable := s.executable - {t});
    if blocker !in s1.Get(t).blocked {
      if s1.Get(t).blocked == {} {
        MarkAllBlockedOnlyBlocks(g, s1, t, 0);
      }
      var s2 := if s1.Get(t).blocked == {} then MarkAllBlocked(g, s1, t, 0) else s1;
      OnlyBlockedTransitive(s, s1, s2);
      AddBlocker(s, s2, t, blocker);
    }
  }

  lemma {:induction false} MarkAllBlockedOnlyBlocks(g: Graph, s: State, t: TaskId, i: nat)
    requires WellFormed(g) && i <= |g.dependents(t)|
    ensures OnlyBlocked(s, MarkAllBlocked(g, s, t, i))
    ensures forall j :: i <= j < |g.dependents(t)| ==>
      g.dependents(t)[j] !in MarkAllBlocked(g, s, t, i).executable &&
      t in MarkAllBlocked(g, s, t, i).Get(g.dependents(t)[j]).blocked
    decreases g.height(t), 0, 0, |g.dependents(t)| - i
  {
    if i < |g.dependents(t)| {
      var u := g.dependents(t)[i];
      assert u in g.dependents(t);
      MarkBlockedOnlyBlocks(g, s, u, t);
      MarkAllBlockedOnlyBlocks(g, MarkBlocked(g, s, u, t), t, i + 1);
      OnlyBlockedTransitive(s, MarkBlocked(g, s, u, t), MarkAllBlocked(g, s, t, i));
    }
  }

  lemma OnlyBlockedSafe(g: Graph, s: State, r: State, p: set<TaskId>)
    requires OnlyBlocked(s, r) && Safe(g, s, p)
    ensures Safe(g, r, p)
  {
    forall t, d | t in r.executable && d in g.dependencies(t) ensures Vouched(r, t, d, p) {
      assert Vouched(s, t, d, p);
      assert SameStatus(s.Get(d), r.Get(d));
    }
    forall t ensures SameStatus(s.Get(t), r.Get(t)) {}
  }

  lemma {:induction false} BlockDependentsStatus(g: Graph, s: State, t: TaskId, i: nat)
    requires i <= |g.dependents(t)|
    ensures var r := BlockDependents(g, s, t, i);
      && r == s.(tasks := r.tasks)
      && (forall x :: SameStatus(s.Get(x), r.Get(x)) && s.Get(x).blocked <= r.Get(x).blocked <= s.Get(x).blocked + {t})
    decreases |g.dependents(t)| - i
  {
    if i < |g.dependents(t)| {
      var u := g.dependents(t)[i];
      var task := s.Get(u);
      var s1 := if task.Succeeded() then s else s.Put(u, task.(blocked := task.blocked + {t}));
      BlockDependentsStatus(g, s1, t, i + 1);
    }
  }

  lemma BlockDependentsEffect(g: Graph, s: State, t: TaskId, i: nat)
    requires i <= |g.dependents(t)|
    ensures var r := BlockDependents(g, s, t, i);
      && r == s.(tasks := r.tasks)
      && (forall x :: SameStatus(s.Get(x), r.Get(x)) && s.Get(x).blocked <= r.Get(x).blocked <= s.Get(x).blocked + {t})
      && (forall j :: i <= j < |g.dependents(t)| && !s.Get(g.dependents(t)[j]).Succeeded() ==>
            t in r.Get(g.dependents(t)[j]).blocked)
      && (forall x :: x !in g.dependents(t)[i..] || s.Get(x).Succeeded() ==> r.Get(x) == s.Get(x))
  {
    BlockDependentsStatus(g, s, t, i);
    BlockDependentsReach(g, s, t, i);
  }

  lemma {:induction false} BlockDependentsReach(g: Graph, s: State, t: TaskId, i: nat)
    requires i <= |g.dependents(t)|
    ensures var r := BlockDependents(g, s, t, i);
      && (forall x :: s.Get(x).blocked <= r.Get(x).blocked)
      && (forall j :: i <= j < |g.dependents(t)| && !s.Get(g.dependents(t)[j]).Succeeded() ==>
            t in r.Get(g.dependents(t)[j]).blocked)
      && (forall x :: x !in g.dependents(t)[i..] || s.Get(x).Succeeded() ==> r.Get(x) == s.Get(x))
    decreases |g.dependents(t)| - i
  {
    if i < |g.dependents(t)| {
      var u := g.dependents(t)[i];
      var task := s.Get(u);
      var s1 := if task.Succeeded() then s else s.Put(u, task.(blocked := task.blocked + {t}));
      BlockDependentsReach(g, s1, t, i + 1);
      assert g.dependents(t)[i..] == [u] + g.dependents(t)[i + 1..];
    }
  }

  lemma MarkedExecutable(g: Graph, s: State, t: TaskId)
    requires MarkExecutable(g, s, t).state != s && !s.Get(t).Succeeded()
    ensures var r := MarkExecutable(g, s, t).state;
      && Keeps(s, r) && r.executable == s.executable + {t} && r.done == s.done
      && (forall x :: SameStatus(s.Get(x), r.Get(x)) && s.Get(x).blocked <= r.Get(x).blocked <= s.Get(x).blocked + {t})
      && (forall x :: x !in g.dependents(t) ==> r.Get(x) == s.Get(x))
      && !s.Get(t).Running() && s.Get(t).blocked == {} && DependenciesSucceeded(g, s, t)
  {
    var s1 := Forbid(s.(executable := s.executable + {t}), t);
    BlockDependentsEffect(g, s1, t, 0);
    assert g.dependents(t)[0..] == g.dependents(t);
    forall x ensures s1.Get(x) == s.Get(x) {}
  }

  lemma MarkExecutableSafe(g: Graph, s: State, t: TaskId, p: set<TaskId>)
    requires Safe(g, s, p) && t in s.known && !s.Get(t).Succeeded()
    ensures var r := MarkExecutable(g, s, t).state;
      && Safe(g, r, p) && Keeps(s, r)
      && (forall x :: SameStatus(s.Get(x), r.Get(x)) && s.Get(x).blocked <= r.Get(x).blocked <= s.Get(x).blocked + {t})
      && s.executable <= r.executable <= s.executable + {t}
      && r.done == s.done
  {
    var r := MarkExecutable(g, s, t).state;
    if r != s {
      MarkedExecutable(g, s, t);
      forall u, d | u in r.executable && d in g.dependencies(u) ensures Vouched(r, u, d, p) {
        assert SameStatus(s.Get(d), r.Get(d));
        if u != t {
          assert Vouched(s, u, d, p);
        }
      }
    }
  }

  // ---- failing -------------------------------------------------------------------------------

  ghost predicate SameOrFailed(a: Task, b: Task) {
    b == a || (b.Failed() && KeepsTask(a, b) && b.blocked == a.blocked)
  }

  /** Some tasks may have been marked as failed; each of them is in the done queue if it is known. */
  ghost predicate OnlyFailed(s: State, r: State) {
    && r == s.(tasks := r.tasks, done := r.done)
    && (forall x :: SameOrFailed(s.Get(x), r.Get(x)))
    && (forall x :: r.Get(x) != s.Get(x) && x in s.known ==> x in r.done)
    && (forall x :: x in s.done ==> x in r.done)
    && (forall x :: x in r.done ==> x in s.done || r.Get(x).stopped)
  }

  lemma FailPlainlyOnlyFails(s: State, t: TaskId)
    ensures OnlyFailed(s, FailPlainly(s, t))
  {
    var task := s.Get(t).(stopped := true, exception := Some(FailedDependency));
    PutTwice(s, t, task);
    HandedOff(s.Put(t, task), t);
    var r := FailPlainly(s, t);
    forall x ensures SameOrFailed(s.Get(x), r.Get(x)) && (r.Get(x) != s.Get(x) ==> x == t) {
      assert x != t ==> r.Get(x) == s.Put(t, task).Get(x);
    }
  }

  lemma PutTwice(s: State, t: TaskId, task: Task)
    ensures s.Put(t, task).Get(t) == task && s.Put(t, task).Put(t, task) == s.Put(t, task)
  {
    assert s.tasks[t := task][t := task] == s.tasks[t := task];
  }

  lemma OnlyFailedTransitive(s: State, m: State, r: State)
    requires OnlyFailed(s, m) && OnlyFailed(m, r)
    ensures OnlyFailed(s, r)
  {
    forall x
      ensures SameOrFailed(s.Get(x), r.Get(x))
      ensures r.Get(x) != s.Get(x) && x in s.known ==> x in r.done
      ensures x in r.done ==> x in s.done || r.Get(x).stopped
    {
      assert SameOrFailed(s.Get(x), m.Get(x)) && SameOrFailed(m.Get(x), r.Get(x));
    }
  }

  lemma {:induction false} FailAllOnlyFails(s: State, ts: seq<TaskId>)
    ensures OnlyFailed(s, FailAll(s, ts))
    decreases |ts|
  {
    if ts != [] {
      var s1 := FailPlainly(s, ts[0]);
      FailPlainlyOnlyFails(s, ts[0]);
      FailAllOnlyFails(s1, ts[1..]);
      OnlyFailedTransitive(s, s1, FailAll(s1, ts[1..]));
    }
  }

  /** The state in which the record of t was replaced, after its barriers were failed. */
  function Replaced(g: Graph, s: State, t: TaskId, task: Task): State {
    if g.computes(t) && Invalidates(task.exception) then FailAll(s.Put(t, task), g.dependencies(t)) else s.Put(t, task)
  }

  lemma ReplacedOnlyFails(g: Graph, s: State, t: TaskId, task: Task)
    ensures OnlyFailed(s.Put(t, task), Replaced(g, s, t, task)) && s.Put(t, task).Get(t) == task
    ensures var s1 := Replaced(g, s, t, task);
      SignalStop(g, s.Put(t, task), t) == HandOff(s1.Put(t, s1.Get(t).(stopped := true)), t)
  {
    FailAllOnlyFails(s.Put(t, task), g.dependencies(t));
  }

  lemma SignalStopEffect(g: Graph, s: State, t: TaskId, task: Task)
    requires task.blocked == s.Get(t).blocked
    ensures var r := SignalStop(g, s.Put(t, task), t);
      && r == s.(tasks := r.tasks, done := r.done)
      && (forall x :: x != t ==> SameOrFailed(s.Get(x), r.Get(x)))
      && SameOrFailed(task.(stopped := true), r.Get(t))
      && (forall x :: r.Get(x) != s.Get(x) && x in s.known ==> x in r.done)
      && (t in s.known ==> t in r.done)
      && (forall x :: x in s.done ==> x in r.done)
      && (forall x :: x in r.done ==> x in s.done || r.Get(x).stopped)
  {
    var s0 := s.Put(t, task);
    var s1 := Replaced(g, s, t, task);
    var r := SignalStop(g, s0, t);
    ReplacedOnlyFails(g, s, t, task);
    HandedOff(s1, t);
    forall x | x != t
      ensures SameOrFailed(s.Get(x), r.Get(x))
      ensures r.Get(x) != s.Get(x) && x in s.known ==> x in r.done
    {
      assert r.Get(x) == s1.Get(x) && s0.Get(x) == s.Get(x);
      assert SameOrFailed(s0.Get(x), s1.Get(x));
    }
    assert SameOrFailed(s0.Get(t), s1.Get(t));
  }

  lemma HandedOff(s: State, t: TaskId)
    ensures var r := HandOff(s.Put(t, s.Get(t).(stopped := true)), t);
      && r == s.(tasks := r.tasks, done := r.done) && r.Get(t) == s.Get(t).(stopped := true)
      && (forall x :: x != t ==> r.Get(x) == s.Get(x))
      && (forall x :: x in r.done <==> x in s.done || (x == t && t in s.known))
  {
  }

  /** Stopping a task after its record was replaced by `task`. */
  lemma SignalStopSafe(g: Graph, s: State, t: TaskId, task: Task, p: set<TaskId>)
    requires Safe(g, s, p) && Closed(g, s)
    requires task.blocked == s.Get(t).blocked
    requires s.Get(t).stopped ==> task.stopped
    requires t in s.executable ==> (task.exception.None? ==> task.cancelled)
    ensures Safe(g, SignalStop(g, s.Put(t, task), t), p)
    ensures Closed(g, SignalStop(g, s.Put(t, task), t))
  {
    var r := SignalStop(g, s.Put(t, task), t);
    SignalStopEffect(g, s, t, task);
    forall u | u in r.executable
      ensures u in r.known && !r.Get(u).Running() && (r.Get(u).Succeeded() ==> r.Get(u).cancelled)
    {
      assert u != t ==> SameOrFailed(s.Get(u), r.Get(u));
    }
    forall x | x in r.done ensures r.Get(x).stopped {
      assert x != t ==> SameOrFailed(s.Get(x), r.Get(x));
    }
    forall x | r.Get(x).Running() ensures r.Get(x).exception.None? {
      assert x != t ==> SameOrFailed(s.Get(x), r.Get(x));
    }
    forall u, d | u in r.executable && d in g.dependencies(u) ensures Vouched(r, u, d, p) {
      assert Vouched(s, u, d, p);
      assert r.Get(d) == s.Get(d) || d in r.done;
      assert r.Get(u).blocked == s.Get(u).blocked by {
        assert u != t ==> SameOrFailed(s.Get(u), r.Get(u));
      }
    }
  }

  lemma MarkFailedEffect(g: Graph, s: State, t: TaskId, failure: Failure)
    ensures var r := MarkFailed(g, s, t, failure);
      && OnlyFailed(s, r) && r.Get(t).Failed() && (t in s.known ==> t in r.done)
      && (failure.GeneralFailure? ==> forall x :: x != t ==> r.Get(x) == s.Get(x))
  {
    var task := s.Get(t).(stopped := true, exception := Some(failure));
    SignalStopEffect(g, s, t, task);
  }

  lemma OnlyFailedSafe(g: Graph, s: State, r: State, p: set<TaskId>)
    requires OnlyFailed(s, r) && Safe(g, s, p) && Closed(g, s)
    ensures Safe(g, r, p) && Closed(g, r)
  {
    forall x ensures SameOrFailed(s.Get(x), r.Get(x)) {}
    forall t, d | t in r.executable && d in g.dependencies(t) ensures Vouched(r, t, d, p) {
      assert Vouched(s, t, d, p);
      assert r.Get(d) == s.Get(d) || d in r.done;
      assert SameOrFailed(s.Get(t), r.Get(t));
    }
  }

  lemma OnlyFailedKeeps(s: State, r: State)
    requires OnlyFailed(s, r)
    ensures Keeps(s, r)
  {
    forall x ensures KeepsTask(s.Get(x), r.Get(x)) {
      assert SameOrFailed(s.Get(x), r.Get(x));
    }
  }
  lemma OnlyBlockedKeeps(s: State, r: State)
    requires OnlyBlocked(s, r)
    ensures Keeps(s, r)
  {
    forall x ensures KeepsTask(s.Get(x), r.Get(x)) {
      assert SameStatus(s.Get(x), r.Get(x));
    }
  }

  lemma KeepsTransitive(s: State, m: State, r: State)
    requires Keeps(s, m) && Keeps(m, r)
    ensures Keeps(s, r)
  {
    forall x ensures KeepsTask(s.Get(x), r.Get(x)) {
      assert KeepsTask(s.Get(x), m.Get(x)) && KeepsTask(m.Get(x), r.Get(x));
    }
    forall e ensures s.Forbidden(e) <= r.Forbidden(e) {
      assert s.Forbidden(e) <= m.Forbidden(e) && m.Forbidden(e) <= r.Forbidden(e);
    }
  }

  lemma AboveTransitive(g: Graph, h: int, s: State, m: State, r: State)
    requires Above(g, h, s, m) && Above(g, h, m, r)
    ensures Above(g, h, s, r)
  {
    forall x | g.height(x) >= h ensures SameStatus(s.Get(x), r.Get(x)) {
      assert SameStatus(s.Get(x), m.Get(x)) && SameStatus(m.Get(x), r.Get(x));
    }
  }

  // ---- handling a notification ----------------------------------------------------------------

  /** Slots, ready executors and emitted results play no role in safety. */
  ghost predicate SameTasks(s: State, r: State) {
    && r == s.(slots := r.slots, executing := r.executing, ready := r.ready, emitted := r.emitted)
    && s.emitted <= r.emitted && Entries(s, r) && Readies(s, r)
  }

  lemma TouchSameTasks(s: State, e: Option<Executor>)
    ensures SameTasks(s, s.Touch(e))
  {
    assert e in s.slots + [e];
  }

  lemma SameTasksSafe(g: Graph, h: int, s: State, r: State, p: set<TaskId>)
    requires SameTasks(s, r)
    ensures Keeps(s, r) && Above(g, h, s, r)
    ensures Safe(g, s, p) ==> Safe(g, r, p)
  {
    forall x ensures r.Get(x) == s.Get(x) {}
    forall e ensures r.Forbidden(e) == s.Forbidden(e) {}
    if Safe(g, s, p) {
      forall t, d | t in r.executable && d in g.dependencies(t) ensures Vouched(r, t, d, p) {
        assert Vouched(s, t, d, p);
      }
    }
  }

  lemma {:induction false} TaskDoneSafe(g: Graph, s: State, t: TaskId, p: set<TaskId>)
    requires WellFormed(g) && Closed(g, s) && Safe(g, s, p + {t}) && s.Get(t).stopped
    ensures var r := TaskDone(g, s, t).state;
      && Safe(g, r, p) && Keeps(s, r)
      && (s.Get(t).Succeeded() ==> Above(g, g.height(t) + 1, s, r))
    decreases g.height(t), 2
  {
    if t !in s.known {
      forall u, d | u in s.executable && d in g.dependencies(u) ensures Vouched(s, u, d, p) {
        assert Vouched(s, u, d, p + {t});
        assert u in s.known;
      }
    } else {
      var s0 := s.Touch(s.Get(t).LastExecutedOn());
      TouchSameTasks(s, s.Get(t).LastExecutedOn());
      SameTasksSafe(g, g.height(t) + 1, s, s0, p + {t});
      assert s0.Get(t) == s.Get(t);
      if s0.Get(t).Succeeded() {
        var handled := TaskSucceeded(g, s0, t, 0);
        TaskSucceededSafe(g, s0, t, 0, p);
        AboveWeakens(g, g.height(t), s0, handled.state);
        KeepsTransitive(s, s0, handled.state);
        AboveTransitive(g, g.height(t) + 1, s, s0, handled.state);
        Settled(g, s, handled, t, s.Get(t).LastExecutedOn(), p);
      } else {
        var handled := TaskFailed(g, s0, t);
        TaskFailedSafe(g, s0, t, p);
        KeepsTransitive(s, s0, handled.state);
        SafeWeakens(g, handled.state, p, p + {t});
        Settled(g, s, handled, t, s.Get(t).LastExecutedOn(), p);
      }
    }
  }

  lemma AboveWeakens(g: Graph, h: int, s: State, r: State)
    requires Above(g, h, s, r)
    ensures Above(g, h + 1, s, r)
  {
  }

  /** What TaskDone does once the notification of t has been handled. */
  lemma Settled(g: Graph, s: State, handled: Outcome, t: TaskId, e: Option<Executor>, p: set<TaskId>)
    requires Closed(g, s) && t in s.known && Keeps(s, handled.state)
    requires if handled.raised then Safe(g, handled.state, p + {t}) else Safe(g, handled.state, p)
    ensures var s1 := if handled.raised then MarkFailed(g, handled.state, t, GeneralFailure) else handled.state;
      var r := FreeSlot(s1, t, e).state;
      && Safe(g, r, p) && Keeps(s, r)
      && (Above(g, g.height(t) + 1, s, handled.state) ==> Above(g, g.height(t) + 1, s, r))
  {
    if handled.raised {
      RaisedAfter(g, s, handled.state, t, p);
      FreedSlot(g, g.height(t) + 1, s, MarkFailed(g, handled.state, t, GeneralFailure), t, e, p);
    } else {
      FreedSlot(g, g.height(t) + 1, s, handled.state, t, e, p);
    }
  }

  lemma FreeSlotSameTasks(s: State, t: TaskId, e: Option<Executor>)
    ensures SameTasks(s, FreeSlot(s, t, e).state)
  {
  }

  lemma FreedSlot(g: Graph, h: int, s: State, m: State, t: TaskId, e: Option<Executor>, p: set<TaskId>)
    requires Safe(g, m, p) && Keeps(s, m)
    ensures var r := FreeSlot(m, t, e).state; Safe(g, r, p) && Keeps(s, r) && (Above(g, h, s, m) ==> Above(g, h, s, r))
  {
    FreeSlotSameTasks(m, t, e);
    Freed(g, h, s, m, FreeSlot(m, t, e).state, p);
  }

  lemma RaisedAfter(g: Graph, s: State, m: State, t: TaskId, p: set<TaskId>)
    requires Closed(g, s) && t in s.known && Keeps(s, m) && Safe(g, m, p + {t})
    ensures var r := MarkFailed(g, m, t, GeneralFailure);
      && Safe(g, r, p) && Keeps(s, r) && (Above(g, g.height(t) + 1, s, m) ==> Above(g, g.height(t) + 1, s, r))
  {
    var r := MarkFailed(g, m, t, GeneralFailure);
    Raised(g, m, t, p);
    KeepsTransitive(s, m, r);
    if Above(g, g.height(t) + 1, s, m) {
      AboveTransitive(g, g.height(t) + 1, s, m, r);
    }
  }

  lemma Freed(g: Graph, h: int, s: State, m: State, r: State, p: set<TaskId>)
    requires Safe(g, m, p) && Keeps(s, m) && SameTasks(m, r)
    ensures Safe(g, r, p) && Keeps(s, r) && (Above(g, h, s, m) ==> Above(g, h, s, r))
  {
    SameTasksSafe(g, h, m, r, p);
    KeepsTransitive(s, m, r);
    if Above(g, h, s, m) {
      AboveTransitive(g, h, s, m, r);
    }
  }

  /** An assertion error while t is handled puts t back into the done queue, as a failure. */
  lemma Raised(g: Graph, s: State, t: TaskId, p: set<TaskId>)
    requires Closed(g, s) && Safe(g, s, p + {t}) && t in s.known
    ensures var r := MarkFailed(g, s, t, GeneralFailure);
      Safe(g, r, p) && Keeps(s, r) && Above(g, g.height(t) + 1, s, r)
  {
    var r := MarkFailed(g, s, t, GeneralFailure);
    MarkFailedEffect(g, s, t, GeneralFailure);
    OnlyFailedSafe(g, s, r, p + {t});
    OnlyFailedKeeps(s, r);
    forall u, d | u in r.executable && d in g.dependencies(u) ensures Vouched(r, u, d, p) {
      assert Vouched(r, u, d, p + {t});
    }
    forall x ensures r.Get(x).blocked == s.Get(x).blocked {
      assert SameOrFailed(s.Get(x), r.Get(x));
    }
  }

  lemma {:induction false} UnblockSafe(g: Graph, s: State, t: TaskId, u: TaskId, p: set<TaskId>)
    requires WellFormed(g) && Closed(g, s) && Safe(g, s, p + {t}) && u in g.dependents(t) && t in s.known
    ensures var r := Unblock(g, s, t, u);
      && Safe(g, r.state, p + {t}) && Keeps(s, r.state) && Above(g, g.height(t), s, r.state)
      && t !in r.state.Get(u).blocked
    decreases g.height(t), 1, 0
  {
    var task := s.Get(u);
    if task.blocked == {} {
      assert s == Unblock(g, s, t, u).state;
    } else {
      var s1 := s.Put(u, task.(blocked := task.blocked - {t}));
      Unblocked(g, s, u, t, p + {t});
      if task.blocked - {t} == {} {
        var r := Unblock(g, s, t, u);
        if task.Succeeded() {
          SafeWeakens(g, s1, p + {t}, p + {t} + {u});
          TaskDoneSafe(g, s1, u, p + {t});
        } else {
          MarkExecutableSafe(g, s1, u, p + {t});
        }
        assert Above(g, g.height(t), s1, r.state);
        KeepsTransitive(s, s1, r.state);
        AboveTransitive(g, g.height(t), s, s1, r.state);
      }
    }
  }

  lemma {:induction false} TaskSucceededSafe(g: Graph, s: State, t: TaskId, i: nat, p: set<TaskId>)
    requires WellFormed(g) && Closed(g, s) && Safe(g, s, p + {t}) && i <= |g.dependents(t)|
    requires t in s.known && s.Get(t).Succeeded()
    requires forall j :: 0 <= j < i ==> t !in s.Get(g.dependents(t)[j]).blocked
    ensures var r := TaskSucceeded(g, s, t, i);
      && Safe(g, r.state, p + {t}) && Keeps(s, r.state) && Above(g, g.height(t), s, r.state)
      && (!r.raised ==> Safe(g, r.state, p) && forall u :: u in g.dependents(t) ==> t !in r.state.Get(u).blocked)
    decreases g.height(t), 1, |g.dependents(t)| - i + 1
  {
    var r := TaskSucceeded(g, s, t, i);
    if i == |g.dependents(t)| {
      SameTasksSafe(g, g.height(t), s, r.state, p + {t});
      forall u, d | u in r.state.executable && d in g.dependencies(u) ensures Vouched(r.state, u, d, p) {
        assert Vouched(r.state, u, d, p + {t});
        assert d == t ==> u in g.dependents(t);
      }
    } else {
      var u := g.dependents(t)[i];
      assert u in g.dependents(t);
      var m := Unblock(g, s, t, u);
      UnblockSafe(g, s, t, u, p);
      if !m.raised {
        assert SameStatus(s.Get(t), m.state.Get(t));
        TaskSucceededSafe(g, m.state, t, i + 1, p);
        KeepsTransitive(s, m.state, r.state);
        AboveTransitive(g, g.height(t), s, m.state, r.state);
      }
    }
  }

  lemma SafeWeakens(g: Graph, s: State, p: set<TaskId>, q: set<TaskId>)
    requires Safe(g, s, p) && p <= q
    ensures Safe(g, s, q)
  {
    forall t, d | t in s.executable && d in g.dependencies(t) ensures Vouched(s, t, d, q) {
      assert Vouched(s, t, d, p);
    }
  }

  lemma Unblocked(g: Graph, s: State, u: TaskId, t: TaskId, p: set<TaskId>)
    requires Safe(g, s, p)
    ensures var r := s.Put(u, s.Get(u).(blocked := s.Get(u).blocked - {t}));
      && Safe(g, r, p) && Keeps(s, r) && (forall h :: Above(g, h, s, r))
      && forall x :: r.Get(x).blocked <= s.Get(x).blocked
  {
    var r := s.Put(u, s.Get(u).(blocked := s.Get(u).blocked - {t}));
    forall v, d | v in r.executable && d in g.dependencies(v) ensures Vouched(r, v, d, p) {
      assert Vouched(s, v, d, p);
    }
    forall x ensures SameStatus(s.Get(x), r.Get(x)) && r.Get(x).blocked <= s.Get(x).blocked {}
    forall e ensures s.Forbidden(e) == r.Forbidden(e) {}
  }

  lemma AllBlockedSafe(g: Graph, s: State, t: TaskId, p: set<TaskId>)
    requires WellFormed(g) && Closed(g, s) && Safe(g, s, p + {t}) && s.Get(t).Failed()
    ensures var r := MarkAllBlocked(g, s, t, 0);
      Safe(g, r, p) && Closed(g, r) && Keeps(s, r) && SameStatus(s.Get(t), r.Get(t))
  {
    var r := MarkAllBlocked(g, s, t, 0);
    MarkAllBlockedOnlyBlocks(g, s, t, 0);
    OnlyBlockedSafe(g, s, r, p + {t});
    OnlyBlockedKeeps(s, r);
    assert SameStatus(s.Get(t), r.Get(t));
    forall u, d | u in r.executable && d in g.dependencies(u) ensures Vouched(r, u, d, p) {
      assert Vouched(r, u, d, p + {t});
      assert d == t ==> u in g.dependents(t);
    }
  }

  lemma DropReadySafe(g: Graph, s: State, e: Option<Executor>, p: set<TaskId>)
    requires Safe(g, s, p)
    ensures Safe(g, DropReady(s, e), p) && Keeps(s, DropReady(s, e))
  {
    if e.Some? {
      DropFirstSubset(s.ready, e.value);
    }
    SameTasksSafe(g, 0, s, DropReady(s, e), p);
  }

  lemma TaskFailedSafe(g: Graph, s: State, t: TaskId, p: set<TaskId>)
    requires WellFormed(g) && Closed(g, s) && Safe(g, s, p + {t})
    requires t in s.known && s.Get(t).Failed()
    ensures Safe(g, TaskFailed(g, s, t).state, p) && Keeps(s, TaskFailed(g, s, t).state)
  {
    var s1 := MarkAllBlocked(g, s, t, 0);
    AllBlockedSafe(g, s, t, p);
    var r := TaskFailed(g, s, t).state;
    match s.Get(t).exception.value
    case DependenciesFailed(lost) =>
      DependenciesLostSafe(g, s1, t, lost, p);
      KeepsTransitive(s, s1, r);
    case NotConnected =>
      TransientFailureSafe(g, s1, t, p);
      var m := TransientFailure(g, s1, t).state;
      DropReadySafe(g, m, s1.Get(t).LastExecutedOn(), p);
      KeepsTransitive(s, s1, m);
      KeepsTransitive(s, m, r);
    case FailedDependency =>
      TransientFailureSafe(g, s1, t, p);
      KeepsTransitive(s, s1, r);
    case GeneralFailure =>
      GeneralFailureSafe(g, s1, t, p);
      KeepsTransitive(s, s1, r);
  }

  lemma TransientFailureSafe(g: Graph, s: State, t: TaskId, p: set<TaskId>)
    requires Safe(g, s, p) && t in s.known && s.Get(t).Failed()
    ensures Safe(g, TransientFailure(g, s, t).state, p) && Keeps(s, TransientFailure(g, s, t).state)
  {
    MarkExecutableSafe(g, s, t, p);
  }

  lemma ChargeSafe(g: Graph, s: State, t: TaskId, p: set<TaskId>)
    requires Safe(g, s, p)
    ensures var r := Charge(s, t);
      Safe(g, r, p) && Keeps(s, r) && r == s.(forbidden := r.forbidden) && r.Get(t) == s.Get(t)
  {
    var r := Charge(s, t);
    forall x ensures r.Get(x) == s.Get(x) {}
    forall u, d | u in r.executable && d in g.dependencies(u) ensures Vouched(r, u, d, p) {
      assert Vouched(s, u, d, p);
    }
  }

  lemma GeneralFailureSafe(g: Graph, s: State, t: TaskId, p: set<TaskId>)
    requires Safe(g, s, p) && t in s.known && s.Get(t).Failed()
    ensures var r := TransientFailure(g, Charge(s, t), t).state; Safe(g, r, p) && Keeps(s, r)
    ensures Safe(g, Emit(s, t), p) && Keeps(s, Emit(s, t))
  {
    ChargeSafe(g, s, t, p);
    TransientFailureSafe(g, Charge(s, t), t, p);
    KeepsTransitive(s, Charge(s, t), TransientFailure(g, Charge(s, t), t).state);
    SameTasksSafe(g, 0, s, Emit(s, t), p);
  }

  lemma {:induction false} DependenciesLostSafe(g: Graph, s: State, t: TaskId, lost: seq<Lost>, p: set<TaskId>)
    requires Closed(g, s) && Safe(g, s, p) && t in s.known && s.Get(t).Failed()
    ensures Safe(g, DependenciesLost(g, s, t, lost).state, p) && Keeps(s, DependenciesLost(g, s, t, lost).state)
    decreases |lost|
  {
    if lost == [] {
      TransientFailureSafe(g, s, t, p);
    } else if lost[0].task !in s.known {
      MarkFailedEffect(g, s, t, GeneralFailure);
      OnlyFailedSafe(g, s, MarkFailed(g, s, t, GeneralFailure), p);
      OnlyFailedKeeps(s, MarkFailed(g, s, t, GeneralFailure));
    } else if IsLost(s.Get(lost[0].task), lost[0]) {
      var m := MarkFailed(g, s, lost[0].task, FailedDependency);
      MarkFailedEffect(g, s, lost[0].task, FailedDependency);
      OnlyFailedSafe(g, s, m, p);
      OnlyFailedKeeps(s, m);
      assert SameOrFailed(s.Get(t), m.Get(t));
      DependenciesLostSafe(g, m, t, lost[1..], p);
      KeepsTransitive(s, m, DependenciesLost(g, s, t, lost).state);
    } else {
      DependenciesLostSafe(g, s, t, lost[1..], p);
    }
  }
}

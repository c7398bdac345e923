/**
 Draining the queue of notifications: handling one may add others, because a failed assertion fails
 the task again.  A potential falls with each notification, unless it is of a task whose retry fails
 an assertion once more.
 */
module SchedulerDraining {
  import opened Sequences
  import opened SchedulerModel
  import opened SchedulerSafety

  // ---- the potential -------------------------------------------------------------------------

  /** What handling a task may still cost: nothing once it has failed in its own right. */
  function Weight(g: Graph, t: TaskId, task: Task): nat {
    if !task.Failed() then 2 + 2 * |g.dependencies(t)|
    else if task.exception.value.GeneralFailure? then 0
    else 1
  }

  function Weigh(g: Graph, s: State, ks: seq<TaskId>): nat {
    if ks == [] then 0 else Weight(g, ks[0], s.Get(ks[0])) + Weigh(g, s, ks[1..])
  }

  /** The weights of the tasks and the notifications that wait. */
  function Potential(g: Graph, s: State, ks: seq<TaskId>): nat { Weigh(g, s, ks) + |s.done| }

  /** Each known task, and none twice. */
  ghost predicate Roster(s: State, ks: seq<TaskId>) {
    && NoDuplicates(ks)
    && forall t :: t in s.known ==> t in ks
  }

  lemma {:induction false} WeighSame(g: Graph, s: State, r: State, ks: seq<TaskId>)
    requires forall x :: x in ks ==> Weight(g, x, r.Get(x)) == Weight(g, x, s.Get(x))
    ensures Weigh(g, r, ks) == Weigh(g, s, ks)
  {
    if ks != [] {
      WeighSame(g, s, r, ks[1..]);
    }
  }

  /** Only the weight of t changed. */
  lemma {:induction false} WeighOne(g: Graph, s: State, r: State, ks: seq<TaskId>, t: TaskId)
    requires forall x :: x != t ==> Weight(g, x, r.Get(x)) == Weight(g, x, s.Get(x))
    requires NoDuplicates(ks)
    ensures t !in ks ==> Weigh(g, r, ks) == Weigh(g, s, ks)
    ensures t in ks ==> Weigh(g, r, ks) + Weight(g, t, s.Get(t)) == Weigh(g, s, ks) + Weight(g, t, r.Get(t))
  {
    if ks != [] {
      if ks[0] == t {
        assert t !in ks[1..];
        WeighSame(g, s, r, ks[1..]);
      } else {
        assert t in ks <==> t in ks[1..];
        WeighOne(g, s, r, ks[1..], t);
      }
    }
  }

  lemma SamePotential(g: Graph, s: State, r: State, ks: seq<TaskId>)
    requires (forall x :: SameStatus(s.Get(x), r.Get(x))) && |r.done| == |s.done|
    ensures Potential(g, r, ks) == Potential(g, s, ks)
  {
    forall x | x in ks ensures Weight(g, x, r.Get(x)) == Weight(g, x, s.Get(x)) {
      assert SameStatus(s.Get(x), r.Get(x));
    }
    WeighSame(g, s, r, ks);
  }

  // ---- failing -------------------------------------------------------------------------------

  lemma FailPlainlyOnlyLoses(s: State, d: TaskId)
    ensures var r := FailPlainly(s, d);
      && (forall x :: x != d ==> r.Get(x) == s.Get(x)) && r.known == s.known && |r.done| <= |s.done| + 1
      && r.Get(d) == s.Get(d).(stopped := true, exception := Some(FailedDependency))
  {
  }

  lemma FailPlainlyCosts(g: Graph, s: State, d: TaskId, ks: seq<TaskId>)
    requires Roster(s, ks)
    ensures Potential(g, FailPlainly(s, d), ks) <= Potential(g, s, ks) + 2 && Roster(FailPlainly(s, d), ks)
  {
    var r := FailPlainly(s, d);
    FailPlainlyOnlyLoses(s, d);
    WeighOne(g, s, r, ks, d);
  }

  lemma {:induction false} FailAllCosts(g: Graph, s: State, ds: seq<TaskId>, ks: seq<TaskId>)
    requires Roster(s, ks)
    ensures Potential(g, FailAll(s, ds), ks) <= Potential(g, s, ks) + 2 * |ds| && Roster(FailAll(s, ds), ks)
    decreases |ds|
  {
    if ds != [] {
      FailPlainlyCosts(g, s, ds[0], ks);
      FailAllCosts(g, FailPlainly(s, ds[0]), ds[1..], ks);
    }
  }

  /** Failing in its own right uses up the weight of a task. */
  lemma FailGenerallyCosts(g: Graph, s: State, t: TaskId, ks: seq<TaskId>)
    requires Roster(s, ks) && t in s.known
    ensures var r := MarkFailed(g, s, t, GeneralFailure);
      && Potential(g, r, ks) + Weight(g, t, s.Get(t)) == Potential(g, s, ks) + 1
      && (forall x :: x != t ==> r.Get(x) == s.Get(x))
      && r == s.(tasks := r.tasks, done := s.done + [t])
      && r.Get(t) == s.Get(t).(stopped := true, exception := Some(GeneralFailure))
  {
    var r := MarkFailed(g, s, t, GeneralFailure);
    var s1 := s.Put(t, s.Get(t).(stopped := true, exception := Some(GeneralFailure)));
    assert s1.Get(t).exception == Some(GeneralFailure);
    assert r == HandOff(s1.Put(t, s1.Get(t).(stopped := true)), t);
    assert forall x :: x != t ==> r.Get(x) == s.Get(x);
    WeighOne(g, s, r, ks, t);
  }

  /** Tasks that lose their input only change to that failure. */
  ghost predicate OnlyLost(s: State, r: State) {
    forall x :: r.Get(x) == s.Get(x) || r.Get(x) == s.Get(x).(stopped := true, exception := Some(FailedDependency))
  }

  lemma {:induction false} FailAllOnlyLoses(s: State, ds: seq<TaskId>)
    ensures OnlyLost(s, FailAll(s, ds)) && FailAll(s, ds).known == s.known
    decreases |ds|
  {
    if ds != [] {
      var m := FailPlainly(s, ds[0]);
      FailPlainlyOnlyLoses(s, ds[0]);
      FailAllOnlyLoses(m, ds[1..]);
    }
  }

  const InputLost := Some(FailedDependency)

  lemma LoseOne(g: Graph, s: State, d: TaskId, ks: seq<TaskId>)
    requires Roster(s, ks) && d in s.known && !s.Get(d).Failed()
    ensures var s1 := s.Put(d, s.Get(d).(stopped := true, exception := InputLost));
      && Potential(g, s1, ks) + 1 + 2 * |g.dependencies(d)| == Potential(g, s, ks)
      && OnlyLost(s, s1) && s1.Get(d).stopped && s1.Get(d).exception == InputLost
  {
    var s1 := s.Put(d, s.Get(d).(stopped := true, exception := InputLost));
    assert forall x :: x != d ==> s1.Get(x) == s.Get(x);
    WeighOne(g, s, s1, ks, d);
  }

  lemma HandOffCosts(g: Graph, s: State, d: TaskId, ks: seq<TaskId>)
    requires s.Get(d).stopped
    ensures var r := HandOff(s.Put(d, s.Get(d).(stopped := true)), d);
      Potential(g, r, ks) <= Potential(g, s, ks) + 1 && (forall x :: r.Get(x) == s.Get(x)) && r.known == s.known
  {
    var r := HandOff(s.Put(d, s.Get(d).(stopped := true)), d);
    assert forall x :: r.Get(x) == s.Get(x);
    WeighSame(g, s, r, ks);
  }

  /** The weight of a task that had not failed covers the failure of its barriers. */
  lemma LoseCosts(g: Graph, s: State, d: TaskId, ks: seq<TaskId>)
    requires Roster(s, ks) && d in s.known && !s.Get(d).Failed()
    ensures var r := MarkFailed(g, s, d, FailedDependency);
      Potential(g, r, ks) <= Potential(g, s, ks) && OnlyLost(s, r) && r.known == s.known
  {
    var s1 := s.Put(d, s.Get(d).(stopped := true, exception := InputLost));
    LoseOne(g, s, d, ks);
    var s2 := if g.computes(d) then FailAll(s1, g.dependencies(d)) else s1;
    FailAllCosts(g, s1, g.dependencies(d), ks);
    FailAllOnlyLoses(s1, g.dependencies(d));
    assert s2.Get(d) == s1.Get(d);
    HandOffCosts(g, s2, d, ks);
    assert MarkFailed(g, s, d, FailedDependency) == HandOff(s2.Put(d, s2.Get(d).(stopped := true)), d);
  }

  // ---- the handlers --------------------------------------------------------------------------

  lemma MarkExecutableCosts(g: Graph, s: State, t: TaskId, ks: seq<TaskId>)
    ensures var r := MarkExecutable(g, s, t);
      && Potential(g, r.state, ks) == Potential(g, s, ks) && r.state.known == s.known
      && (forall x :: SameStatus(s.Get(x), r.state.Get(x)))
  {
    var r := MarkExecutable(g, s, t).state;
    var m := if s.Get(t).Succeeded() then s else Forbid(s.(executable := s.executable + {t}), t);
    assert forall x :: m.Get(x) == s.Get(x);
    BlockDependentsStatus(g, m, t, 0);
    forall x ensures SameStatus(s.Get(x), r.Get(x)) {
      assert SameStatus(m.Get(x), BlockDependents(g, m, t, 0).Get(x));
    }
    SamePotential(g, s, r, ks);
  }

  lemma {:induction false} DependenciesLostCosts(g: Graph, s: State, t: TaskId, lost: seq<Lost>, ks: seq<TaskId>)
    requires Roster(s, ks) && t in s.known && Weight(g, t, s.Get(t)) == 1
    ensures var r := DependenciesLost(g, s, t, lost);
      && Potential(g, r.state, ks) <= Potential(g, s, ks) && r.state.known == s.known
      && (r.raised ==> Weight(g, t, r.state.Get(t)) == 1)
    decreases |lost|
  {
    if lost == [] {
      MarkExecutableCosts(g, s, t, ks);
      assert SameStatus(s.Get(t), MarkExecutable(g, s, t).state.Get(t));
    } else if lost[0].task !in s.known {
      FailGenerallyCosts(g, s, t, ks);
    } else if IsLost(s.Get(lost[0].task), lost[0]) {
      var m := MarkFailed(g, s, lost[0].task, FailedDependency);
      LoseCosts(g, s, lost[0].task, ks);
      assert m.Get(t) == s.Get(t) || m.Get(t).exception == Some(FailedDependency);
      DependenciesLostCosts(g, m, t, lost[1..], ks);
    } else {
      DependenciesLostCosts(g, s, t, lost[1..], ks);
    }
  }

  /** Blocking the dependents of t leaves alone what is at least as high. */
  lemma {:induction false} MarkBlockedBelow(g: Graph, s: State, u: TaskId, blocker: TaskId, x: TaskId)
    requires WellFormed(g) && g.height(x) > g.height(u)
    ensures var r := MarkBlocked(g, s, u, blocker); r.Get(x) == s.Get(x) && (x in r.executable <==> x in s.executable)
    decreases g.height(u), 0, 1
  {
    var s1 := s.(executable := s.executable - {u});
    assert s1.Get(x) == s.Get(x) && s1.Get(u) == s.Get(u);
    if blocker !in s1.Get(u).blocked && s1.Get(u).blocked == {} {
      MarkAllBlockedBelow(g, s1, u, 0, x);
    }
  }

  lemma {:induction false} MarkAllBlockedBelow(g: Graph, s: State, t: TaskId, i: nat, x: TaskId)
    requires WellFormed(g) && i <= |g.dependents(t)| && g.height(x) >= g.height(t)
    ensures var r := MarkAllBlocked(g, s, t, i); r.Get(x) == s.Get(x) && (x in r.executable <==> x in s.executable)
    decreases g.height(t), 0, 0, |g.dependents(t)| - i
  {
    if i < |g.dependents(t)| {
      var u := g.dependents(t)[i];
      assert u in g.dependents(t);
      MarkBlockedBelow(g, s, u, t, x);
      MarkAllBlockedBelow(g, MarkBlocked(g, s, u, t), t, i + 1, x);
    }
  }

  /** A task to be retried that nothing blocks, though a dependency has not succeeded: the retry fails an assertion. */
  predicate RetryRaises(g: Graph, s: State, t: TaskId) {
    && s.Get(t).Failed() && s.Get(t).exception.value.GeneralFailure? && |s.Get(t).executedOn| < g.maxAttempts(t)
    && s.Get(t).blocked == {} && t !in s.executable && !DependenciesSucceeded(g, s, t)
  }

  lemma SameDependenciesSucceeded(g: Graph, s: State, r: State, t: TaskId)
    requires forall x :: SameStatus(s.Get(x), r.Get(x))
    ensures DependenciesSucceeded(g, r, t) == DependenciesSucceeded(g, s, t)
  {
    forall d ensures r.Get(d).Succeeded() == s.Get(d).Succeeded() {
      assert SameStatus(s.Get(d), r.Get(d));
    }
  }

  /** After blocking its dependents, t itself is as before. */
  lemma BlockedDependents(g: Graph, s: State, t: TaskId, ks: seq<TaskId>)
    requires WellFormed(g)
    ensures var m := MarkAllBlocked(g, s, t, 0);
      && Potential(g, m, ks) == Potential(g, s, ks) && m.known == s.known && m.done == s.done
      && m.Get(t) == s.Get(t) && (t in m.executable <==> t in s.executable)
      && (forall x :: SameStatus(s.Get(x), m.Get(x)))
      && DependenciesSucceeded(g, m, t) == DependenciesSucceeded(g, s, t)
  {
    var m := MarkAllBlocked(g, s, t, 0);
    MarkAllBlockedOnlyBlocks(g, s, t, 0);
    MarkAllBlockedBelow(g, s, t, 0, t);
    assert forall x :: SameStatus(s.Get(x), m.Get(x));
    SamePotential(g, s, m, ks);
    SameDependenciesSucceeded(g, s, m, t);
  }

  lemma GeneralFailureCosts(g: Graph, s: State, t: TaskId, ks: seq<TaskId>)
    requires WellFormed(g) && s.Get(t).Failed() && s.Get(t).exception.value.GeneralFailure?
    ensures var r := TaskFailed(g, s, t);
      && Potential(g, r.state, ks) == Potential(g, s, ks) && r.state.known == s.known
      && (r.raised <==> RetryRaises(g, s, t))
      && (forall x :: SameStatus(s.Get(x), r.state.Get(x))) && r.state.done == s.done
  {
    var m := MarkAllBlocked(g, s, t, 0);
    BlockedDependents(g, s, t, ks);
    if |s.Get(t).executedOn| < g.maxAttempts(t) {
      var e := m.Get(t).LastExecutedOn();
      var f := m.(forbidden := m.forbidden[e := m.Forbidden(e) + {t}]);
      assert forall x :: f.Get(x) == m.Get(x);
      SameDependenciesSucceeded(g, m, f, t);
      SamePotential(g, m, f, ks);
      MarkExecutableCosts(g, f, t, ks);
      MarkExecutableKeepsDone(g, f, t);
      RetrySame(g, s, m, f, t);
    } else {
      assert forall x :: Emit(m, t).Get(x) == m.Get(x);
      SamePotential(g, m, Emit(m, t), ks);
    }
  }

  lemma MarkExecutableKeepsDone(g: Graph, s: State, t: TaskId)
    ensures MarkExecutable(g, s, t).state.done == s.done
  {
    var m := if s.Get(t).Succeeded() then s else Forbid(s.(executable := s.executable + {t}), t);
    BlockDependentsStatus(g, m, t, 0);
  }

  lemma RetrySame(g: Graph, s: State, m: State, f: State, t: TaskId)
    requires f.Get(t) == m.Get(t) == s.Get(t) && f.executable == m.executable
      && (t in m.executable <==> t in s.executable)
    requires DependenciesSucceeded(g, f, t) == DependenciesSucceeded(g, s, t)
    requires (forall x :: SameStatus(s.Get(x), m.Get(x))) && forall x :: f.Get(x) == m.Get(x)
    requires s.Get(t).Failed() && s.Get(t).exception.value.GeneralFailure? && |s.Get(t).executedOn| < g.maxAttempts(t)
    ensures TransientFailure(g, f, t).raised <==> RetryRaises(g, s, t)
    ensures forall x :: SameStatus(s.Get(x), f.Get(x))
  {
  }

  lemma TaskFailedCosts(g: Graph, s: State, t: TaskId, ks: seq<TaskId>)
    requires WellFormed(g) && Roster(s, ks) && t in s.known && s.Get(t).Failed()
    ensures var r := TaskFailed(g, s, t);
      && Potential(g, r.state, ks) <= Potential(g, s, ks) && r.state.known == s.known
      && (r.raised ==> Weight(g, t, r.state.Get(t)) == 1 || RetryRaises(g, s, t))
  {
    var m := MarkAllBlocked(g, s, t, 0);
    match s.Get(t).exception.value
    case DependenciesFailed(lost) =>
      BlockedDependents(g, s, t, ks);
      DependenciesLostCosts(g, m, t, lost, ks);
    case NotConnected =>
      BlockedDependents(g, s, t, ks);
      MarkExecutableCosts(g, m, t, ks);
      DropCosts(g, TransientFailure(g, m, t).state, m.Get(t).LastExecutedOn(), ks);
      assert SameStatus(m.Get(t), MarkExecutable(g, m, t).state.Get(t));
    case FailedDependency =>
      BlockedDependents(g, s, t, ks);
      MarkExecutableCosts(g, m, t, ks);
      assert SameStatus(m.Get(t), MarkExecutable(g, m, t).state.Get(t));
    case GeneralFailure =>
      GeneralFailureCosts(g, s, t, ks);
  }

  lemma DropCosts(g: Graph, s: State, e: Option<Executor>, ks: seq<TaskId>)
    ensures Potential(g, DropReady(s, e), ks) == Potential(g, s, ks) && DropReady(s, e).known == s.known
  {
    assert forall x :: DropReady(s, e).Get(x) == s.Get(x);
    SamePotential(g, s, DropReady(s, e), ks);
  }

  lemma FreeSlotCosts(g: Graph, s: State, t: TaskId, e: Option<Executor>, ks: seq<TaskId>)
    ensures var r := FreeSlot(s, t, e).state;
      && Potential(g, r, ks) == Potential(g, s, ks) && r.known == s.known && r.done == s.done
      && (forall x :: r.Get(x) == s.Get(x)) && r.executable == s.executable
  {
    var r := FreeSlot(s, t, e).state;
    assert forall x :: r.Get(x) == s.Get(x);
    SamePotential(g, s, r, ks);
  }

  /** Tasks at least as high as h keep their status. */
  ghost predicate SameFrom(g: Graph, h: int, s: State, r: State) {
    forall x :: g.height(x) >= h ==> SameStatus(s.Get(x), r.Get(x))
  }

  lemma {:induction false} UnblockCosts(g: Graph, s: State, t: TaskId, u: TaskId, ks: seq<TaskId>)
    requires WellFormed(g) && u in g.dependents(t) && Roster(s, ks)
    ensures var r := Unblock(g, s, t, u).state;
      Potential(g, r, ks) <= Potential(g, s, ks) && r.known == s.known && SameFrom(g, g.height(t), s, r)
    decreases g.height(t), 1, 0
  {
    var task := s.Get(u);
    if task.blocked != {} {
      var m := s.Put(u, task.(blocked := task.blocked - {t}));
      assert forall x :: SameStatus(s.Get(x), m.Get(x));
      SamePotential(g, s, m, ks);
      if task.blocked - {t} == {} {
        if task.Succeeded() {
          SucceededCosts(g, m, u, ks);
          SameFromBoth(g, g.height(t), s, m, TaskDone(g, m, u).state);
        } else {
          MarkExecutableCosts(g, m, u, ks);
          SameFromBoth(g, g.height(t), s, m, MarkExecutable(g, m, u).state);
        }
      }
    }
  }

  lemma SameFromBoth(g: Graph, h: int, s: State, m: State, r: State)
    requires SameFrom(g, h, s, m) && SameFrom(g, h, m, r)
    ensures SameFrom(g, h, s, r)
  {
    forall x | g.height(x) >= h ensures SameStatus(s.Get(x), r.Get(x)) {
      assert SameStatus(s.Get(x), m.Get(x)) && SameStatus(m.Get(x), r.Get(x));
    }
  }

  lemma {:induction false} TaskSucceededCosts(g: Graph, s: State, t: TaskId, i: nat, ks: seq<TaskId>)
    requires WellFormed(g) && i <= |g.dependents(t)| && Roster(s, ks)
    ensures var r := TaskSucceeded(g, s, t, i).state;
      Potential(g, r, ks) <= Potential(g, s, ks) && r.known == s.known && SameFrom(g, g.height(t), s, r)
    decreases g.height(t), 1, |g.dependents(t)| - i + 1
  {
    if i == |g.dependents(t)| {
      assert forall x :: Emit(s, t).Get(x) == s.Get(x);
      SamePotential(g, s, Emit(s, t), ks);
    } else {
      var u := g.dependents(t)[i];
      assert u in g.dependents(t);
      var m := Unblock(g, s, t, u);
      UnblockCosts(g, s, t, u, ks);
      if !m.raised {
        TaskSucceededCosts(g, m.state, t, i + 1, ks);
        SameFromBoth(g, g.height(t), s, m.state, TaskSucceeded(g, s, t, i).state);
      }
    }
  }

  /** Handling a success never adds to the potential: a failed assertion is paid for by the weight of the task. */
  lemma {:induction false} SucceededCosts(g: Graph, s: State, t: TaskId, ks: seq<TaskId>)
    requires WellFormed(g) && s.Get(t).Succeeded() && Roster(s, ks)
    ensures var r := TaskDone(g, s, t).state;
      Potential(g, r, ks) <= Potential(g, s, ks) && r.known == s.known && SameFrom(g, g.height(t) + 1, s, r)
    decreases g.height(t), 2
  {
    if t in s.known {
      var e := s.Get(t).LastExecutedOn();
      var s0 := s.Touch(e);
      assert forall x :: s0.Get(x) == s.Get(x);
      SamePotential(g, s, s0, ks);
      var h := TaskSucceeded(g, s0, t, 0);
      TaskSucceededCosts(g, s0, t, 0, ks);
      assert SameStatus(s0.Get(t), h.state.Get(t));
      SameFromBoth(g, g.height(t) + 1, s, s0, h.state);
      SettledCosts(g, h, t, e, ks);
      SameFromBoth(g, g.height(t) + 1, s, h.state, Settle(g, h, t, e).state);
    }
  }

  lemma SettledCosts(g: Graph, h: Outcome, t: TaskId, e: Option<Executor>, ks: seq<TaskId>)
    requires t in h.state.known && Roster(h.state, ks)
    ensures var r := Settle(g, h, t, e).state;
      && r.known == h.state.known
      && (!h.raised ==> Potential(g, r, ks) == Potential(g, h.state, ks) && r.done == h.state.done)
      && (h.raised ==>
            Potential(g, r, ks) + Weight(g, t, h.state.Get(t)) == Potential(g, h.state, ks) + 1
            && r.done == h.state.done + [t])
      && SameFrom(g, g.height(t) + 1, h.state, r)
  {
    var m := if h.raised then MarkFailed(g, h.state, t, GeneralFailure) else h.state;
    FailGenerallyCosts(g, h.state, t, ks);
    FreeSlotCosts(g, m, t, e, ks);
  }

  // ---- draining ------------------------------------------------------------------------------

  /** The next notification is of a task whose retry fails an assertion, once more. */
  ghost predicate Spins(g: Graph, s: State)
    requires WellFormed(g)
  {
    Enabled(g, s, Drain) && s.done[0] in s.known && RetryRaises(g, s, s.done[0])
  }

  lemma SpinsTouched(g: Graph, s: State, r: State, t: TaskId)
    requires (forall x :: r.Get(x) == s.Get(x)) && r.executable == s.executable
    ensures RetryRaises(g, r, t) == RetryRaises(g, s, t)
  {
  }

  lemma TaskDoneCosts(g: Graph, s: State, t: TaskId, ks: seq<TaskId>)
    requires WellFormed(g) && Roster(s, ks)
    ensures var r := TaskDone(g, s, t).state;
      && r.known == s.known
      && (if t in s.known && RetryRaises(g, s, t) then
            Potential(g, r, ks) == Potential(g, s, ks) + 1 && r.done == s.done + [t]
          else Potential(g, r, ks) <= Potential(g, s, ks))
  {
    if t in s.known {
      var e := s.Get(t).LastExecutedOn();
      var s0 := s.Touch(e);
      assert forall x :: s0.Get(x) == s.Get(x);
      SamePotential(g, s, s0, ks);
      SpinsTouched(g, s, s0, t);
      if s0.Get(t).Succeeded() {
        SucceededCosts(g, s, t, ks);
      } else if s0.Get(t).Failed() {
        FailedCosts(g, s0, t, e, ks);
      } else {
        SettledCosts(g, Outcome(s0, false), t, e, ks);
      }
    }
  }

  lemma FailedCosts(g: Graph, s: State, t: TaskId, e: Option<Executor>, ks: seq<TaskId>)
    requires WellFormed(g) && Roster(s, ks) && t in s.known && s.Get(t).Failed()
    ensures var r := Settle(g, TaskFailed(g, s, t), t, e).state;
      && r.known == s.known
      && (if RetryRaises(g, s, t) then
            Potential(g, r, ks) == Potential(g, s, ks) + 1 && r.done == s.done + [t]
          else Potential(g, r, ks) <= Potential(g, s, ks))
  {
    var h := TaskFailed(g, s, t);
    TaskFailedCosts(g, s, t, ks);
    if s.Get(t).exception.value.GeneralFailure? {
      GeneralFailureCosts(g, s, t, ks);
      assert SameStatus(s.Get(t), h.state.Get(t));
    }
    SettledCosts(g, h, t, e, ks);
  }

  /** Handling a notification lowers the potential exactly when it does not spin. */
  lemma DrainMeasure(g: Graph, s: State, ks: seq<TaskId>)
    requires WellFormed(g) && Roster(s, ks) && Enabled(g, s, Drain)
    ensures Potential(g, Step(g, s, Drain), ks) < Potential(g, s, ks) <==> !Spins(g, s)
    ensures Potential(g, Step(g, s, Drain), ks) <= Potential(g, s, ks)
    ensures Roster(Step(g, s, Drain), ks)
  {
    var s1 := s.(done := s.done[1..]);
    assert forall x :: s1.Get(x) == s.Get(x);
    WeighSame(g, s, s1, ks);
    SpinsTouched(g, s, s1, s.done[0]);
    TaskDoneCosts(g, s1, s.done[0], ks);
    var m := TaskDone(g, s1, s.done[0]).state;
    var r := Step(g, s, Drain);
    assert forall x :: r.Get(x) == m.Get(x);
    WeighSame(g, m, r, ks);
  }

  /** There is a notification to handle at least n times in a row. */
  ghost predicate Lasts(g: Graph, s: State, n: nat)
    requires WellFormed(g)
    decreases n
  {
    n > 0 ==> Enabled(g, s, Drain) && Lasts(g, Step(g, s, Drain), n - 1)
  }

  ghost function After(g: Graph, s: State, n: nat): State
    requires WellFormed(g) && Lasts(g, s, n)
    decreases n
  {
    if n == 0 then s else After(g, Step(g, s, Drain), n - 1)
  }

  /** The n-th notification spins. */
  ghost predicate SpinsAt(g: Graph, s: State, n: nat)
    requires WellFormed(g)
  {
    Lasts(g, s, n) && Spins(g, After(g, s, n))
  }

  /** Draining that lasts longer than the potential comes to a notification that spins. */
  lemma {:induction false} SpinsSoon(g: Graph, s: State, ks: seq<TaskId>) returns (n: nat)
    requires WellFormed(g) && Roster(s, ks) && Lasts(g, s, Potential(g, s, ks) + 1)
    ensures n <= Potential(g, s, ks) && SpinsAt(g, s, n)
    decreases Potential(g, s, ks)
  {
    DrainMeasure(g, s, ks);
    if Spins(g, s) {
      n := 0;
    } else {
      var r := Step(g, s, Drain);
      LastsLess(g, r, Potential(g, s, ks), Potential(g, r, ks) + 1);
      n := SpinsSoon(g, r, ks);
      n := n + 1;
    }
  }

  lemma {:induction false} LastsLess(g: Graph, s: State, n: nat, m: nat)
    requires WellFormed(g) && m <= n && Lasts(g, s, n)
    ensures Lasts(g, s, m)
    decreases m
  {
    if m > 0 {
      LastsLess(g, Step(g, s, Drain), n - 1, m - 1);
    }
  }

  lemma {:induction false} LastsFrom(g: Graph, s: State, n: nat, m: nat)
    requires WellFormed(g) && Lasts(g, s, n)
    ensures Lasts(g, After(g, s, n), m) <==> Lasts(g, s, n + m)
    ensures Lasts(g, s, n + m) ==> After(g, s, n + m) == After(g, After(g, s, n), m)
    decreases n
  {
    if n > 0 {
      LastsFrom(g, Step(g, s, Drain), n - 1, m);
    }
  }

  lemma {:induction false} RosterAfter(g: Graph, s: State, ks: seq<TaskId>, n: nat)
    requires WellFormed(g) && Roster(s, ks) && Lasts(g, s, n)
    ensures Roster(After(g, s, n), ks) && Potential(g, After(g, s, n), ks) <= Potential(g, s, ks)
    decreases n
  {
    if n > 0 {
      DrainMeasure(g, s, ks);
      RosterAfter(g, Step(g, s, Drain), ks, n - 1);
    }
  }

  ghost predicate NeverEnds(g: Graph, s: State)
    requires WellFormed(g)
  {
    forall n: nat :: Lasts(g, s, n)
  }

  lemma {:induction false} Listed(known: set<TaskId>) returns (ks: seq<TaskId>)
    ensures NoDuplicates(ks)
    ensures forall t :: t in ks <==> t in known
    decreases |known|
  {
    if known == {} {
      ks := [];
    } else {
      var t :| t in known;
      var rest := Listed(known - {t});
      ks := [t] + rest;
    }
  }
}

/**
 Results in the order of the tasks: a reorder buffer over the queue of emitted tasks.  The world
 outside is a sequence of deliveries from the queue, each with the tasks that have succeeded by then.
 */
module OrderedResults {
  import opened Sequences

  type Task = nat

  datatype Status = Running | Failed | Succeeded

  /** A task taken from the queue, its status, and all tasks that have succeeded. */
  datatype Delivery = Delivery(task: Task, status: Status, succeeded: set<Task>)

  datatype Outcome = Finished | Waiting | Raised(task: Task)

  /** Tasks of the job are delivered, in any order and any number of times; success is stable. */
  ghost predicate Plausible(tasks: seq<Task>, initial: set<Task>, deliveries: seq<Delivery>) {
    && (forall i :: 0 <= i < |deliveries| ==> deliveries[i].task in tasks && initial <= deliveries[i].succeeded)
    && (forall i, j :: 0 <= i < j < |deliveries| ==> deliveries[i].succeeded <= deliveries[j].succeeded)
    && forall i :: 0 <= i < |deliveries| ==>
      (deliveries[i].status == Succeeded <==> deliveries[i].task in deliveries[i].succeeded)
  }

  function Unfinished(tasks: seq<Task>, initial: set<Task>): set<Task> {
    (set t | t in tasks) - initial
  }

  /** The position from which on the first task has not succeeded. */
  function Scan(tasks: seq<Task>, next: nat, succeeded: set<Task>): (r: nat)
    requires next <= |tasks|
    ensures next <= r <= |tasks|
    ensures forall i :: next <= i < r ==> tasks[i] in succeeded
    ensures r < |tasks| ==> tasks[r] !in succeeded
    decreases |tasks| - next
  {
    if next < |tasks| && tasks[next] in succeeded then Scan(tasks, next + 1, succeeded) else next
  }

  method Index(tasks: seq<Task>, task: Task) returns (i: nat)
    requires task in tasks
    ensures i < |tasks| && tasks[i] == task
  {
    i := 0;
    while tasks[i] != task
      invariant i < |tasks| && task in tasks[i..]
      decreases |tasks| - i
    {
      assert tasks[i..] == [tasks[i]] + tasks[i + 1..];
      i := i + 1;
    }
  }

  /** Consecutive tasks that have succeeded, from a position on. */
  method Advance(tasks: seq<Task>, start: nat, succeeded: set<Task>) returns (more: seq<Task>, next: nat)
    requires start <= |tasks|
    ensures next == Scan(tasks, start, succeeded) && more == tasks[start..next]
  {
    more, next := [], start;
    while next < |tasks| && tasks[next] in succeeded
      invariant start <= next <= |tasks| && more == tasks[start..next]
        && Scan(tasks, next, succeeded) == Scan(tasks, start, succeeded)
    {
      more, next := more + [tasks[next]], next + 1;
    }
  }

  /** The first position whose task is still awaited from the queue: nothing before it is left to be yielded. */
  ghost predicate Awaited(tasks: seq<Task>, next: nat, remaining: set<Task>) {
    next <= |tasks| && (next < |tasks| ==> tasks[next] in remaining)
  }

  /** Everything not awaited has succeeded. */
  ghost predicate Settled(tasks: seq<Task>, remaining: set<Task>, succeeded: set<Task>) {
    forall t :: t in tasks ==> t in remaining || t in succeeded
  }

  /** What the buffer knows between deliveries. */
  ghost predicate Buffered(tasks: seq<Task>, next: nat, remaining: set<Task>, succeeded: set<Task>) {
    Awaited(tasks, next, remaining) && Settled(tasks, remaining, succeeded)
  }

  /** A task that has succeeded: it is yielded if it is next, and so are those after it that came early. */
  method Deliver(
    tasks: seq<Task>, next: nat, remaining: set<Task>, task: Task, succeeded: set<Task>,
    ghost before: set<Task>)
    returns (more: seq<Task>, after: nat, rest: set<Task>)
    requires NoDuplicates(tasks) && Buffered(tasks, next, remaining, before) && before <= succeeded
    requires task in tasks && task in succeeded
    ensures Buffered(tasks, after, rest, succeeded) && next <= after <= |tasks| && more == tasks[next..after]
    ensures rest == remaining - {task}
  {
    more, after, rest := [], next, remaining;
    if task in remaining {
      rest := remaining - {task};
      var i := Index(tasks, task);
      if i == next {
        more, after := Advance(tasks, next, succeeded);
      }
    }
    assert after < |tasks| ==> tasks[after] in tasks;
  }

  lemma NothingAwaited(tasks: seq<Task>, next: nat, succeeded: set<Task>)
    requires Buffered(tasks, next, {}, succeeded)
    ensures tasks[..next] == tasks
  {
  }

  lemma Start(tasks: seq<Task>, next: nat, initial: set<Task>)
    requires next == Scan(tasks, 0, initial) && next < |tasks|
    ensures Buffered(tasks, next, Unfinished(tasks, initial), initial) && Unfinished(tasks, initial) != {}
  {
    assert tasks[next] in Unfinished(tasks, initial);
  }

  /** A task still awaited was never delivered with a final status. */
  ghost predicate Undelivered(deliveries: seq<Delivery>, t: Task) {
    forall i :: 0 <= i < |deliveries| && deliveries[i].task == t ==> deliveries[i].status == Running
  }

  ghost predicate AllUndelivered(deliveries: seq<Delivery>, remaining: set<Task>) {
    forall t :: t in remaining ==> Undelivered(deliveries, t)
  }

  lemma UndeliveredNext(deliveries: seq<Delivery>, n: nat, remaining: set<Task>)
    requires n < |deliveries| && AllUndelivered(deliveries[..n], remaining)
    ensures AllUndelivered(deliveries[..n + 1], remaining - {deliveries[n].task})
    ensures deliveries[n].status == Running ==> AllUndelivered(deliveries[..n + 1], remaining)
  {
    assert deliveries[..n + 1] == deliveries[..n] + [deliveries[n]];
  }

  /**
   Yields a prefix of the tasks at any time; when nothing is awaited any more it has yielded exactly
   the tasks, in order.
   */
  method Results(
    tasks: seq<Task>, initial: set<Task>, deliveries: seq<Delivery>) returns (out: seq<Task>, outcome: Outcome)
    requires NoDuplicates(tasks) && Plausible(tasks, initial, deliveries)
    ensures out <= tasks
    ensures outcome.Finished? ==> out == tasks
    ensures outcome.Waiting? ==> exists t :: t in tasks && t !in initial && Undelivered(deliveries, t)
    ensures outcome.Waiting? && out != tasks ==> tasks[|out|] !in initial && Undelivered(deliveries, tasks[|out|])
    ensures outcome.Raised? ==>
      exists i :: 0 <= i < |deliveries| && deliveries[i].task == outcome.task && deliveries[i].status == Failed
  {
    var next: nat;
    out, next := Advance(tasks, 0, initial);
    if next == |tasks| {
      return out, Finished;
    }
    Start(tasks, next, initial);
    var remaining := Unfinished(tasks, initial);
    ghost var succeeded := initial;
    var n := 0;
    while n < |deliveries|
      invariant 0 <= n <= |deliveries| && next <= |tasks| && out == tasks[..next]
        && Buffered(tasks, next, remaining, succeeded)
      invariant remaining != {} && remaining <= Unfinished(tasks, initial)
      invariant n < |deliveries| ==> succeeded <= deliveries[n].succeeded
      invariant AllUndelivered(deliveries[..n], remaining)
    {
      var d := deliveries[n];
      UndeliveredNext(deliveries, n, remaining);
      n := n + 1;
      if d.status == Failed {
        return out, Raised(d.task);
      }
      if d.status == Succeeded {
        var more;
        more, next, remaining := Deliver(tasks, next, remaining, d.task, d.succeeded, succeeded);
        succeeded := d.succeeded;
        out := out + more;
        if remaining == {} {
          NothingAwaited(tasks, next, succeeded);
          return out, Finished;
        }
      }
    }
    assert deliveries[..n] == deliveries;
    ghost var t :| t in remaining;
    return out, Waiting;
  }
}

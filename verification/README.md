# BNDL: the task scheduler, the shuffle, block downloads, statistics and framing

BNDL is a map-reduce engine. A dataset is split into partitions, each computed by a task; tasks run on executors, results of some datasets are shuffled, and blocks of data are exchanged between nodes. This project models the parts of it whose correctness does not follow from reading one function, and proves what they are for.

* **Task scheduler** (`SchedulerModel`, `SchedulerSafety`, `SchedulerReadiness`, `SchedulerSlots`, `SchedulerRetries`, `SchedulerProgress`, `SchedulerEmission`, `SchedulerStaffing`, `SchedulerRecovery`, `SchedulerDraining`, `SchedulerStuck`, `SchedulerGrounding`, `SchedulerObject`). The scheduler is a state machine over a graph of tasks: blocked sets, executable tasks, a queue of notifications, ready executors, occupied slots and forbidden pairs of task and executor. Events are the steps of the loop, submission and cancellation of jobs, and the environment: tasks that finish, fail, lose their dependencies or are cancelled (also late), executors that join, leave or lose their connection. `SchedulerObject.Scheduler` is the imperative form, with the scheduler's own fields; every method equals its function on states, and the lemmas are about all runs of the state machine.
* **Task graph** (`TaskGraph`). The tasks generated for a dataset, with the barriers between shuffled datasets and those that read them.
* **Shuffle** (`Sorting`, `Buckets`, `Shuffle`, `Fetch`, `Requests`, `ShuffleRun`, `ShuffledDataset`, `SortDataset`, `ByKey`). Buckets spill whenever the memory manager says so, in blocks of any size; written buckets are kept by any nodes, possibly more than once; readers choose one source for each source partition, request blocks by their coordinates, and sort with spills of their own. Spills, sizes, placements and samples are all arbitrary in the theorems.
* **Block downloads** (`Intervals`, `Download`, `Swarm`). The interval list of the bytes a node has, the download loop of one node, and a swarm of any number of nodes.
* **Statistics** (`Moments`, `RunningStats`). One-pass and mergeable central moments over the reals.
* **Results, files, tilings, framing** (`OrderedResults`, `Files`, `Tilings`, `Framing`), with `Sequences` for concatenation and binary search.

## What the code does not keep

Six properties that the code suggests do not hold for all inputs. The first five have a concrete witness and an exact condition; the last fails whenever its branch is taken.

* A swarm download can finish with wrong bytes. `get_availability` pairs the peers with their answers in the order of completion (`bndl/compute/blocks.py:223-225`), so an answer can be filed under the name of another peer, and `_get_chunk` serves ranges that were never downloaded, as zeros (lines 181-194). `Swarm.WrongAttribution` is such a run. All advertised bytes are right at all times if and only if every chunk that arrives was held by the node asked when it was served (`Swarm.RightExactlyWhenBacked`), which is so whenever answers are filed under the right name.
* When an executor's name is used again while a task of its predecessor still occupies it, the assertion in `_task_done` fails outside the handler that turns errors into task failures, and stops the scheduler loop (`SchedulerRetries.ReusedNameStopsTheLoop`). A run keeps the accounting at all times if and only if every executor joins under a name that is registered, or neither ready nor occupied, at that moment (`SchedulerSlots.SlotAccounting`).
* Draining the queue of notifications may never end (`bndl/compute/scheduler.py:192-193`). A failed task that nothing blocks, though one of its dependencies has not succeeded, fails an assertion in `_mark_executable` when it is retried; it fails again, is queued again, and its attempts do not grow (lines 406-409, 511-523, 526-532). `SchedulerStuck.LostCacheSpins` is such a run: a task reads the available effect of another one and reports it as lost, while what that one depends on still waits for an executor it does not avoid; the loop then never picks a task again. Draining goes on forever if and only if it comes to a stuck state, in which every notification is of a task to be retried with a dependency that has not succeeded, and the highest of them is not blocked (`SchedulerStuck.DrainingEnds`). It ends in every run in which available tasks are submitted with available dependencies and reports of lost dependencies name only tasks that were started (`SchedulerGrounding.SincereRunsDrain`).
* Requests lose trailing blocks of size zero (`bndl/compute/shuffle.py:624-639`), for example a single such block (`Requests.EmptyBlockLost`); `Requests.RequestsCover` says exactly when. A block has size zero when its file is missing (`bndl/compute/storage.py:316-321`).
* A range with an explicit stop of zero becomes another range (`bndl/compute/ranges.py:21-23`), for example a countdown from five (`Tilings.CountdownLost`); `Tilings.BoundsHonoured` says exactly when.
* Failing the executable tasks because there are no executors (`bndl/compute/scheduler.py:195-197`) never reaches a job that allows at least one attempt: a task that was never executed has attempts left, so the failure is not final, and the task stays executable (`SchedulerRecovery.NoExecutorsInVain`, `SchedulerRecovery.InVain`). Handling the first notification of a known task makes an entry in the mapping of executing tasks, also for no executor (line 399), and from then on the branch is never taken again (`SchedulerRecovery.NeverFailedAgain`): the job waits for an executor.

## Model

| member | source | states |
|---|---|---|
| SchedulerReadiness.ExecutableTasksAreReady | bndl/compute/scheduler.py:393-574 | in every reachable state an executable task is not running, and each of its dependencies has succeeded and is not recorded as a blocker, or still has a notification waiting |
| SchedulerReadiness.StartedTasksAreReady | bndl/compute/scheduler.py:192-239 | a task only starts by the loop's choice with no notification waiting, and then all its dependencies have succeeded and none blocks it, through retries, invalidated results and cancellation |
| SchedulerReadiness.StepInvariant | bndl/compute/scheduler.py:179-246 | every event keeps soundness of the records, the vouching for dependencies and closedness; and only the choice of the loop starts tasks |
| SchedulerReadiness.CancellationInvariant | bndl/compute/scheduler.py:290-329 | cancelling a job keeps the invariant, whatever its tasks are doing |
| SchedulerReadiness.SubmitInvariant | bndl/compute/scheduler.py:257-283 | submitting a job keeps the invariant, also when an assertion cancels it |
| SchedulerReadiness.SubmissionStartsRoots | bndl/compute/scheduler.py:257-277 | in every reachable state a submission fails no assertion; of the job exactly the tasks that have not succeeded and wait for nothing become executable, and no task changes its status |
| SchedulerSafety.MarkExecutableSafe | bndl/compute/scheduler.py:526-559 | a task made executable is vouched for by all its dependencies; nothing else changes but blockers of its dependents |
| SchedulerSafety.MarkBlockedOnlyBlocks | bndl/compute/scheduler.py:562-574 | recursive blocking withdraws executable tasks and adds blockers, and leaves everything else |
| SchedulerSafety.TaskSucceededSafe | bndl/compute/scheduler.py:434-458 | handling a success discharges the vouching of its notification: afterwards no dependent relies on it |
| SchedulerSafety.UnblockSafe | bndl/compute/scheduler.py:439-458 | unblocking one dependent, with the recursive handling of assertion errors, keeps all vouched for |
| SchedulerSafety.TaskFailedSafe | bndl/compute/scheduler.py:461-484 | handling a failure, whatever its kind, keeps the vouching while dependents are blocked and the task is retried |
| SchedulerSafety.DependenciesLostSafe | bndl/compute/scheduler.py:487-503 | invalidating results that had succeeded keeps every executable task vouched for |
| SchedulerSafety.TaskDoneSafe | bndl/compute/scheduler.py:393-423 | the mutually recursive handlers keep the invariant for a notification of any task; handling a success only touches tasks below it |
| SchedulerSafety.SignalStopEffect | bndl/compute/dataset.py:2274-2290 | a computing task that stops with lost dependencies fails its barriers too; all tasks changed are handed to the queue |
| SchedulerSlots.SlotAccounting | bndl/compute/scheduler.py:145-241 | for every run: at all times the ready queue has no duplicates and no occupied executor, an executor has at most one task and the loop has not stopped, if and only if every executor joins under a name that is registered, or neither ready nor occupied, at that moment |
| SchedulerSlots.StepExactly | bndl/compute/scheduler.py:145-156 | every event keeps the accounting if and only if it is no join, or a join under such a name |
| SchedulerSlots.FreshNamesJoin | bndl/compute/scheduler.py:145-165 | runs in which no name is used again after its removal meet that condition |
| SchedulerSlots.StepAccounted | bndl/compute/scheduler.py:145-165 | every event keeps the accounting, given that a joining name is fresh or registered |
| SchedulerSlots.AddExecutorSlots | bndl/compute/scheduler.py:145-156 | joining keeps the accounting if and only if the name is registered, or neither ready nor occupied |
| SchedulerSlots.TaskDoneSlots | bndl/compute/scheduler.py:393-423 | handling a notification frees slots only and its assertion holds, also through the recursion |
| SchedulerRetries.RetriesMoveOn | bndl/compute/scheduler.py:511-523 | any two retried failures of a task in one run happened on different executors, in order of attempts, and both within the allowed attempts |
| SchedulerRetries.RetriesAreFew | bndl/compute/scheduler.py:511-523 | in a whole run the retried failures of the executions of a task are on distinct executors, and fewer than the attempts allowed |
| SchedulerRetries.BarredForever | bndl/compute/scheduler.py:209-229 | in every run, a task that is forbidden on an executor is never started there |
| SchedulerRetries.RetryBars | bndl/compute/scheduler.py:511-523 | handling a failure that is to be retried forbids the task on the executor where it failed |
| SchedulerRetries.ReusedNameStopsTheLoop | bndl/compute/scheduler.py:405-423 | a run in which a name is used again while occupied stops the loop |
| SchedulerProgress.NoStuckStates | bndl/compute/scheduler.py:434-458 | on layered graphs, when a run without failures has nothing executable, running or waiting to be handled, every task of every job has succeeded, and every one that was executed was handed to its job |
| SchedulerProgress.NoAssertionFails | bndl/compute/scheduler.py:526-559 | in such runs no task has an exception, and neither submission nor the handling of a success violates the assertions of `_mark_executable` |
| SchedulerProgress.LastBlocker | bndl/compute/scheduler.py:443-447 | when the last blocker of a dormant task is removed, all its dependencies have succeeded and none is active |
| SchedulerProgress.SuccessProgress | bndl/compute/scheduler.py:434-458 | handling a success keeps the blocked sets exactly the active dependencies, and raises nothing |
| SchedulerProgress.SubmissionProgress | bndl/compute/scheduler.py:269-273 | submission leaves a job in which every dormant task waits for some dependency |
| SchedulerProgress.CancellationProgress | bndl/compute/scheduler.py:290-329 | cancelling one job leaves the order of the others intact |
| SchedulerEmission.ResultsAreDelivered | bndl/compute/scheduler.py:393-458 | in every reachable state each known task with a final result, a success or a failure with no attempts left, was handed to its job or waits in the queue of notifications; available tasks, which were never executed, have nothing to hand over |
| SchedulerEmission.DrainHandsOut | bndl/compute/scheduler.py:393-431 | handling a notification hands its task over if it then has succeeded or has failed for good; whatever else is handed over has succeeded |
| SchedulerEmission.OnlyDrainEmits | bndl/compute/scheduler.py:426-431 | no other event hands anything to a job |
| SchedulerEmission.TaskSucceededEmits | bndl/compute/scheduler.py:434-458 | a success handled without an assertion error hands the task over |
| SchedulerEmission.FailureEmits | bndl/compute/scheduler.py:511-523 | a failure with no attempts left is handed over, and nothing else |
| SchedulerEmission.RetrySilent | bndl/compute/scheduler.py:461-523 | any other failure hands nothing over |
| SchedulerStaffing.NoExecutorIsLost | bndl/compute/scheduler.py:145-246 | in every run in which idle executors that were given up do not reconnect, and none that a task could not be sent to is connected and ready, a connected executor is ready or occupied at all times |
| SchedulerStaffing.StepStaffed | bndl/compute/scheduler.py:179-246 | every such event keeps this |
| SchedulerStaffing.DoneFreesExecutor | bndl/compute/scheduler.py:411-423 | when the notification of a task is handled the executor it occupies is free, and ready if it is connected |
| SchedulerRecovery.LostResultsFail | bndl/compute/scheduler.py:487-503 | of the tasks reported as lost, all of them known, exactly those that had not failed and are reported with their last execution and location, or without, are marked as failed and queued; with a computing one so may be the barriers it depends on; every other task keeps its status |
| SchedulerRecovery.LocatedReports | bndl/compute/scheduler.py:498-502 | a report that names locations counts only if it names those of the last execution and result |
| SchedulerRecovery.UnknownLost | bndl/compute/scheduler.py:488-494 | a report that names an unknown task makes the reporting task fail for itself, and nothing becomes executable |
| SchedulerRecovery.StopFailsBarriers | bndl/compute/dataset.py:2274-2290 | a task that stops fails its barriers if and only if it computes and its exception is of lost input or a lost result |
| SchedulerRecovery.FailedTaskTriedAgain | bndl/compute/scheduler.py:461-523 | a failed task that is tried again becomes executable at once if and only if nothing blocks it; one that failed for good does not |
| SchedulerRecovery.SuccessPassedOn | bndl/compute/scheduler.py:393-458 | a success that is handled blocks no dependent any more, unless handling it made it a failure |
| SchedulerRecovery.UnblockedSuccessGoesOn | bndl/compute/scheduler.py:452-454 | when its last blocker succeeds, a task that had succeeded before is handed out again and blocks no dependent any more, unless handling it fails |
| SchedulerRecovery.UnblockedBecomesExecutable | bndl/compute/scheduler.py:452-456 | any other task whose last blocker succeeds becomes executable, unless an assertion fails |
| SchedulerRecovery.UnreachableNotReady | bndl/compute/scheduler.py:473-480 | the executor that a task could not be sent to is no longer ready, and the others keep their order |
| SchedulerRecovery.RemovedNotReady | bndl/compute/scheduler.py:159-165 | likewise for one that leaves, which is not registered any more |
| SchedulerRecovery.OnlyConnectedReturn | bndl/compute/scheduler.py:411-423 | handling a notification makes only executors ready that are registered and connected |
| SchedulerRecovery.AvoidedIsBarred | bndl/compute/scheduler.py:540-553 | whatever event makes a task executable bars it from the registered executors that it avoids |
| SchedulerRecovery.AvoidedIsNeverUsed | bndl/compute/scheduler.py:209-229 | in no run from then on is the task started there |
| SchedulerRecovery.CancelledJobGone | bndl/compute/scheduler.py:290-329 | after the cancellation of a job its tasks are not known, executable, running, blocked, forbidden on or executing on anything, and what was gone before still is |
| SchedulerRecovery.StartedLocation | bndl/compute/job.py:113-124 | a task that is started runs, occupies the executor, which is not ready any more, and is located there |
| SchedulerRecovery.FinishedLocation | bndl/compute/dataset.py:2274-2290 | a finished task may report another location for its result, and was still executed where it was |
| SchedulerRecovery.NoExecutorsInVain | bndl/compute/scheduler.py:195-197 | in every run, failing the executable tasks for want of executors queues each of them, but with an attempt allowed none of the failures is final and all stay executable |
| SchedulerRecovery.InVain | bndl/compute/scheduler.py:511-532 | handling such a failure hands nothing over, leaves the task executable, and makes an entry for no executor |
| SchedulerRecovery.NeverFailedAgain | bndl/compute/scheduler.py:195-197 | once a notification of a known task was handled, that branch is never taken again in any run |
| SchedulerDraining.DrainMeasure | bndl/compute/scheduler.py:192-193 | handling a notification lowers the potential of the tasks and the queue if and only if it is not of a task whose retry fails an assertion once more |
| SchedulerDraining.SpinsSoon | bndl/compute/scheduler.py:192-193 | draining that lasts longer than the potential comes to such a notification within as many steps |
| SchedulerDraining.TaskDoneCosts | bndl/compute/scheduler.py:393-423 | the recursive handling of a notification never adds to the potential, except that such a task is queued again |
| SchedulerStuck.DrainingEnds | bndl/compute/scheduler.py:192-193 | with the accounting of slots in place, draining never ends if and only if after some notifications it comes to a stuck state |
| SchedulerStuck.StuckForever | bndl/compute/scheduler.py:406-409 | from a stuck state every notification leads to a stuck state again |
| SchedulerStuck.GetsStuck | bndl/compute/scheduler.py:192-193 | whatever drains forever comes to a stuck state, also without the accounting of slots |
| SchedulerStuck.HopelessDone | bndl/compute/scheduler.py:511-532 | handling a task that is to be retried with a dependency that has not succeeded queues it again if and only if nothing blocks it, and touches no task as high as it |
| SchedulerStuck.LostCacheSpins | bndl/compute/scheduler.py:487-503 | a task reports the available effect of another as lost, while a dependency of that one still waits to be picked: from then on draining never ends |
| SchedulerGrounding.SincereRunsDrain | bndl/compute/scheduler.py:192-193 | in every run in which available tasks are submitted with available dependencies and reports of lost dependencies name only started tasks, draining ends, with an empty queue if the accounting of slots is in place |
| SchedulerGrounding.StepGrounded | bndl/compute/scheduler.py:179-246 | each such event keeps that every dependency of a known task that was started, stopped or is executable was started, and has succeeded, blocks it, or has a notification waiting |
| SchedulerGrounding.TaskFailedGrounded | bndl/compute/scheduler.py:461-523 | handling a failure keeps this, whatever its kind, and answers for the notification |
| SchedulerGrounding.SignalStopGrounded | bndl/compute/dataset.py:2274-2290 | stopping a task keeps this, also when a computing task fails its barriers |
| SchedulerGrounding.HigherNotification | bndl/compute/scheduler.py:526-532 | then a task whose retry fails the assertion has a dependency with a notification waiting |
| SchedulerObject.Scheduler.Execute | bndl/compute/scheduler.py:249-283 | the imperative submission is the submission event and keeps the object valid |
| SchedulerObject.Scheduler.CancelTasks | bndl/compute/scheduler.py:290-329 | the imperative cancellation, task by task over all slots, is the cancellation event and keeps the object valid |
| SchedulerObject.Scheduler.HandleNext | bndl/compute/scheduler.py:192-193 | taking one notification off the queue and handling it is the drain event and keeps the object valid |
| SchedulerObject.Scheduler.Select | bndl/compute/scheduler.py:201-225 | the task chosen is executable, not forbidden on the executor and of the best priority among those; none only if all are forbidden |
| SchedulerObject.Scheduler.GiveTask | bndl/compute/scheduler.py:199-241 | giving a task to a ready executor is an enabled event, and a task that runs afterwards had all its dependencies succeeded |
| SchedulerObject.Scheduler.AddExecutor | bndl/compute/scheduler.py:145-156 | joining in place is the joining event and keeps the object valid |
| SchedulerObject.Scheduler.RemoveExecutor | bndl/compute/scheduler.py:159-165 | leaving in place is the leaving event and keeps the object valid |
| SchedulerObject.Scheduler.Callback | bndl/compute/job.py:108-150 | a callback of an execution is its event and keeps the object valid |
| SchedulerObject.Scheduler.TaskDone | bndl/compute/scheduler.py:393-423 | the loops and recursion on fields compute the handler of the state machine, including whether an assertion fails |
| SchedulerObject.Scheduler.TaskSucceeded | bndl/compute/scheduler.py:434-458 | likewise for successes |
| SchedulerObject.Scheduler.TaskFailed | bndl/compute/scheduler.py:461-484 | likewise for failures |
| SchedulerObject.Scheduler.GeneralFailure | bndl/compute/scheduler.py:511-523 | likewise for failures of the task itself, with the limit of attempts |
| SchedulerObject.Scheduler.MarkBlocked | bndl/compute/scheduler.py:562-574 | the recursive blocking in place computes that of the state machine |
| SchedulerObject.Scheduler.MarkExecutable | bndl/compute/scheduler.py:526-559 | likewise for making a task executable, with its assertions |
| TaskGraph.TasksFor | bndl/compute/dataset.py:1613-1669 | for every acyclic dataset graph, also with several paths to a dataset: the tasks listed are exactly those of the dataset asked for and of every synchronized dataset upstream of it, with the barriers of the latter; each comes after its dependencies and once, those of a dataset in the order of its partitions; dependencies and dependents mirror each other; a computing task depends on exactly the barriers of the synchronized datasets on paths from its own with no other one between, and a barrier on exactly the tasks of its dataset |
| TaskGraph.Generate | bndl/compute/dataset.py:1613-1647 | one recursive call lists exactly what is needed for a dataset in addition, keeps order, mirroring and exactness, and leaves the tasks of callers alone |
| TaskGraph.Traverse | bndl/compute/dataset.py:62-80 | the traversal terminates and finds exactly the synchronized datasets on paths along the sources with no other synchronized one between |
| TaskGraph.SyncSourcesArePaths | bndl/compute/dataset.py:1620-1642 | the recursive search that starts from the sources, also for a synchronized dataset, finds exactly the ends of such paths |
| TaskGraph.RequiredIsNeeded | bndl/compute/dataset.py:1613-1647 | whatever is upstream along any path that ends with a synchronized dataset is generated, step by step from one synchronized dataset to the next |
| TaskGraph.NeededIsRequired | bndl/compute/dataset.py:1613-1647 | and nothing else is |
| TaskGraph.LinkStep | bndl/compute/dataset.py:1628-1642 | linking a barrier, new or already there, keeps everything exact |
| TaskGraph.BarriersKeepDependencies | bndl/compute/dataset.py:2204-2218 | a computing task reaches another through dependencies if and only if it does by the all-to-all edges that barriers replace |
| TaskGraph.GeneratedIsWellFormed | bndl/compute/dataset.py:1650-1669 | the tasks generated are a closed job over a well-formed graph, as the scheduler requires, and a task comes after its dependencies by priority |
| TaskGraph.GeneratedAlternates | bndl/compute/dataset.py:1631-1637 | computing tasks depend on barriers only, and barriers on computing tasks only |
| TaskGraph.GeneratedIsLayered | bndl/compute/scheduler.py:526-559 | where every dataset waits for at most one other, the graph is layered, so runs on it do not get stuck |
| OrderedResults.Results | bndl/compute/scheduler.py:332-383 | for every order and repetition of deliveries a prefix of the tasks is yielded, in order and once; when it ends they all are; it waits only for a task never delivered as stopped, with everything before the next such task yielded, and raises only for one delivered as failed |
| OrderedResults.Deliver | bndl/compute/scheduler.py:371-383 | after each delivery the next task in order is one still awaited, and everything else has succeeded |
| Sorting.MergeIsSort | bndl/compute/shuffle.py:696-697 | merging sorted streams is the stable sort of their concatenation |
| Sorting.ExternalSort | bndl/compute/shuffle.py:216-230 | cut anywhere, sort the pieces, merge them: the stable sort of the whole |
| Sorting.SelectionsDetermineOrder | bndl/compute/shuffle.py:216-230 | a sorted sequence is determined by its subsequences of equal keys |
| Sorting.StableSortSorts | bndl/compute/shuffle.py:229 | the sort used is sorted, stable and a rearrangement |
| Sorting.MergeKeeps | bndl/compute/shuffle.py:696-697 | merging keeps the elements even of unsorted streams |
| Buckets.SlicesTile | bndl/util/collection.pyx:34-48 | the slices of a batch are non-empty, within the size, and concatenate to the whole |
| Buckets.Split | bndl/util/collection.pyx:34-48 | the loop gives these slices |
| Buckets.Bucket.Iterate | bndl/compute/shuffle.py:222-230 | a sorted bucket iterates in stable order, also when it sorts large buckets by parts |
| Buckets.Bucket.ToBlocks | bndl/compute/shuffle.py:109-133 | whatever the estimates, the blocks contain the ordered and combined elements, and the bucket is empty |
| Buckets.Bucket.Serialize | bndl/compute/shuffle.py:136-171 | spilling turns the elements into one more batch whose reversed blocks stream them, ordered and combined; nothing is lost of what was received |
| Buckets.Bucket.WriteBlocks | bndl/compute/shuffle.py:161-166 | blocks popped off the end and read back last to first are in their original order |
| Buckets.ContentsOfBatch | bndl/compute/shuffle.py:161-166 | fetched first to last, the blocks of a batch have the same elements |
| Shuffle.Write | bndl/compute/shuffle.py:350-427 | whatever the spills, each bucket is written as some cut of exactly the elements that belong to its partition, in their order |
| Shuffle.Distribute | bndl/compute/shuffle.py:401-417 | each element is received by the bucket of its partition, wrapped around the count, between arbitrary spills |
| Shuffle.Spill | bndl/compute/shuffle.py:377-399 | spilling any of the buckets keeps what each received |
| Shuffle.MergeSorted | bndl/compute/shuffle.py:658-699 | the reader gives the stable sort of what it fetched, independent of its spills; with unsorted buckets it keeps the elements |
| Shuffle.Read | bndl/compute/shuffle.py:702-714 | sorted on request or for sorted buckets, otherwise the elements as fetched |
| Shuffle.ReadBack | bndl/compute/shuffle.py:690-694 | the chunks of the reversed blocks are the stream of the batch |
| Fetch.ShuffleManager.SetBuckets | bndl/compute/shuffle.py:738-751 | replaces the result for one source partition of one dataset and nothing else |
| Fetch.ShuffleManager.GetSizes | bndl/compute/shuffle.py:762-781 | one entry with the block sizes for each source partition held, none for unknown datasets |
| Fetch.ShuffleManager.GetBlock | bndl/compute/shuffle.py:785-824 | the block at the coordinate, or a key error when any of its parts is out of range |
| Fetch.ShuffleManager.ClearBucket | bndl/compute/shuffle.py:839-846 | forgets one dataset and nothing else |
| Fetch.SelectSources | bndl/compute/shuffle.py:545-586 | succeeds only with every source partition held and selected from exactly one source, though several may hold it; otherwise reports exactly the partitions held nowhere, or one that does not exist |
| Requests.BuildRequests | bndl/compute/shuffle.py:613-639 | the nested loops build the requests for the coordinates in order |
| Requests.RequestsCover | bndl/compute/shuffle.py:624-639 | the requests concatenate to all coordinates in order if and only if there are none, the last size is positive, or the last positive size is within the limit; otherwise to a proper prefix |
| Requests.EmptyBlockLost | bndl/compute/shuffle.py:624-639 | a single empty block is never requested |
| Requests.RequestsFit | bndl/compute/shuffle.py:631-637 | a request is non-empty and within the limit, or consists of a single block apart from empty ones |
| Requests.RequestsGreedy | bndl/compute/shuffle.py:631-637 | a request is closed only when the first block of the next one would exceed the limit |
| Requests.PositiveSizes | bndl/compute/shuffle.py:613-639 | with positive sizes all coordinates are requested, each request within the limit or a single block |
| Requests.ItemsServed | bndl/compute/shuffle.py:784-836 | looking up the coordinates made from the sizes gives all blocks of the partitions, in order |
| Requests.ItemsRightSizes | bndl/compute/shuffle.py:762-781 | the size of each item is that of the block at its coordinate |
| Requests.GetBlocks | bndl/compute/shuffle.py:828-836 | a multi-get answers each coordinate in order, and fails only if one is missing |
| Requests.Prefetch | bndl/util/funcs.pyx:129-142 | calls and results alternate as specified, with the first call ahead |
| Requests.PrefetchOrder | bndl/util/funcs.pyx:129-142 | every argument is called once and yielded once, in order |
| Requests.PrefetchDistance | bndl/util/funcs.pyx:129-142 | at any moment at most two calls are outstanding |
| Requests.AheadNext | bndl/util/funcs.pyx:129-142 | each call and each result is of the next argument in order, and a result comes only after its call |
| ShuffleRun.ReadPartition | bndl/compute/shuffle.py:516-714 | over nodes that hold source partitions several times or not at all, the reader reports exactly those that are nowhere, and otherwise, with none missing, shuffles each once, sorted if buckets are |
| ShuffleRun.FetchFrom | bndl/compute/shuffle.py:619-655 | the requests to one source return all its selected blocks, in order |
| ShuffleRun.FetchAhead | bndl/compute/shuffle.py:641-655 | requests sent one ahead of the answers read still give the blocks of all requests in order |
| ShuffleRun.WrittenShuffled | bndl/compute/shuffle.py:377-427 | the blocks of a written bucket hold the prepared pieces of some cut of its elements |
| ShuffleRun.GatherAll | bndl/compute/shuffle.py:545-564 | reading the source partitions in any order gives all their elements |
| ShuffledDataset.RunShuffle | bndl/compute/shuffle.py:350-714 | for every order, placement and repetition of writing tasks, every spill and size: each output partition is made from exactly the elements destined for it, and is sorted if buckets are |
| ShuffledDataset.ShuffleConserves | bndl/compute/shuffle.py:409-412 | without a combiner the output partitions have together the elements of the source, and each element is where the partitioner puts it |
| SortDataset.Sort | bndl/compute/dataset.py:1183-1244 | for every sample the concatenated output is a sorted rearrangement of the input, each partition has exactly the keys between its boundaries, and with a key function these share the sample evenly; with a partition count other than one an empty sample is an error, unless the dataset was counted and is empty, when it is returned as it is |
| SortDataset.BoundariesAscending | bndl/compute/dataset.py:1238-1241 | boundaries taken from any sample ascend, and their positions are within it |
| SortDataset.BoundariesBalance | bndl/compute/dataset.py:1236-1241 | of points without duplicates each of the ranges made by the boundaries gets an equal share, give or take one |
| SortDataset.StrictlyBetween | bndl/compute/dataset.py:1239-1241 | also with duplicates, at most an equal share of the points lies strictly between two boundaries |
| SortDataset.PointsAscending | bndl/compute/dataset.py:1235-1239 | sample points are sorted and have exactly the keys of the sample, with a key function each of them once and without one as often as they were sampled |
| SortDataset.RangesInOrder | bndl/compute/shuffle.py:234-247 | for any boundaries the partitioner sends every key to an existing partition, so that earlier partitions have smaller keys: binary search is monotone in what it searches |
| SortDataset.RangesBound | bndl/compute/shuffle.py:246-247 | in ascending boundaries each partition has the keys above its lower boundary, up to and including its upper one |
| SortDataset.BisectFinds | bndl/compute/shuffle.py:246-247 | in ascending boundaries the search finds the first that is not below the value |
| SortDataset.BisectMonotone | bndl/compute/shuffle.py:246-247 | in any boundaries, ascending or not, a larger value is never placed before a smaller one |
| ByKey.CombineByKey | bndl/compute/dataset.py:956-1017 | each partition has increasing keys, exactly those of the source that belong to it, each with the plain fold of all its values |
| ByKey.ReduceByKey | bndl/compute/dataset.py:1020-1036 | the same for an associative and commutative reduction |
| ByKey.EachKeyOnce | bndl/compute/dataset.py:1020-1036 | over all partitions every key of the source is emitted exactly once, and no other |
| ByKey.GroupTotal | bndl/compute/dataset.py:973-979 | grouping adjacent pairs and folding keeps the total of each key |
| ByKey.ShuffledTotal | bndl/compute/dataset.py:973-983 | local aggregation before the shuffle keeps the total of each key, for every cut by spills |
| ByKey.FoldedIsTotal | bndl/compute/dataset.py:1002-1014 | that total is the left-to-right fold of all values of the key |
| Intervals.MarkDoneCanonical | bndl/compute/blocks.py:259-276 | the interval list stays sorted, disjoint and non-touching |
| Intervals.MarkDoneCovers | bndl/compute/blocks.py:259-276 | marking a chunk adds exactly its bytes |
| Intervals.NoWrapAround | bndl/compute/blocks.py:264-265 | for a chunk before all intervals, the interval at index -1 never matches |
| Intervals.OneIntervalSuffices | bndl/compute/blocks.py:302-305 | a chunk is fully available if and only if one interval contains it |
| Intervals.BisectFinds | bndl/compute/blocks.py:264 | in an interval list the binary search finds the position of a chunk |
| Intervals.CanonicalUnique | bndl/compute/blocks.py:255-276 | a set of bytes has only one such list |
| Intervals.WholeBlock | bndl/compute/blocks.py:255-276 | when everything is done the list is the single interval of the block |
| Download.Transfer.Mark | bndl/compute/blocks.py:259-276 | the update in place computes the marked list |
| Download.Transfer.Store | bndl/compute/blocks.py:285-290 | the chunk is written, moves from to do to done, and no other byte changes |
| Download.Transfer.Ask | bndl/compute/blocks.py:296-307 | each peer with something to offer is found once, and offers exactly the chunks to do that lie within an interval it reports |
| Download.Transfer.FromPeers | bndl/compute/blocks.py:309-330 | trying terminates and asks peers only for chunks that they offered; it downloads one of these chunks, or every peer failed to answer for everything it offered; nothing done is undone |
| Download.Transfer.Round | bndl/compute/blocks.py:294-339 | a round takes one chunk from a peer and one from the source, unless no peer answered for anything that it had to offer; it fails only with a request to the source |
| Download.Transfer.Run | bndl/compute/blocks.py:294-339 | done and to do always make up the block; every round makes progress or the download fails, with a failed request to the source; on success everything is advertised, and if the source answers rightly, and peers do for chunks they reported before, the block is the content |
| Download.TilesCover | bndl/compute/blocks.py:255-257 | the chunks cover exactly the block |
| Download.TilesOrdered | bndl/compute/blocks.py:255-257 | the chunks are in order, non-empty and do not overlap, and all but the last are of the chunk size |
| Download.Transfer.constructor | bndl/compute/blocks.py:245-257 | nothing is done, and all chunks to do but the last are of the chunk size |
| Download.MovedChunk | bndl/compute/blocks.py:289-290 | moving a chunk keeps done canonical and done and to do a partition of the block |
| Download.Interesting | bndl/compute/blocks.py:298-307 | the chunks tried are exactly those to do that lie within an advertised interval |
| Download.InterestingIsAvailable | bndl/compute/blocks.py:302-305 | these are exactly the chunks the peer has in full |
| Swarm.SwarmSafety | bndl/compute/blocks.py:181-199 | in every run of any number of nodes in which answers are filed under the right name, every advertised byte is the seeder's, and a node that advertises the whole block has it |
| Swarm.RightExactlyWhenBacked | bndl/compute/blocks.py:181-199 | in every run of any number of nodes all advertised bytes are the seeder's at all times if and only if every chunk that arrives was, when it was served, held by the node asked, zeros aside |
| Swarm.SoundExactlyWhenBacked | bndl/compute/blocks.py:181-194 | the stronger invariant that also the bytes under way are right holds throughout a run if and only if every fetch asks a node that has the chunk, zeros aside |
| Swarm.StepSound | bndl/compute/blocks.py:278-292 | a single event keeps all bytes, also those under way, right if and only if a fetch is backed |
| Swarm.StepFair | bndl/compute/blocks.py:278-292 | only the arrival of wrong bytes makes a node advertise what it does not have; writes precede advertisements |
| Swarm.WrongArrivalShows | bndl/compute/blocks.py:278-292 | when wrong bytes arrive, one of them is advertised at once |
| Swarm.FetchedBytes | bndl/compute/blocks.py:181-194 | the bytes served are right if and only if the node has them or the block has zeros there |
| Swarm.AttributedRun | bndl/compute/blocks.py:296-307 | old reports stay true, so properly filed answers back every fetch |
| Swarm.WrongAttribution | bndl/compute/blocks.py:223-225 | a run in which an answer is filed under another name ends with a finished download of wrong bytes |
| Moments.PushIsExact | bndl/compute/stats.pyx:180-197 | pushing a value gives count, mean, the sums of second, third and fourth powers of deviations and the extremes of all values |
| Moments.AddIsExact | bndl/compute/stats.pyx:204-232 | adding the states of two parts gives the state of both together |
| Moments.StatsAreExact | bndl/compute/dataset.py:876-880 | the statistics of a dataset are those of its values for every partitioning and order of arrival; without partitions there are none |
| Moments.PermutationMoments | bndl/compute/stats.pyx:180-197 | the moments do not depend on the order of the values |
| Moments.ExtremesBound | bndl/compute/stats.pyx:181-184 | the extremes are values and bound all others; infinities stand for no values |
| Moments.MvStatsAreExact | bndl/compute/dataset.py:883-895 | the statistics of a dataset of vectors are, column by column, those of that component of all vectors, for every partitioning and order of arrival; without partitions there are none |
| Moments.MvStatsColumn | bndl/compute/stats.pyx:305-371 | recording and adding vectors is recording and adding each of their columns |
| RunningStats.Stats.Record | bndl/compute/stats.pyx:180-197 | the update in place keeps the object's moments those of its values, with one more value |
| RunningStats.Stats.Plus | bndl/compute/stats.pyx:204-232 | a fresh object for the values of both operands |
| RunningStats.Stats.constructor | bndl/compute/stats.pyx:167-177 | the object holds the moments of the values given |
| RunningStats.MultiVariateStats.Record | bndl/compute/stats.pyx:305-335 | the arrays updated in place hold, column by column, the moments of all vectors |
| RunningStats.MultiVariateStats.Plus | bndl/compute/stats.pyx:342-371 | a fresh object for the vectors of both operands of the same width |
| RunningStats.Summarize | bndl/compute/dataset.py:883-895 | the objects of the partitions, reduced by addition, hold the moments of all vectors, which are these statistics |
| Files.BatchFiles | bndl/compute/files.py:278-354 | the pieces of each file tile it in order with cuts only after separators; each batch is within the size or a single piece, within the number of files, and has at most one piece of a file; a batch is closed only when it is full: by number, or because what follows up to the next possible cut does not fit; and a cut is at the last separator that fits |
| Files.SplitFile | bndl/compute/files.py:308-331 | splitting terminates, tiles the file, never puts two of its pieces in one batch, and fills each batch before the next |
| Files.RFindIsLast | bndl/compute/files.py:315 | the position found is the last occurrence within the space |
| Files.FindIsFirst | bndl/compute/files.py:321 | the position found is the first occurrence at all |
| Files.TilesReadBack | bndl/compute/files.py:471-476 | reading the pieces of a file one after the other gives the file |
| Files.EnsureMinimum | bndl/compute/files.py:107-119 | dividing batches keeps their pieces and ends with enough batches, never more, or with none divisible; every batch is what equally many halvings of a batch at the start make, give or take one halving |
| Tilings.RangePartsTile | bndl/compute/ranges.py:34-43 | for every non-zero step the partitions concatenate to the range, with sizes that differ by at most one |
| Tilings.BoundsHonoured | bndl/compute/ranges.py:21-23 | the range held is the range asked for if and only if the stop is not zero or the start is zero |
| Tilings.CountdownLost | bndl/compute/ranges.py:21-23 | counting down from five to zero gives an empty range |
| Tilings.CollectionPartsTile | bndl/compute/collections.py:55-60 | at most as many slices as asked for make up the collection; none is empty, and all but the last have the full size |
| Tilings.StepSmallest | bndl/compute/collections.py:55 | with a smaller size that many slices would not suffice |
| Tilings.Coalesce | bndl/compute/dataset.py:2108-2125 | the batches concatenate to the source partitions, are as many as asked for, and their sizes differ from the even share by less than one |
| Framing.MessageRoundTrip | bndl/net/connection.py:158-237 | a message with attachments is recovered from the front of a stream, and nothing more is consumed |
| Framing.OnTheWire | bndl/net/connection.py:158-196 | the bytes of a small message with an attachment |
| Framing.StreamRoundTrip | bndl/net/connection.py:158-237 | any sequence of messages is recovered from the concatenated stream |
| Framing.PrefixIncomplete | bndl/net/connection.py:219-237 | no proper prefix of an encoded message is decoded |
| Framing.DecodeExtends | bndl/net/connection.py:219-237 | what is decoded from a stream does not depend on what follows |
| Framing.CollectAll | bndl/net/connection.py:227-232 | the attachments received are exactly those sent |
| Framing.Connection.Send | bndl/net/connection.py:158-196 | the stream grows by the encoding of the message |
| Framing.Connection.Receive | bndl/net/connection.py:219-237 | one message is decoded and removed from the stream, or none is there in full; all bytes but the format byte are counted |
| Framing.PackRoundTrip | bndl/net/connection.py:203-207 | a number within its field is recovered |
| Framing.LittleEndian | bndl/net/connection.py:203-207 | byte i of a field is digit i of the number to the base 256 |
| Framing.ChunksRoundTrip | bndl/compute/storage.py:164-186 | any list of chunks within the field bounds is recovered |
| Framing.WriteAll | bndl/compute/storage.py:602-607 | the file has the chunks behind their lengths |
| Framing.LoadChunks | bndl/compute/storage.py:177-186 | the loop over positions decodes the chunks; an incomplete length is an error |

## Left out

- SchedulerProgress.NoStuckStates: only for graphs in which any two dependencies of a task have the same dependencies; with dependencies at different depths a blocked set can become empty early, and the assertion in `_mark_executable` then turns into a failure of the task. Safety is proved for all graphs.
- SchedulerReadiness.StartedTasksAreReady: the loop chooses only with the queue of notifications empty; the race of a callback between draining and choosing is not modelled.
- SchedulerGrounding.SincereRunsDrain: `_generate_tasks` marks the computing tasks of cached datasets as done, but not the barriers they depend on (`bndl/compute/dataset.py:1638-1642`), so jobs in which such a task reads through a barrier do not meet the guard; for them only `SchedulerStuck.DrainingEnds` speaks.
- SchedulerRetries.RetriesMoveOn: counts attempts from `executed_on`, as the code does, so attempts that failed for lost connections count too.
- SchedulerStaffing.NoExecutorIsLost: the condition is sufficient only.
- Scheduler tasks are records in a mapping of the scheduler, so sharing of task objects between threads is not captured; barriers finish by an event of their own; the queue of notifications is drained one at a time.
- Scheduler locality: the preferred tasks of an executor are never stored by the code, so the model has none; localities that forbid an executor are kept. Jobs consist of tasks that were not submitted before.
- TaskGraph.TasksFor: marking the tasks of cached datasets as done and groups are not modelled; datasets are numbered along the graph.
- OrderedResults.Results: success is stable and no task succeeds between the scan of the prefix and the snapshot of what remains; a task that fails again after it was emitted early is not covered.
- Fetch.SelectSources: the missing source partitions are reported, but not where their tasks ran; the path for connections lost while sizes are requested is not modelled.
- ShuffleRun.ReadPartition: blocks have positive sizes; lost connections and missing blocks while fetching are not modelled.
- Buckets.Bucket.Serialize: sizes are arbitrary positive record counts instead of estimates in bytes, and a combiner gives something for something, since the code divides by the number of its results.
- Keys are integers, which stand for any totally ordered keys; set and dictionary buckets, containers on disk and compression are left out.
- SortDataset.Sort: ascending only, and samples are arbitrary, also where the code would draw them from the counted dataset; the partitioner for descending order is assigned to the instance, where calls do not find it.
- ByKey.CombineByKey: requires an associative and commutative merge of combinations that agrees with merging values.
- Swarm.SwarmSafety: requires answers filed under the right name; see above for what happens otherwise. Removal and repeated download of a block, and downloads within one machine, are left out.
- Download.Transfer.Run: chunk sizes are arbitrary, and the shortcut that compares an interval list with a size is left out, as it is never taken.
- Files.BatchFiles: splitting anywhere, where the code stores an end for a length, and batching by the number of files alone are left out.
- Tilings.Coalesce: offsets are reals.
- Moments.PushIsExact: values are reals, so rounding is left out; derived properties such as variance and skew are left out.
- Framing.Connection.Send: fields are within their bounds; the message left incomplete by an error is not modelled. Fields are little-endian.
- Framing.ChunksRoundTrip: a truncated last chunk is not noticed by the code, and is decoded short.
- Dispatch, sockets, processes, dashboards, serialization formats and memory accounting are left out.

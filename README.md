# CircuitAI economy core, modelled in Dafny

CircuitAI is a skirmish AI for the Spring RTS engine. This project models
five parts of its core:

- **the frame scheduler** (`CScheduler`). It holds one-shot tasks bound to
  an activation frame, repeating tasks bound to an interval, and a queue of
  completions that the background worker fills. The model covers the
  shared work queue, the worker-running flag and the unsigned count of
  live instances.
- **the economy manager** (`CEconomyManager`). It keeps the catalog of
  builder and factory tasks. Its periodic updates open expansion, energy,
  build-power and factory tasks while demand is unmet. A watchdog releases
  stuck assistants. A cost-rank cache orders the workers for every listed
  task. Two task pickers choose a task for a factory and for a constructor.
  Unit lifecycle bookkeeping tracks unfinished units and their tasks. The
  constructor registers one handler per unit type (factory, commander,
  caretaker, constructor, solar, fusion, singularity, pylon).
- **the squad task** (`ISquadTask`). The model covers the assignee
  bookkeeping: range buckets, the four range and speed aggregates, and the
  squad leader. It also covers merging two squads, the integer line walk of
  the line-of-fire test, and the re-attack timer.
- **the reclaim task** (`IReclaimTask`). The model covers its two
  constructors, the assignability test, assignment and removal of units,
  the aborts, and the orders `Execute` gives.
- **the energy task** (`CBEnergyTask`). The model covers the stall-driven
  priority switch, the calls made around the base class on finish and
  cancel, and the one-byte save/load of `isStalling`.

## How the model is organised

- **Modules.** One per concern:
  - `Common`: shared vocabulary.
  - `Scheduler`.
  - `Energy`.
  - `Reclaim`.
  - `Squad`.
  - `Geometry`: facing, nudges and sites.
  - `Catalog`: task records and buckets.
  - `Ranking`: the cost-rank cache, the scan and the tie-break.
  - `Economy`: the manager's state functions and their lemmas.
  - `Manager`: the `EconomyManager` class and its handlers.
- **Objects whose fields the source updates in place are classes.**
  `CScheduler` and `SharedState`, `EnergyTask`, `ReclaimTask`,
  `SquadTask` and `EconomyManager`. Their methods carry `modifies`
  clauses. Each method's `ensures` gives its whole new state as a function
  of the old state and the engine's answers: `RepeatKept`, `PendingOnce`,
  `ExpandUpdate`, `PreparedBuilder` and so on. The one freedom left is the
  order `std::sort` gives workers of equal cost in a rebuilt cache
  (`CacheTaken`, `EngineSlotsExact`).
- **Properties are proved about those functions as lemmas.** They include:
  - invariants kept: `StateOk`, the squad's `Valid`;
  - the builder-task count staying in step with the listed tasks
    (`Drift` unchanged);
  - idempotence of a second scheduler pass and of the watchdog;
  - round trips: save/load, and join then leave for caretakers, workers
    and pylons;
  - the exact meaning of each picker.
- **Loops become methods with invariants.** In the scheduler's
  erase-in-place loops, the `FindLeader` scans, the range-bucket merge, the
  cache rebuild, the candidate scan, the tie-break and the line walk, each
  loop is a method proved against a specification function.
- **Engine queries become parameters.** Positions, speeds, incomes, metal
  spots, cluster searches, build-site searches and `rand()` are all
  parameters or oracle functions. Calls into the engine (unit orders) are
  return values or event logs.
- **Numbers.**
  - `float` values are modelled as `real`.
  - `unsigned int` and `size_t` arithmetic is written out where it
    matters: `IncrementU32`/`DecrementU32` and `Economy.DemandMet`.
  - The squad's `std::numeric_limits<float>::max()` is the `FLT_MAX`
    constant.
- **Containers.**
  - A `std::map` iterated by key is a `seq` of keys in a fixed order
    (`ALL_TYPES`) over a `map`.
  - A `std::set` (ordered by pointer value in the source) is a Dafny
    `set`, walked in an arbitrary enumeration order (`Common.Enumerate`).
  - A `std::list` is a `seq`.
  - Tasks are indices into task tables that only grow.

## Model

| member | source | states |
|---|---|---|
| Scheduler.SharedState.constructor | src/circuit/Scheduler.cpp:12-15 | The shared work queue starts empty, the worker is not running and no instance is counted. |
| Scheduler.CScheduler.constructor | src/circuit/Scheduler.cpp:17-20 | A new scheduler counts itself by an unsigned increment of the live-instance counter. Its own lists start empty and the shared queue is untouched. |
| Scheduler.CScheduler.Destroy | src/circuit/Scheduler.cpp:22-26 | The counter drops by an unsigned decrement (0 wraps to 2^32-1). Then `Release` runs: this instance's work items leave the queue, and the last instance stops the worker and queues one empty wake-up item. |
| Scheduler.CScheduler.Release | src/circuit/Scheduler.cpp:33-49 | Exactly the queue items owned by this scheduler are dropped, in order (`NotOwnedBy`). When no instance is left and the worker runs, the flag is lowered and one empty item is appended. Otherwise the flag is unchanged. |
| Scheduler.CScheduler.RunTaskAt | src/circuit/Scheduler.cpp:51-54 | Appends one one-shot entry for the frame and changes nothing else. |
| Scheduler.CScheduler.RunTaskEvery | src/circuit/Scheduler.cpp:56-59 | Appends one repeating entry whose last frame is minus the interval, so it is due from frame 0 (`FreshRepeatDueFromZero`). Nothing else changes. |
| Scheduler.FreshRepeatDueFromZero | src/circuit/Scheduler.cpp:56-59 | A fresh repeating entry is due at a frame exactly when the frame is non-negative. |
| Scheduler.CScheduler.ProcessTasks | src/circuit/Scheduler.cpp:61-91 | After one frame: the one-shot list holds exactly the entries not yet due; the repeating list is `RepeatKept` (due and terminated entries erased, due and live ones stamped with the frame); the completion queue is empty. The run log grows by the due one-shot tasks, then the due repeating tasks, then the queued completions, each in list order. |
| Scheduler.CScheduler.ProcessOnceTasks | src/circuit/Scheduler.cpp:63-71 | The erase-in-place loop runs exactly the due one-shot tasks, in order, and leaves exactly the others, in order. |
| Scheduler.CScheduler.ProcessRepeatTasks | src/circuit/Scheduler.cpp:73-85 | The list of repeating tasks becomes `RepeatKept` of the old list, and the tasks run are `RepeatRun` of it, appended to those run before. |
| Scheduler.RepeatPass | src/circuit/Scheduler.cpp:73-85 | The loop that stays on an entry after running it ends, when intervals are positive. It leaves exactly `RepeatKept` and runs exactly `RepeatRun`. |
| Scheduler.CScheduler.ProcessFinishTasks | src/circuit/Scheduler.cpp:87-90 | Runs every queued completion, in order, and empties the queue. |
| Scheduler.CScheduler.RunParallelTask | src/circuit/Scheduler.cpp:93-101 | The worker flag is raised, where the source starts the thread. One work item carrying this scheduler, the task and its completion is appended. |
| Scheduler.CScheduler.DeliverCompletion | src/circuit/Scheduler.cpp:116-120 | The worker's hand-back appends the completion task to this scheduler's completion queue. |
| Scheduler.CScheduler.RemoveTask | src/circuit/Scheduler.cpp:103-108 | Both lists lose every entry of the task and keep every other entry. |
| Scheduler.WithoutOnce | src/circuit/Scheduler.cpp:103-108 | The result holds no entry of the task, and every entry of another task exactly as often as the list did. |
| Scheduler.WithoutRepeat | src/circuit/Scheduler.cpp:103-108 | The same for the repeating list. |
| Scheduler.FilterAppend | src/circuit/Scheduler.cpp:103-108 | The filter behind `remove` works piecewise over a concatenation, so the kept entries keep their relative order. |
| Scheduler.FilterCount | src/circuit/Scheduler.cpp:103-108 | The filter keeps each accepted entry as often as it occurs and drops every other entry. |
| Scheduler.OncePartition | src/circuit/Scheduler.cpp:63-71 | As multisets, the tasks that run plus the tasks that stay are exactly the tasks queued. |
| Scheduler.OncePendingExactly | src/circuit/Scheduler.cpp:63-71 | The one-shot entries that stay are exactly those whose frame is later than the current one. |
| Scheduler.OnceSecondPassIdle | src/circuit/Scheduler.cpp:61-71 | A second pass at the same frame runs no one-shot task and changes the list no further. |
| Scheduler.RepeatSecondPassIdle | src/circuit/Scheduler.cpp:73-85 | With positive intervals, a second pass at the same frame runs no repeating task and changes no entry. |
| Scheduler.NotOwnedByKeepsOthers | src/circuit/Scheduler.cpp:36-39 | The filtered queue holds no item of the scheduler. It holds every item of the other schedulers exactly as often as the queue did, in their order. |
| Scheduler.RepeatLoopErase | src/circuit/Scheduler.cpp:76-79 | Erasing a due entry whose task is terminated keeps the loop invariant. |
| Scheduler.RepeatLoopRun | src/circuit/Scheduler.cpp:80-83 | Running a due live entry and stamping it keeps the loop invariant, with the loop still on that entry. |
| Scheduler.RepeatLoopSkip | src/circuit/Scheduler.cpp:76-84 | Passing over an entry that is not due keeps the loop invariant. |
| Scheduler.RepeatLoopDone | src/circuit/Scheduler.cpp:73-85 | At the end of the list, the list is `RepeatKept` and the tasks run are `RepeatRun`. |
| Scheduler.IncrementU32 | src/circuit/Scheduler.cpp:19 | `counterInstance++` on an `unsigned int` stays in range, adds one below the maximum and wraps the maximum to 0. |
| Scheduler.DecrementU32 | src/circuit/Scheduler.cpp:24 | `counterInstance--` stays in range, subtracts one above zero, and wraps 0 to 2^32-1. |
| Energy.StallStepIdle | src/circuit/task/builder/EnergyTask.cpp:40-42 | Without an assignee or without a target, `Update` changes neither the stall state nor the priority. |
| Energy.StallStepFollows | src/circuit/task/builder/EnergyTask.cpp:46-53 | With both, the recorded stall state becomes the economy's. The priority becomes HIGH when stalling starts and NORMAL when it ends, and stays as it was when nothing flipped. |
| Energy.StallStepIdempotent | src/circuit/task/builder/EnergyTask.cpp:37-54 | A second `Update` under the same stall state changes nothing. |
| Energy.EncodeBool | src/circuit/task/builder/EnergyTask.cpp:80-84 | Writing a `bool` gives the byte 0 exactly for false. |
| Energy.DecodeBool | src/circuit/task/builder/EnergyTask.cpp:73-78 | Reading a `bool` where a byte exists gives "byte non-zero" and advances one byte. Where no byte is left, the value stays as it was. |
| Energy.BoolRoundTrip | src/circuit/task/builder/EnergyTask.cpp:70-84 | The written byte reads back as the same `bool`, whatever precedes it. |
| Energy.EnergyTask.Create | src/circuit/task/builder/EnergyTask.cpp:19-25 | A new task is not stalling, has the given priority, and has no assignee, no target and no recorded calls. |
| Energy.EnergyTask.Empty | src/circuit/task/builder/EnergyTask.cpp:27-31 | The load constructor passes no priority: the task takes the one the base class picks, is not stalling, and has nothing recorded. |
| Energy.EnergyTask.Update | src/circuit/task/builder/EnergyTask.cpp:37-54 | The base update runs first and leaves the assignee and target state it is given. The fields then follow `StallStep` over that state, and a priority command is logged exactly when they changed. |
| Energy.EnergyTask.Finish | src/circuit/task/builder/EnergyTask.cpp:56-61 | The manager's energy requirement is cleared before the base `Finish`, and no field changes. |
| Energy.EnergyTask.Cancel | src/circuit/task/builder/EnergyTask.cpp:63-68 | The manager's energy requirement is cleared before the base `Cancel`, and no field changes. |
| Energy.EnergyTask.Save | src/circuit/task/builder/EnergyTask.cpp:80-84 | The stream gains the base image and then one byte for `isStalling`. |
| Energy.EnergyTask.Load | src/circuit/task/builder/EnergyTask.cpp:70-78 | The base class consumes its bytes, which become the base image, and restores the priority, assignee and target it is given. Then `isStalling` is read as `DecodeBool` reads it, and `Load` reports success. No call is logged. |
| Energy.Consumed | src/circuit/task/builder/EnergyTask.cpp:72-75 | The bytes a read of a given length at a position gets: exactly that slice when the stream is long enough, otherwise the rest of the stream. |
| Energy.SaveLoadRoundTrip | src/circuit/task/builder/EnergyTask.cpp:70-84 | Loading what `Save` wrote gives back the saved base image and the saved `isStalling`, and ends one byte past the base image. |
| Reclaim.AssignableAntitone | src/circuit/task/common/ReclaimTask.cpp:44-47 | More build power never makes the task assignable again. |
| Reclaim.ReclaimTask.InArea | src/circuit/task/common/ReclaimTask.cpp:21-28 | The area constructor stores its arguments and starts with no target, no assignee and no build power. |
| Reclaim.ReclaimTask.OnTarget | src/circuit/task/common/ReclaimTask.cpp:30-38 | The target constructor: invalid position, radius 0, cost 1000, not metal, the given target. |
| Reclaim.ReclaimTask.AssignTo | src/circuit/task/common/ReclaimTask.cpp:49-64 | The unit joins. An invalid position becomes the unit's position. A unit with a d-gun gets a d-gun action. The task is touched at the frame, and nothing else changes. |
| Reclaim.ReclaimTask.RemoveAssignee | src/circuit/task/common/ReclaimTask.cpp:71-77 | The unit leaves and the build power is what the base class leaves. The task aborts exactly when no assignee is left (or it had already aborted). |
| Reclaim.ReclaimTask.OnUnitIdle | src/circuit/task/common/ReclaimTask.cpp:120-123 | An idle assignee always aborts the task, and nothing else changes. |
| Reclaim.ReclaimTask.Execute | src/circuit/task/common/ReclaimTask.cpp:87-118 | Two orders: the priority, then reclaiming the target when there is one, or an area otherwise, for 60 seconds. |
| Reclaim.WholeMapReclaim | src/circuit/task/common/ReclaimTask.cpp:103-114 | Without a target and without an area, the order is centred on the map and its radius covers every position up to twice the half size, which is the whole map for the engine's even terrain sizes. |
| Reclaim.GivenAreaReclaim | src/circuit/task/common/ReclaimTask.cpp:103-114 | With a non-zero radius and a valid position, the order uses exactly that area. |
| Reclaim.CentredSquare | src/circuit/task/common/ReclaimTask.cpp:107-110 | An offset from the centre of a side of length `2w` is at most `w` in square. |
| Squad.SquadTask.constructor | src/circuit/task/fighter/SquadTask.cpp:26-39 | No assignees, buckets or leader. The aggregates are at their reset values and the attack timer is unset. The bookkeeping invariant holds. |
| Squad.SquadTask.AssignTo | src/circuit/task/fighter/SquadTask.cpp:45-74 | The unit joins the bucket of its minimum range. The aggregates take its range and speed in. The leader follows `LeaderOnAssign`. The attack power and shields are what the base class leaves. The invariant is kept (aggregates exact, leader an assignee). |
| Squad.SupportNeverTakesOver | src/circuit/task/fighter/SquadTask.cpp:64-66 | A support unit joining a squad that has a leader never becomes leader. |
| Squad.SquadTask.RemoveAssignee | src/circuit/task/fighter/SquadTask.cpp:76-97 | The unit leaves, and its bucket is erased once empty. The leader and aggregates are recomputed over the remaining assignees from the reset values. An empty squad has no leader and reset aggregates. The attack power and shields are what the base class leaves. The invariant is kept. |
| Squad.SquadTask.FindLeader | src/circuit/task/fighter/SquadTask.cpp:130-162 | Both loops fold every walked unit into the aggregates, and the leader becomes `LeaderAfter`. |
| Squad.ScanLeader | src/circuit/task/fighter/SquadTask.cpp:130-162 | The two loops on locals compute `IncludeAll` and `LeaderAfter`. |
| Squad.ScanFirst | src/circuit/task/fighter/SquadTask.cpp:132-145 | The first loop stops right after the first unit that is not support, which becomes leader. Without one it walks everything. |
| Squad.ScanRest | src/circuit/task/fighter/SquadTask.cpp:146-161 | The second loop walks the rest and refines the leader by `LeaderStep`. |
| Squad.FirstNonSupport | src/circuit/task/fighter/SquadTask.cpp:139-143 | The index found is that of a unit that is not support and has only support units before it. With none found, every unit is support. |
| Squad.RefineChoice | src/circuit/task/fighter/SquadTask.cpp:146-161 | The refined leader is the starting one, or a walked unit that is not support and has a terrain area. |
| Squad.LeaderAfterChoice | src/circuit/task/fighter/SquadTask.cpp:130-162 | `FindLeader` never picks a support unit. Starting without a leader, it ends without one exactly when every walked unit is support. |
| Squad.IncludeExact | src/circuit/task/fighter/SquadTask.cpp:60-63 | One `std::min`/`std::max` update keeps the aggregates exactly the minima and maxima over the assignees. |
| Squad.IncludeAllExact | src/circuit/task/fighter/SquadTask.cpp:146-151 | A walk keeps the aggregates exact over the assignees and the walked units. |
| Squad.LeaderAssign | src/circuit/task/fighter/SquadTask.cpp:45-74 | Assignment keeps the leader and aggregate invariant. |
| Squad.LeaderRecomputed | src/circuit/task/fighter/SquadTask.cpp:88-96 | Recomputation over all assignees from the reset state gives a consistent leader and exact aggregates. |
| Squad.LeaderMerged | src/circuit/task/fighter/SquadTask.cpp:112-122 | Walking the newcomers of a merge from a consistent state stays consistent. |
| Squad.BucketsInsert | src/circuit/task/fighter/SquadTask.cpp:50-51 | Inserting the unit into the bucket of its minimum range keeps the buckets consistent with the assignees. |
| Squad.BucketsRemove | src/circuit/task/fighter/SquadTask.cpp:80-86 | Removing it, and erasing an emptied bucket, keeps them consistent. |
| Squad.SquadTask.Merge | src/circuit/task/fighter/SquadTask.cpp:99-123 | Assignees, shields, attack power and buckets are the unions and sums of both squads. The leader may move to a newcomer by `LeaderAfter`. The invariant is kept. |
| Squad.SquadTask.MergeIn | src/circuit/task/fighter/SquadTask.cpp:112-122 | The body of `Merge` on the other squad's values states the same new state. |
| Squad.MergeRanges | src/circuit/task/fighter/SquadTask.cpp:117-120 | The bucket loop yields the key-by-key union `UnionRanges`. |
| Squad.UnionRanges | src/circuit/task/fighter/SquadTask.cpp:117-120 | The merged keys are both key sets, and each bucket is the union of both squads' buckets. |
| Squad.InsertAllValues | src/circuit/task/fighter/SquadTask.cpp:118-120 | After inserting the listed buckets, each key holds its old bucket plus the listed bucket of the same key. |
| Squad.InsertAllUnion | src/circuit/task/fighter/SquadTask.cpp:117-120 | Inserting every bucket of the other squad gives `UnionRanges`. |
| Squad.MergedBucketsValid | src/circuit/task/fighter/SquadTask.cpp:112-120 | The union of two consistent bucket maps is consistent with the union of the assignees. |
| Squad.SquadTask.Attack | src/circuit/task/fighter/SquadTask.cpp:352-357 | Orders are re-issued when at least three seconds have passed since they last were. The timer then records the frame, and nothing else changes. |
| Squad.AttackSpacing | src/circuit/task/fighter/SquadTask.cpp:352-357 | Over any frame sequence, re-issues are at least 90 frames apart, and the timer ends at the last one. |
| Squad.LosTest | src/circuit/task/fighter/SquadTask.cpp:325-349 | The walk tests a chain of single steps toward the end, inside the bounding box and at most `|dx|+|dy|` long. It fails exactly at an obstructed sector with every earlier one clear, and succeeds only on reaching the end with every tested sector clear. |
| Squad.LosEnd | src/circuit/task/fighter/SquadTask.cpp:329-341 | Reaching the end leaves a clear chain whose last sector is the end. |
| Squad.LosAdvance | src/circuit/task/fighter/SquadTask.cpp:329-341 | One step of the walk extends the chain by one sector toward the end. |
| Squad.WalkX | src/circuit/task/fighter/SquadTask.cpp:333-337 | A step in x keeps the error-term invariant and never overshoots `end.x`. |
| Squad.WalkY | src/circuit/task/fighter/SquadTask.cpp:338-341 | A step in y keeps the error-term invariant and never overshoots `end.y`. |
| Squad.WalkXStop | src/circuit/task/fighter/SquadTask.cpp:333-337 | At `x == end.x` the x test passes only at the end point. |
| Squad.WalkYStop | src/circuit/task/fighter/SquadTask.cpp:338-341 | At `y == end.y` the y test passes only at the end point. |
| Squad.AsWrittenDropsSupport | src/circuit/task/fighter/SquadTask.cpp:53-58 | A counterexample: as written, a leaderless squad holding a support unit loses that unit's range from the aggregates when another unit joins. |
| Geometry.FacingTowardCentre | src/circuit/EconomyManager.cpp:956-975 | The facing chosen never points away from the map centre, and it lies along the axis of the larger offset. |
| Geometry.FacingMirrorX | src/circuit/EconomyManager.cpp:956-975 | Mirroring the position across the centre line mirrors the facing. |
| Geometry.FacingTranslate | src/circuit/EconomyManager.cpp:956-975 | Moving the map and the position together leaves the facing alone. |
| Geometry.NudgeStaysOnMap | src/circuit/EconomyManager.cpp:128-131 | A nudge no larger than half the map keeps the position on the map and moves it toward the centre. |
| Geometry.NanoSiteBehind | src/circuit/EconomyManager.cpp:718-732 | The caretaker site lies straight behind the factory, 0.55 footprints away. |
| Geometry.RandomSiteCentral | src/circuit/EconomyManager.cpp:622-624 | The random site lies between a quarter and three quarters of each side. |
| Catalog.FlatMembers | src/circuit/EconomyManager.cpp:899-921 | A task is in the bucket walk exactly when some bucket lists it. |
| Catalog.FlatSplit | src/circuit/EconomyManager.cpp:899-921 | The walk visits each bucket whole, in key order. |
| Catalog.PushedValues | src/circuit/EconomyManager.cpp:588-592 | The identifiers left by `n` pushes to the front of a bucket are the newest first. |
| Catalog.PushEachCounts | src/circuit/EconomyManager.cpp:588-592 | Pushing appends exactly the tasks to the table and lists one more task per push. |
| Catalog.PushEachOk | src/circuit/EconomyManager.cpp:588-592 | Pushing keeps the buckets well formed: listed tasks exist, none is listed twice. |
| Catalog.PushEachOnly | src/circuit/EconomyManager.cpp:588-592 | Pushing tasks of one type gives that bucket exactly their identifiers, newest first, and touches no other bucket. |
| Ranking.SortByCost | src/circuit/EconomyManager.cpp:1468-1479 | The slot of a task is a permutation of the worker infos, sorted by travel cost toward the task. |
| Ranking.InsertByKey | src/circuit/EconomyManager.cpp:1471-1476 | Insertion keeps the order by the comparator's key and adds exactly the element. |
| Ranking.IndexOf | src/circuit/EconomyManager.cpp:909-910 | `std::find` gives the first index holding the info, or the slot size exactly when it is absent. |
| Ranking.RankFollowsCost | src/circuit/EconomyManager.cpp:1471-1476 | In a sorted slot, a worker that costs strictly less ranks strictly earlier. |
| Ranking.ScanTasksMeaning | src/circuit/EconomyManager.cpp:899-921 | The scan finds the least rank of the worker over the tasks that accept it, and collects exactly the accepting tasks of that rank, in bucket order. |
| Ranking.ScanFindsAssignable | src/circuit/EconomyManager.cpp:899-921 | With the worker in every slot, some candidate is collected exactly when some task accepts the worker. |
| Ranking.TieBreakMeaning | src/circuit/EconomyManager.cpp:923-938 | The candidate kept is beaten by none: no other has fewer units, or as many and is closer. Among equals, the first wins. |
| Economy.PushKeepsOk | src/circuit/EconomyManager.cpp:588-594 | Pushing non-ASSIST tasks keeps the invariants and lists exactly the pushed tasks. |
| Economy.RemoveFromBucket | src/circuit/EconomyManager.cpp:485-488 | `std::list::remove` from one bucket lowers the number listed by one when the task was there, and leaves other buckets alone. |
| Economy.SameCatalogOk | src/circuit/EconomyManager.cpp:431-447 | Changes that leave the lists, cache and assignments alone keep the invariants. |
| Economy.FreeCluster | src/circuit/EconomyManager.cpp:738-754 | The nearest-cluster search returns the first cluster, in distance order, whose slot is free. With no result, no slot is free. |
| Economy.RandomSolars | src/circuit/EconomyManager.cpp:617-630 | Without solar spots, exactly two HIGH solar tasks are opened. |
| Economy.PylonTasks | src/circuit/EconomyManager.cpp:653-662 | At most one LOW pylon task is opened, at the centroid of a cluster without a pylon. It is opened exactly when such a cluster exists. |
| Economy.EnergyPlanGate | src/circuit/EconomyManager.cpp:600-602 | No energy task opens once demand is met, and none is an ASSIST task. |
| Economy.EnergyPlanSolar | src/circuit/EconomyManager.cpp:607-632 | Solars open only when income leans to metal, fewer than 16 stand and none is listed. Then one opens per spot, or two at random. |
| Economy.EnergyPlanHeavy | src/circuit/EconomyManager.cpp:633-695 | Otherwise one LOW fusion or singularity opens under its own conditions (the singularity falls back to a fusion without a spot), followed by at most one pylon. |
| Economy.ExpandUpdateOk | src/circuit/EconomyManager.cpp:572-596 | The expansion update keeps the invariants and the count in step. |
| Economy.ExpandUpdateGate | src/circuit/EconomyManager.cpp:574-579 | Nothing changes when demand is met or an expansion is listed. |
| Economy.ExpandUpdateOpens | src/circuit/EconomyManager.cpp:579-595 | Otherwise the expansion bucket holds exactly one new task per free spot, newest first, no other bucket changes, and the cache is stale. |
| Economy.EnergyUpdateOk | src/circuit/EconomyManager.cpp:598-696 | The energy update keeps the invariants, appends exactly the plan and raises the count by its size. |
| Economy.BuilderUpdateOk | src/circuit/EconomyManager.cpp:698-761 | The build-power update keeps the invariants and the count, and opens at most one task. |
| Economy.BuildPowerTaskMeaning | src/circuit/EconomyManager.cpp:698-761 | A LOW caretaker is opened exactly when some factory has fewer than four, for the first such factory, straight behind it. Otherwise a factory is opened at the nearest cluster without one, or at a random central site. |
| Economy.FactoryUpdateMeaning | src/circuit/EconomyManager.cpp:763-786 | The factory update keeps the invariants. It opens nothing while the list is at twice the factories or a build-power task is listed. Otherwise it puts one build-power task of quantity 2 at the front, at the drawn factory's position, so at most one is ever listed. |
| Economy.FindBuildPower | src/circuit/EconomyManager.cpp:772-776 | The scan finds a listed build-power task exactly when one exists. |
| Economy.FindSmallFactory | src/circuit/EconomyManager.cpp:708-713 | The loop finds the first factory with fewer than four caretakers. |
| Economy.FindAssignable | src/circuit/EconomyManager.cpp:847-853 | The loop finds the first factory task that accepts the unit. |
| Economy.FirstAssignable | src/circuit/EconomyManager.cpp:847-853 | The index found accepts the unit, and no earlier task does. |
| Economy.MoveToBackMeaning | src/circuit/EconomyManager.cpp:855-866 | `splice` to the end keeps the same tasks, puts the moved one last, and keeps the others in order. |
| Economy.PreparedFactoryMeaning | src/circuit/EconomyManager.cpp:841-867 | The factory gets the first accepting task, or a fresh default task when none accepts. The list becomes a rotation with the chosen task last, and the invariants hold. |
| Economy.WatchdogMeaning | src/circuit/EconomyManager.cpp:788-823 | The watchdog drops exactly the assistants stuck past their timeout and keeps every other start frame. Each of them is also released from its deleted ASSIST task and then has no builder task, while every other unit keeps its task. Nothing else changes. |
| Economy.WatchdogIdempotent | src/circuit/EconomyManager.cpp:788-823 | A second watchdog run in the same frame removes nothing more. |
| Economy.WatchdogMonotone | src/circuit/EconomyManager.cpp:788-823 | Expiry is monotone in time. |
| Economy.SweepInfo | src/circuit/EconomyManager.cpp:791-822 | The erase loop over `builderInfo` computes the swept start frames and the unit-to-task map without the expired assistants. |
| Economy.EngineSlotsExact | src/circuit/EconomyManager.cpp:1447-1479 | In a fresh cache rebuilt from the engine's answers, every slot holds each worker's engine info, names only workers and names no unit twice. |
| Economy.UnitsDistinct | src/circuit/EconomyManager.cpp:1447-1461 | A slot with as many units as entries names no unit twice. |
| Economy.FindInfo | src/circuit/EconomyManager.cpp:1435-1440 | The front-slot search returns the first info of the slot that belongs to the unit: every info before it belongs to another unit. |
| Economy.CollectInfos | src/circuit/EconomyManager.cpp:1447-1461 | One info per worker, from the engine's position and squared speed, and the asking unit's exactly when it is a worker. |
| Economy.BuildRelation | src/circuit/EconomyManager.cpp:1468-1479 | One slot per listed task in bucket order. Each slot holds the infos sorted by cost toward that task. |
| Economy.ScanCandidates | src/circuit/EconomyManager.cpp:899-921 | The nested bucket loops compute `ScanTasks`. |
| Economy.ScanBucket | src/circuit/EconomyManager.cpp:906-919 | The inner loop over one bucket advances the scan from the bucket's first flat position to one past its end, as `ScanTasks` gives it. |
| Economy.ScanOne | src/circuit/EconomyManager.cpp:909-917 | One body pass extends the scan by one task: an assignable task with a lower rank starts a new candidate list, an equal rank joins it, anything else leaves the scan alone. |
| Economy.PickTask | src/circuit/EconomyManager.cpp:923-938 | The tie-break loop computes `TieBreak`. |
| Economy.CacheRanks | src/circuit/EconomyManager.cpp:903-910 | In a fresh non-empty cache the worker's rank in any slot is below the front slot's size. |
| Economy.PreparedBuilderOk | src/circuit/EconomyManager.cpp:891-949 | A new DEFAULT task is opened exactly when no listed task accepts the worker, which includes a catalogue with nothing listed and an empty cache. Either way the worker gets the chosen task, the invariants hold and the count stays in step. |
| Economy.PreparedOnEmptyCatalog | src/circuit/EconomyManager.cpp:940-946 | With nothing listed, the picker opens a LOW DEFAULT task at the worker's position. That task becomes the only listed one, the worker gets it, the count rises by one and the cache goes stale. |
| Economy.PreparedExisting | src/circuit/EconomyManager.cpp:923-938 | With a candidate, the chosen task is a listed one. |
| Economy.PreparedNew | src/circuit/EconomyManager.cpp:940-946 | Without one, the chosen task is the freshly pushed one. |
| Economy.ChosenListed | src/circuit/EconomyManager.cpp:899-938 | A candidate implies the worker's info was found. The chosen task accepts the worker and has the least rank of all accepting tasks. No candidate of that rank has fewer units, or as many and is closer. |
| Economy.TiedMember | src/circuit/EconomyManager.cpp:911-917 | A collected candidate accepts the worker at the rank found. |
| Economy.CreatedOk | src/circuit/EconomyManager.cpp:427-455 | A unit started by a builder with a task is listed last under that task, and a builder task takes it as target. Otherwise nothing changes. The invariants, lists, count and cache are kept. |
| Economy.FinishedOk | src/circuit/EconomyManager.cpp:457-502 | Finishing keeps the invariants and forgets the unit. Unless a builder task completes, the count stays in step. |
| Economy.FinishedBuilder | src/circuit/EconomyManager.cpp:482-490 | A completed builder task leaves its bucket and the cache goes stale. The count stays in step exactly when the task was listed there. |
| Economy.FinishedFactory | src/circuit/EconomyManager.cpp:464-481 | A factory task that is done leaves the factory list, and every unit it started loses it. One not done only forgets the finished unit. |
| Economy.DestroyedOk | src/circuit/EconomyManager.cpp:514-548 | Destruction keeps the invariants, lists, count and cache, and forgets an unfinished unit. A finished unit changes nothing. |
| Economy.DestroyedFactory | src/circuit/EconomyManager.cpp:522-530 | A factory task keeps every started unit but the dead one, and an emptied list is erased. |
| Economy.DestroyedBuilder | src/circuit/EconomyManager.cpp:531-535 | A builder task whose building died loses its unfinished list and its target. |
| Economy.FallbackOk | src/circuit/EconomyManager.cpp:977-1007 | The fallback keeps the invariants. The abandoned task is unlisted and uncounted (in step exactly when it was listed), and the new assist task is never listed. |
| Economy.FallbackExpires | src/circuit/EconomyManager.cpp:977-1007 | The new assistant is released by the watchdog exactly when more than 20 seconds have passed. |
| Economy.ExecutedOk | src/circuit/EconomyManager.cpp:951-1430 | Executing keeps the invariants and leaves the worker with a task. |
| Economy.ExecutedAssist | src/circuit/EconomyManager.cpp:1411-1427 | ASSIST and DEFAULT tasks record the start frame once, never reset it, and change nothing else. |
| Economy.ExecutedAsIs | src/circuit/EconomyManager.cpp:1015-1027 | A task with a target, or with a build position the engine accepts, is carried out with no change. |
| Economy.ExecutedStores | src/circuit/EconomyManager.cpp:1043-1045 | Otherwise a found site is stored as the task's build position, and the lists and count stay. |
| Economy.ExecutedFallsBack | src/circuit/EconomyManager.cpp:1046-1049 | Without a site the worker falls back to an ASSIST task. The count stays in step exactly when the abandoned task was listed. |
| Economy.ClearSlots | src/circuit/EconomyManager.cpp:151-155 | After the sweep no slot names the unit, and the other kind of slot is untouched. |
| Economy.AttachNano | src/circuit/EconomyManager.cpp:270-275 | The caretaker joins exactly the factories within its build range. |
| Economy.DetachNano | src/circuit/EconomyManager.cpp:284-286 | The caretaker leaves every factory's list. |
| Economy.OrphanUnits | src/circuit/EconomyManager.cpp:472-474 | The loop clears the task of every unit the completed factory task started. |
| Economy.PushAll | src/circuit/EconomyManager.cpp:588-592 | The push loop gives `PushEach`. |
| Manager.FusionFinishedOk | src/circuit/EconomyManager.cpp:341-348 | A finished fusion lists one HIGH DDM task at its position, at the front of that bucket, and the count stays in step. |
| Manager.SinguTasks | src/circuit/EconomyManager.cpp:360-379 | A finished singularity opens seven HIGH non-assist tasks at its position. |
| Manager.SinguAsWrittenDrifts | src/circuit/EconomyManager.cpp:380 | As written, the count drifts one above the listed tasks per singularity. |
| Manager.SinguFinishedOk | src/circuit/EconomyManager.cpp:357-382 | The corrected handler lists exactly the seven tasks and keeps the count in step. |
| Manager.FactoryHandlersOk | src/circuit/EconomyManager.cpp:96-156 | A finished factory is recorded with its caretakers and takes its cluster slot. A destroyed one is named nowhere afterwards, and the pylons stay. The invariants and the count are kept. |
| Manager.NanoRoundTrip | src/circuit/EconomyManager.cpp:242-287 | A caretaker that finishes and is then destroyed leaves the factories and the power as they were. |
| Manager.WorkerHandlersOk | src/circuit/EconomyManager.cpp:293-321 | A finished constructor becomes a worker. A destroyed one leaves with its task. The cache goes stale and the invariants hold. |
| Manager.WorkerRoundTrip | src/circuit/EconomyManager.cpp:293-321 | A new worker that finishes and is destroyed leaves everything but the cache flag as it was. |
| Manager.PylonRoundTrip | src/circuit/EconomyManager.cpp:388-401 | A pylon placed on a free cluster and destroyed leaves the clusters as they were. The factory slots never change. |
| Manager.RebuiltCacheOk | src/circuit/EconomyManager.cpp:1444-1483 | A rebuilt cache has one slot per listed task (none when nothing is listed). It is fresh for the state it is stored in and holds the asking worker in every slot. |
| Manager.FirstIdleHasNoFront | src/circuit/EconomyManager.cpp:903 | As written: at the first idle of a game's first worker the state is valid but nothing is listed, so every rebuilt cache is empty and `front()` has no slot to read. |
| Manager.ChooseBuildPowerTask | src/circuit/EconomyManager.cpp:706-759 | The search computes `BuildPowerTask`. |
| Manager.PickFactoryTask | src/circuit/EconomyManager.cpp:841-867 | The search leaves the state `PreparedFactory` describes. |
| Manager.PickBuilderTask | src/circuit/EconomyManager.cpp:899-946 | The scan and tie-break leave the state `PreparedBuilder` describes. |
| Manager.EconomyManager.constructor | src/circuit/EconomyManager.cpp:36-51 | No tasks, units or power. The cache holds one empty slot, was never built and is stale. |
| Manager.EconomyManager.Init | src/circuit/EconomyManager.cpp:563-570 | One empty slot per metal cluster, and nothing else changes. |
| Manager.EconomyManager.UpdateExpandTasks | src/circuit/EconomyManager.cpp:572-596 | The new state is `ExpandUpdate`. The invariants and the count are kept. |
| Manager.EconomyManager.UpdateEnergyTasks | src/circuit/EconomyManager.cpp:598-696 | The new state is `EnergyUpdate`. The invariants and the count are kept. |
| Manager.EconomyManager.UpdateBuilderTasks | src/circuit/EconomyManager.cpp:698-761 | The new state is `BuilderUpdate` over the factories' iteration order. |
| Manager.EconomyManager.UpdateFactoryTasks | src/circuit/EconomyManager.cpp:763-786 | The new state is `FactoryUpdate` over the factories' iteration order. |
| Manager.EconomyManager.PrepareFactory | src/circuit/EconomyManager.cpp:841-867 | The new state and the task are `PreparedFactory`. |
| Manager.EconomyManager.GetWorkerTaskRelations | src/circuit/EconomyManager.cpp:1432-1484 | The cache is reused exactly when built under a second ago with nothing changed. Otherwise it is rebuilt at this frame with one slot per listed task. Every slot then holds one info per worker, each the engine's position and squared speed for its unit, and the asker's info is the engine's. Either way the cache is fresh and, unless empty, holds the worker. Nothing else changes. |
| Manager.EconomyManager.PrepareBuilder | src/circuit/EconomyManager.cpp:891-949 | The cache is the one `GetWorkerTaskRelations` leaves (`CacheTaken`: reused, or rebuilt from the engine's answers). Over it, the new state and the task are `PreparedBuilder`, also with nothing listed. The invariants and the count are kept and the worker holds the task. |
| Manager.EconomyManager.Repick | src/circuit/EconomyManager.cpp:305-306 | The constructor loses its task and then holds the one `PreparedBuilder` picks over the cache `CacheTaken` describes. |
| Manager.EconomyManager.UnitCreated | src/circuit/EconomyManager.cpp:427-455 | The new state is `Created`. |
| Manager.EconomyManager.UnitFinished | src/circuit/EconomyManager.cpp:457-502 | The new state is `Finished`, and the unit is no longer unfinished. |
| Manager.EconomyManager.UnitDestroyed | src/circuit/EconomyManager.cpp:514-548 | The new state is `Destroyed`. |
| Manager.EconomyManager.ExecuteBuilder | src/circuit/EconomyManager.cpp:951-1430 | The new state is `Executed`. A patrol ten squares toward the centre is ordered exactly when the worker falls back. |
| Manager.EconomyManager.AssistFallback | src/circuit/EconomyManager.cpp:977-1007 | The new state is `Fallback`. |
| Manager.EconomyManager.WorkerWatchdog | src/circuit/EconomyManager.cpp:788-823 | The new state is `WatchdogUpdate`: the expired assistants lose their start frame and their task. |
| Manager.EconomyManager.FactoryFinished | src/circuit/EconomyManager.cpp:96-135 | The factory joins (`FactoryJoined`), then picks its task (`PreparedFactory`). It is moved three quarters of its span toward the centre. |
| Manager.EconomyManager.FactoryIdle | src/circuit/EconomyManager.cpp:136-141 | A factory without a task picks one. One with a task changes nothing. |
| Manager.EconomyManager.FactoryDestroyed | src/circuit/EconomyManager.cpp:142-156 | The new state is `FactoryLeft`. |
| Manager.EconomyManager.CommanderFinished | src/circuit/EconomyManager.cpp:161-208 | The power grows by the build speed, and the factory it orders faces the map centre. |
| Manager.EconomyManager.CommanderDestroyed | src/circuit/EconomyManager.cpp:209-214 | A finished commander takes its power away. |
| Manager.EconomyManager.NanoFinished | src/circuit/EconomyManager.cpp:242-276 | The caretaker joins the factories in range and patrols one span toward the centre. |
| Manager.EconomyManager.NanoDestroyed | src/circuit/EconomyManager.cpp:277-287 | The new state is `NanoLeft`. |
| Manager.EconomyManager.ConstructorFinished | src/circuit/EconomyManager.cpp:293-299 | The new state is `WorkerJoined`. |
| Manager.EconomyManager.ConstructorIdle | src/circuit/EconomyManager.cpp:300-309 | An assistant drops its target and keeps its task. Any other constructor, even with nothing listed, loses its task and picks one over the cache `CacheTaken` describes. Then the task is executed. |
| Manager.EconomyManager.ConstructorDestroyed | src/circuit/EconomyManager.cpp:310-321 | The new state is `WorkerLeft`. |
| Manager.EconomyManager.SolarCreated | src/circuit/EconomyManager.cpp:327-329 | The solar count rises by one. |
| Manager.EconomyManager.SolarDestroyed | src/circuit/EconomyManager.cpp:330-332 | The solar count drops by one. |
| Manager.EconomyManager.FusionCreated | src/circuit/EconomyManager.cpp:338-340 | The fusion count rises by one. |
| Manager.EconomyManager.FusionFinished | src/circuit/EconomyManager.cpp:341-348 | The new state is `FusionFinishedState`. |
| Manager.EconomyManager.FusionDestroyed | src/circuit/EconomyManager.cpp:349-351 | The fusion count drops by one. |
| Manager.EconomyManager.SingularityFinished | src/circuit/EconomyManager.cpp:357-382 | The corrected handler: seven tasks pushed and counted. |
| Manager.EconomyManager.PylonCreated | src/circuit/EconomyManager.cpp:388-394 | The pylon takes its cluster's slot when one was found. |
| Manager.EconomyManager.PylonDestroyed | src/circuit/EconomyManager.cpp:395-401 | No cluster slot names the pylon afterwards. |

## Left out

- The worker thread of `CScheduler` is not modelled: the condition variable, `CMultiQueue`, `join` and the actual parallel run. What it shares with the scheduler is modelled as sequential state, and `DeliverCompletion` stands for its hand-back.
- The `RunTaskEvery` calls with a start offset (`EconomyManager.cpp:71-75`) are not modelled. They use an overload of `Scheduler.h`, and `Scheduler.h` is not part of this model. Only the two-argument form in `Scheduler.cpp` is.
- Scheduler.CScheduler.ProcessTasks: requires positive intervals. With interval 0 the source's repeating loop never advances past a live task and does not end.
- `GameTask::Run`, unit orders and every engine call are not modelled. Each is a parameter, a return value or an event log, so nothing of the engine's behaviour is assumed.
- `float` arithmetic is modelled as `real`: no rounding, no NaN, no infinities. `std::numeric_limits<float>::max()` is the constant `FLT_MAX`.
- `rand()` is a parameter (`r`, `rnd`), because it is an outside source of values.
- `ISquadTask`:
  - The terrain height interpolation of the line-of-fire test is an `obstructs` oracle. The model proves the walk, not the elevation arithmetic.
  - `IsMustRegroup`, `GetMergeTask`, `CheckMergeTask`, `IsMergeSafe`, `GetLeaderPos` and `ActivePath` are not modelled. They are path planning and engine queries.
  - The travel-action path and state copied to newcomers in `Merge` are not modelled.
  - The angles and trigonometry of `Attack` are not modelled; only its timer is.
- `IReclaimTask::Execute`: the whole-map radius `sqrt(halfWidth² + halfHeight²)` is kept symbolic (`HalfDiagonal`). The d-gun action is recorded as a list of units.
- `CEconomyManager::ExecuteFactory` and `FindUnitToAssist` are not modelled. They only compute engine orders, and the manager's state is not changed by them.
- `UnitGiven` and `UnitCaptured` are not modelled separately. Each is a composition of the modelled created/finished/destroyed events.
- Deleting tasks (`delete`, `MarkCompleted`, `free_clear`) is not modelled: the task tables only grow, and a deleted task simply stops being listed. The watchdog's deleted ASSIST task is also released by the unit that held it. That no other unit still names it is not modelled, because `MarkCompleted`'s body is not part of this model.
- `CFactoryTask::Progress`/`Regress` are not modelled. `IsDone()` after `Progress()` is the parameter `done`, and `FactoryTask.cpp` is not part of this model.
- The numeric values of `CBuilderTask::TaskType` are not modelled. The bucket iteration order is the fixed order `ALL_TYPES`, which the cache and the picker share.
- The engine's dispatch of an event to the handler of the unit's type is not modelled. Each handler is its own method, called by the caller.
- Manager.EconomyManager.GetWorkerTaskRelations: the order of workers of equal cost within a rebuilt slot is left open, since `std::sort` is not stable and the cost is a float comparison; the walk order of `workers` is open too.
- Manager.EconomyManager.ConstructorIdle: its intermediate state is stated through a ghost `mid`. The method's effect is the composition of the two stated steps, and no single closed form is given.
- The 64-bit `size_t` comparison is modelled only where the signed count meets it, in `Economy.DemandMet`. The other containers' sizes cannot overflow in the model.
- `ExecuteBuilder`'s per-type site searches are not modelled. These are `FindBuildSiteMindMex`, `FindClosestBuildSite`, the nearest metal spots and the per-type unit definitions. They are collapsed into the engine's answers `buildPosOk` (the build position and facing are accepted) and `site` (the result of the search). The priority-command payloads and the build orders are not modelled.
- The printing and debugging output of every file is not modelled.
- Squad.SquadTask.AssignTo, Squad.SquadTask.RemoveAssignee: `IFighterTask::AssignTo`/`RemoveAssignee` are not part of this model. The attack power and shields they leave are parameters; that they add or remove the unit in `units` and touch no field of `ISquadTask` is assumed.
- Reclaim.ReclaimTask.AssignTo: `IUnitTask::AssignTo` is assumed to add the unit and to leave the build power alone (the source calls it, not `IBuilderTask::AssignTo`). Reclaim.ReclaimTask.RemoveAssignee takes the build power `IBuilderTask::RemoveAssignee` leaves as a parameter.
- Energy.EnergyTask.Load: `IBuilderTask::Load` is not part of this model. How many bytes it consumes and the priority, assignee and target it restores are parameters.
- Energy.EnergyTask.Update: `IBuilderTask::Update` is not part of this model. Whether it leaves an assignee and a target is a parameter; that it leaves the priority and the stall flag alone is assumed.

## Findings

| source | as written | input that shows it | evidently intended | confidence | as-written member | corrected member |
|---|---|---|---|---|---|---|
| src/circuit/task/fighter/SquadTask.cpp:53-58 | A squad without a leader overwrites the four aggregates with the joining unit's values. | A squad whose only unit is a support unit of range 500 (so it has no leader) takes in a unit of range 100. `highestRange` becomes 100, below the support unit's range. | The aggregates take the unit in by `std::min`/`std::max`, as in the other branch, so they stay exact over every assignee. | medium, not executed | Squad.AsWrittenDropsSupport | Squad.SquadTask.AssignTo |
| src/circuit/EconomyManager.cpp:380 | The finished singularity handler pushes seven tasks but raises `builderTasksCount` by eight. | Any finished singularity: the count ends one above the number of listed tasks. | The count grows by the number of tasks pushed (seven), as every other site keeps it. | high, not executed | Manager.SinguAsWrittenDrifts | Manager.SinguFinishedOk |
| src/circuit/EconomyManager.cpp:903 | `PrepareBuilder` reads `wtRelation.front().size()`, but a rebuilt cache has one slot per listed task. With nothing listed it is empty, and `front()` on an empty vector is undefined behaviour. The next rebuild's `free_clear(wtRelation.front())` at line 1444 is undefined behaviour too. | The first idle of the first constructor of a game, when no builder task has been opened yet. | A missing front slot reads as an empty one, so the scan finds no candidate and the DEFAULT task of lines 940-946 is opened. | medium, not executed | Manager.FirstIdleHasNoFront | Economy.PreparedOnEmptyCatalog |

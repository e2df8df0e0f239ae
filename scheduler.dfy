/** The frame scheduler (`CScheduler`): one-shot tasks bound to an activation
    frame, repeating tasks bound to an interval, and a completion queue that
    the background worker fills. The worker thread itself is not modelled;
    what the scheduler shares with it (the work queue, the running flag and
    the live-instance counter) is the sequential state of `SharedState`. */
module Scheduler {
  import opened Common

  /** Identity of a `std::shared_ptr<CGameTask>`; its `Run` is opaque. */
  type TaskId = nat

  /** Identity of the owning scheduler, standing for its `weak_ptr` `self`. */
  type SchedulerId = nat

  datatype OnceTask = OnceTask(task: TaskId, frame: int)

  datatype RepeatTask = RepeatTask(task: TaskId, frameInterval: int, lastFrame: int)

  /** An item of the shared work queue; the sentinel has no task. */
  datatype WorkTask = WorkTask(scheduler: SchedulerId, task: Option<TaskId>, onComplete: Option<TaskId>)

  /** `counterInstance` is an `unsigned int`. */
  const UINT_MODULUS: int := 0x1_0000_0000

  /** The statics of `CScheduler`: the work queue, the worker-running flag
      and the number of live scheduler instances. */
  class SharedState {
    var workTasks: seq<WorkTask>
    var workerRunning: bool
    var counterInstance: int

    ghost predicate Valid()
      reads this
    {
      0 <= counterInstance < UINT_MODULUS
    }

    constructor ()
      ensures Valid()
      ensures workTasks == [] && !workerRunning && counterInstance == 0
    {
      workTasks := [];
      workerRunning := false;
      counterInstance := 0;
    }
  }

  // ---------------------------------------------------------------------
  // Specification of one `ProcessTasks(frame)` pass.
  // ---------------------------------------------------------------------

  /** A repeating task is due when at least `frameInterval` frames have passed
      since it last ran. */
  predicate IsDue(r: RepeatTask, frame: int) {
    frame - r.lastFrame >= r.frameInterval
  }

  /** The one-shot tasks that run at `frame`, in list order. */
  function DueOnce(ts: seq<OnceTask>, frame: int): seq<TaskId>
  {
    if ts == [] then []
    else
      var last := ts[|ts| - 1];
      DueOnce(ts[..|ts| - 1], frame) + (if last.frame <= frame then [last.task] else [])
  }

  /** The one-shot entries left in the list after `frame`, in list order. */
  function PendingOnce(ts: seq<OnceTask>, frame: int): seq<OnceTask>
  {
    if ts == [] then []
    else
      var last := ts[|ts| - 1];
      PendingOnce(ts[..|ts| - 1], frame) + (if last.frame <= frame then [] else [last])
  }

  /** What happens to one repeating entry: a due entry whose task is
      terminated is erased, a due entry otherwise runs and records `frame`,
      an entry that is not due is left as it is. */
  function RepeatOutcome(r: RepeatTask, frame: int, terminated: set<TaskId>): seq<RepeatTask>
  {
    if !IsDue(r, frame) then [r]
    else if r.task in terminated then []
    else [r.(lastFrame := frame)]
  }

  /** The repeating tasks that run at `frame`, in list order. */
  function RepeatRun(rs: seq<RepeatTask>, frame: int, terminated: set<TaskId>): seq<TaskId>
  {
    if rs == [] then []
    else
      var last := rs[|rs| - 1];
      RepeatRun(rs[..|rs| - 1], frame, terminated)
        + (if IsDue(last, frame) && last.task !in terminated then [last.task] else [])
  }

  /** The repeating list after `frame`. */
  function RepeatKept(rs: seq<RepeatTask>, frame: int, terminated: set<TaskId>): seq<RepeatTask>
  {
    if rs == [] then []
    else
      RepeatKept(rs[..|rs| - 1], frame, terminated) + RepeatOutcome(rs[|rs| - 1], frame, terminated)
  }

  predicate PositiveIntervals(rs: seq<RepeatTask>) {
    forall k :: 0 <= k < |rs| ==> rs[k].frameInterval > 0
  }

  function OnceIds(ts: seq<OnceTask>): seq<TaskId>
  {
    if ts == [] then [] else OnceIds(ts[..|ts| - 1]) + [ts[|ts| - 1].task]
  }

  /** The entries of `s` that `keep` accepts, in their order: what
      `std::list::remove`/`remove_if` leave. */
  function Filter<T(!new)>(s: seq<T>, keep: T -> bool): (r: seq<T>)
    ensures forall k :: 0 <= k < |r| ==> keep(r[k]) && r[k] in s
  {
    if s == [] then []
    else Filter(s[..|s| - 1], keep) + (if keep(s[|s| - 1]) then [s[|s| - 1]] else [])
  }

  /** Each accepted entry is kept as often as it occurs; the others are
      gone. */
  lemma {:induction false} FilterCount<T(!new)>(s: seq<T>, keep: T -> bool)
    ensures forall x :: multiset(Filter(s, keep))[x] == if keep(x) then multiset(s)[x] else 0
  {
    if s != [] {
      var init := s[..|s| - 1];
      assert s == init + [s[|s| - 1]];
      FilterCount(init, keep);
    }
  }

  /** Filtering a concatenation filters each part in place: the kept
      entries keep their relative order. */
  lemma {:induction false} FilterAppend<T(!new)>(a: seq<T>, b: seq<T>, keep: T -> bool)
    ensures Filter(a + b, keep) == Filter(a, keep) + Filter(b, keep)
  {
    if b != [] {
      var init := b[..|b| - 1];
      var last := b[|b| - 1];
      var tail := if keep(last) then [last] else [];
      assert (a + b)[..|a + b| - 1] == a + init;
      assert (a + b)[|a + b| - 1] == last;
      assert Filter(a + b, keep) == Filter(a + init, keep) + tail;
      assert Filter(b, keep) == Filter(init, keep) + tail;
      FilterAppend(a, init, keep);
    } else {
      assert a + b == a;
    }
  }

  /** Entries whose task is `task` are dropped (`std::list::remove` with the
      entry equality, which compares tasks). */
  function WithoutOnce(ts: seq<OnceTask>, task: TaskId): (r: seq<OnceTask>)
    ensures forall k :: 0 <= k < |r| ==> r[k].task != task && r[k] in ts
    ensures forall e :: multiset(r)[e] == if e.task == task then 0 else multiset(ts)[e]
  {
    FilterCount(ts, (e: OnceTask) => e.task != task);
    Filter(ts, (e: OnceTask) => e.task != task)
  }

  function WithoutRepeat(rs: seq<RepeatTask>, task: TaskId): (r: seq<RepeatTask>)
    ensures forall k :: 0 <= k < |r| ==> r[k].task != task && r[k] in rs
    ensures forall e :: multiset(r)[e] == if e.task == task then 0 else multiset(rs)[e]
  {
    FilterCount(rs, (e: RepeatTask) => e.task != task);
    Filter(rs, (e: RepeatTask) => e.task != task)
  }

  /** The work queue without the items owned by scheduler `id`. */
  function NotOwnedBy(q: seq<WorkTask>, id: SchedulerId): seq<WorkTask>
  {
    Filter(q, (w: WorkTask) => w.scheduler != id)
  }


  // ---------------------------------------------------------------------
  // Properties of the specification.
  // ---------------------------------------------------------------------

  /** Every one-shot entry either runs or stays: the ids that run and the ids
      that stay together are the ids that were queued. */
  lemma {:induction false} OncePartition(ts: seq<OnceTask>, frame: int)
    ensures multiset(DueOnce(ts, frame)) + multiset(OnceIds(PendingOnce(ts, frame))) == multiset(OnceIds(ts))
    ensures |DueOnce(ts, frame)| + |PendingOnce(ts, frame)| == |ts|
  {
    if ts != [] {
      var init := ts[..|ts| - 1];
      var last := ts[|ts| - 1];
      OncePartition(init, frame);
      OnceIdsAppend(PendingOnce(init, frame), if last.frame <= frame then [] else [last]);
    }
  }

  /** The entries that stay are exactly those activated after `frame`. */
  lemma {:induction false} OncePendingExactly(ts: seq<OnceTask>, frame: int)
    ensures forall k :: 0 <= k < |PendingOnce(ts, frame)| ==> PendingOnce(ts, frame)[k].frame > frame
    ensures forall k :: 0 <= k < |ts| && ts[k].frame > frame ==> ts[k] in PendingOnce(ts, frame)
  {
    if ts != [] {
      var init := ts[..|ts| - 1];
      OncePendingExactly(init, frame);
      forall k | 0 <= k < |ts| && ts[k].frame > frame ensures ts[k] in PendingOnce(ts, frame) {
        if k < |ts| - 1 {
          assert ts[k] == init[k];
        }
      }
    }
  }

  lemma {:induction false} OnceIdsAppend(a: seq<OnceTask>, b: seq<OnceTask>)
    ensures OnceIds(a + b) == OnceIds(a) + OnceIds(b)
  {
    if b != [] {
      assert (a + b)[..|a + b| - 1] == a + b[..|b| - 1];
      OnceIdsAppend(a, b[..|b| - 1]);
    } else {
      assert a + b == a;
    }
  }

  /** A second pass at the same frame finds no one-shot task due and leaves
      the list as the first pass left it. */
  lemma {:induction false} OnceSecondPassIdle(ts: seq<OnceTask>, frame: int)
    ensures DueOnce(PendingOnce(ts, frame), frame) == []
    ensures PendingOnce(PendingOnce(ts, frame), frame) == PendingOnce(ts, frame)
  {
    if ts != [] {
      var init := ts[..|ts| - 1];
      var last := ts[|ts| - 1];
      OnceSecondPassIdle(init, frame);
      var p := PendingOnce(init, frame);
      if last.frame > frame {
        assert (p + [last])[..|p + [last]| - 1] == p;
      } else {
        assert PendingOnce(ts, frame) == p;
      }
    }
  }

  /** With positive intervals, a second pass at the same frame runs no
      repeating task and changes no entry: every entry that ran has just
      recorded `frame` and is not due again. */
  lemma {:induction false} RepeatSecondPassIdle(rs: seq<RepeatTask>, frame: int, terminated: set<TaskId>, terminated': set<TaskId>)
    requires PositiveIntervals(rs)
    ensures RepeatRun(RepeatKept(rs, frame, terminated), frame, terminated') == []
    ensures RepeatKept(RepeatKept(rs, frame, terminated), frame, terminated') == RepeatKept(rs, frame, terminated)
  {
    if rs != [] {
      var init := rs[..|rs| - 1];
      var last := rs[|rs| - 1];
      assert PositiveIntervals(init) by {
        forall k | 0 <= k < |init| ensures init[k].frameInterval > 0 {
          assert init[k] == rs[k];
        }
      }
      RepeatSecondPassIdle(init, frame, terminated, terminated');
      var p := RepeatKept(init, frame, terminated);
      var o := RepeatOutcome(last, frame, terminated);
      if o != [] {
        assert (p + o)[..|p + o| - 1] == p;
        assert (p + o)[|p + o| - 1] == o[0];
        assert !IsDue(o[0], frame);
      } else {
        assert p + o == p;
      }
    }
  }

  /** Dropping the items of one owner keeps every other item, as often as
      it was queued, and the kept items in their order. */
  lemma NotOwnedByKeepsOthers(q: seq<WorkTask>, id: SchedulerId, q2: seq<WorkTask>)
    ensures forall k :: 0 <= k < |NotOwnedBy(q, id)| ==> NotOwnedBy(q, id)[k].scheduler != id
    ensures forall w :: multiset(NotOwnedBy(q, id))[w] == if w.scheduler == id then 0 else multiset(q)[w]
    ensures NotOwnedBy(q + q2, id) == NotOwnedBy(q, id) + NotOwnedBy(q2, id)
  {
    FilterCount(q, (w: WorkTask) => w.scheduler != id);
    FilterAppend(q, q2, (w: WorkTask) => w.scheduler != id);
  }

  /** Extending the examined prefix by one entry. */
  lemma RepeatPrefixStep(rs: seq<RepeatTask>, p: int, frame: int, terminated: set<TaskId>)
    requires 0 <= p < |rs|
    ensures RepeatKept(rs[..p + 1], frame, terminated) == RepeatKept(rs[..p], frame, terminated) + RepeatOutcome(rs[p], frame, terminated)
    ensures RepeatRun(rs[..p + 1], frame, terminated)
            == RepeatRun(rs[..p], frame, terminated) + (if IsDue(rs[p], frame) && rs[p].task !in terminated then [rs[p].task] else [])
  {
    assert rs[..p + 1][..p] == rs[..p];
  }

  lemma DropCons<T>(s: seq<T>, p: int)
    requires 0 <= p < |s|
    ensures s[p..] == [s[p]] + s[p + 1..]
  {
  }

  lemma SplitAround<T>(a: seq<T>, x: T, b: seq<T>)
    ensures (a + ([x] + b))[|a|] == x
    ensures a + ([x] + b) == (a + [x]) + b
    ensures (a + ([x] + b))[..|a|] == a && (a + ([x] + b))[|a| + 1..] == b
    ensures (a + ([x] + b))[..|a|] + (a + ([x] + b))[|a| + 1..] == a + b
  {
  }

  lemma ReplaceAround<T>(a: seq<T>, x: T, y: T, b: seq<T>)
    ensures (a + ([x] + b))[|a| := y] == (a + [y]) + b
  {
  }

  /** The state of the repeating-task loop: the first `p` entries of the
      input list `rs` have been examined, giving `kept` and `ran`; the list
      is `kept` followed by the unexamined entries, and `j` points at the next
      entry to examine, which is the one just run when `ranCurrent` holds. */
  ghost predicate RepeatLoop(cur: seq<RepeatTask>, j: int, rs: seq<RepeatTask>, p: int, ranCurrent: bool,
                             kept: seq<RepeatTask>, ran: seq<TaskId>, frame: int, terminated: set<TaskId>)
  {
    && 0 <= p <= |rs| && PositiveIntervals(rs)
    && kept == RepeatKept(rs[..p], frame, terminated)
    && ran == RepeatRun(rs[..p], frame, terminated)
    && cur == kept + rs[p..]
    && j == |kept| - (if ranCurrent then 1 else 0)
    && (ranCurrent ==> 0 <= j && cur[j].lastFrame == frame && cur[j].frameInterval > 0)
  }

  /** A due entry whose task is terminated is erased. */
  lemma RepeatLoopErase(cur: seq<RepeatTask>, j: int, rs: seq<RepeatTask>, p: int, ranCurrent: bool,
                        kept: seq<RepeatTask>, ran: seq<TaskId>, frame: int, terminated: set<TaskId>)
    requires RepeatLoop(cur, j, rs, p, ranCurrent, kept, ran, frame, terminated)
    requires 0 <= j < |cur| && IsDue(cur[j], frame) && cur[j].task in terminated
    ensures !ranCurrent
    ensures RepeatLoop(cur[..j] + cur[j + 1..], j, rs, p + 1, false, kept, ran, frame, terminated)
  {
    DropCons(rs, p);
    SplitAround(kept, rs[p], rs[p + 1..]);
    RepeatPrefixStep(rs, p, frame, terminated);
    assert kept + [] == kept;
  }

  /** A due entry whose task is live runs and records `frame`; the loop stays on it. */
  lemma RepeatLoopRun(cur: seq<RepeatTask>, j: int, rs: seq<RepeatTask>, p: int, ranCurrent: bool,
                      kept: seq<RepeatTask>, ran: seq<TaskId>, frame: int, terminated: set<TaskId>)
    requires RepeatLoop(cur, j, rs, p, ranCurrent, kept, ran, frame, terminated)
    requires 0 <= j < |cur| && IsDue(cur[j], frame) && cur[j].task !in terminated
    ensures !ranCurrent
    ensures RepeatLoop(cur[j := cur[j].(lastFrame := frame)], j, rs, p + 1, true,
                       kept + [cur[j].(lastFrame := frame)], ran + [cur[j].task], frame, terminated)
  {
    DropCons(rs, p);
    SplitAround(kept, rs[p], rs[p + 1..]);
    RepeatPrefixStep(rs, p, frame, terminated);
    ReplaceAround(kept, rs[p], rs[p].(lastFrame := frame), rs[p + 1..]);
  }

  /** An entry that is not due is passed over; when it was not the one just
      run, it is examined here for the first time. */
  lemma RepeatLoopSkip(cur: seq<RepeatTask>, j: int, rs: seq<RepeatTask>, p: int, ranCurrent: bool,
                       kept: seq<RepeatTask>, ran: seq<TaskId>, frame: int, terminated: set<TaskId>)
    requires RepeatLoop(cur, j, rs, p, ranCurrent, kept, ran, frame, terminated)
    requires 0 <= j < |cur| && !IsDue(cur[j], frame)
    ensures RepeatLoop(cur, j + 1, rs, if ranCurrent then p else p + 1, false,
                       if ranCurrent then kept else kept + [cur[j]], ran, frame, terminated)
  {
    if !ranCurrent {
      DropCons(rs, p);
      SplitAround(kept, rs[p], rs[p + 1..]);
      RepeatPrefixStep(rs, p, frame, terminated);
    }
  }

  lemma RepeatLoopDone(cur: seq<RepeatTask>, j: int, rs: seq<RepeatTask>, p: int, ranCurrent: bool,
                       kept: seq<RepeatTask>, ran: seq<TaskId>, frame: int, terminated: set<TaskId>)
    requires RepeatLoop(cur, j, rs, p, ranCurrent, kept, ran, frame, terminated)
    requires j >= |cur|
    ensures cur == RepeatKept(rs, frame, terminated) && ran == RepeatRun(rs, frame, terminated)
  {
    assert rs[..p] == rs;
  }

  /** The pass of the repeating-task loop over one list: kept entries in
      order, due ones stamped with `frame`, terminated due ones erased, and
      the tasks run in list order. */
  method RepeatPass(tasks: seq<RepeatTask>, frame: int, terminated: set<TaskId>)
    returns (cur: seq<RepeatTask>, ran: seq<TaskId>)
    requires PositiveIntervals(tasks)
    ensures cur == RepeatKept(tasks, frame, terminated)
    ensures ran == RepeatRun(tasks, frame, terminated)
  {
    cur := tasks;
    var j := 0;
    ghost var p := 0;
    ghost var ranCurrent := false;
    ghost var kept: seq<RepeatTask> := [];
    ran := [];
    assert tasks[..0] == [] && tasks[0..] == tasks;
    while j < |cur|
      invariant RepeatLoop(cur, j, tasks, p, ranCurrent, kept, ran, frame, terminated)
      decreases 2 * (|cur| - j) + (if ranCurrent then 0 else 1)
    {
      if frame - cur[j].lastFrame >= cur[j].frameInterval {
        if cur[j].task in terminated {
          RepeatLoopErase(cur, j, tasks, p, ranCurrent, kept, ran, frame, terminated);
          cur := cur[..j] + cur[j + 1..];
        } else {
          RepeatLoopRun(cur, j, tasks, p, ranCurrent, kept, ran, frame, terminated);
          kept := kept + [cur[j].(lastFrame := frame)];
          ran := ran + [cur[j].task];
          cur := cur[j := cur[j].(lastFrame := frame)];
          ranCurrent := true;
        }
        p := p + 1;
      } else {
        RepeatLoopSkip(cur, j, tasks, p, ranCurrent, kept, ran, frame, terminated);
        if !ranCurrent {
          kept := kept + [cur[j]];
          p := p + 1;
        }
        j := j + 1;
        ranCurrent := false;
      }
    }
    RepeatLoopDone(cur, j, tasks, p, ranCurrent, kept, ran, frame, terminated);
  }

  /** A freshly registered repeating task is due at every frame from 0 on. */
  lemma FreshRepeatDueFromZero(task: TaskId, frameInterval: int, frame: int)
    ensures IsDue(RepeatTask(task, frameInterval, -frameInterval), frame) <==> frame >= 0
  {
  }

  /** `counterInstance++` and `counterInstance--` on an `unsigned int`. */
  function IncrementU32(n: int): (r: int)
    requires 0 <= n < UINT_MODULUS
    ensures 0 <= r < UINT_MODULUS
    ensures n < UINT_MODULUS - 1 ==> r == n + 1
    ensures n == UINT_MODULUS - 1 ==> r == 0
  {
    (n + 1) % UINT_MODULUS
  }

  function DecrementU32(n: int): (r: int)
    requires 0 <= n < UINT_MODULUS
    ensures 0 <= r < UINT_MODULUS
    ensures n > 0 ==> r == n - 1
    ensures n == 0 ==> r == UINT_MODULUS - 1
  {
    (n + UINT_MODULUS - 1) % UINT_MODULUS
  }

  // ---------------------------------------------------------------------
  // The scheduler.
  // ---------------------------------------------------------------------

  class CScheduler {
    const shared: SharedState
    const self: SchedulerId
    var onceTasks: seq<OnceTask>
    var repeatTasks: seq<RepeatTask>
    /** The per-instance completion queue (`finishTasks`). */
    var finishTasks: seq<TaskId>
    /** Every `Run()` this scheduler has invoked, in order. */
    var executed: seq<TaskId>

    /** The constructor counts the new instance; `Init` binds `self`. */
    constructor (shared: SharedState, self: SchedulerId)
      requires shared.Valid()
      modifies shared
      ensures this.shared == shared && this.self == self
      ensures onceTasks == [] && repeatTasks == [] && finishTasks == [] && executed == []
      ensures shared.Valid()
      ensures shared.counterInstance == IncrementU32(old(shared.counterInstance))
      ensures shared.workTasks == old(shared.workTasks) && shared.workerRunning == old(shared.workerRunning)
    {
      this.shared := shared;
      this.self := self;
      onceTasks, repeatTasks, finishTasks, executed := [], [], [], [];
      new;
      shared.counterInstance := IncrementU32(shared.counterInstance);
    }

    /** The destructor: one instance fewer, then `Release`. */
    method Destroy()
      requires shared.Valid()
      modifies shared
      ensures shared.Valid()
      ensures shared.counterInstance == DecrementU32(old(shared.counterInstance))
      ensures var last := shared.counterInstance == 0 && old(shared.workerRunning);
              shared.workTasks == NotOwnedBy(old(shared.workTasks), self)
                                  + (if last then [WorkTask(self, None, None)] else [])
              && shared.workerRunning == (old(shared.workerRunning) && !last)
    {
      shared.counterInstance := DecrementU32(shared.counterInstance);
      Release();
    }

    /** Drops this instance's queued work; the last instance also stops the
        worker and pushes an empty item to wake it (the join is not modelled). */
    method Release()
      requires shared.Valid()
      modifies shared
      ensures shared.Valid() && shared.counterInstance == old(shared.counterInstance)
      ensures var last := old(shared.counterInstance) == 0 && old(shared.workerRunning);
              shared.workTasks == NotOwnedBy(old(shared.workTasks), self)
                                  + (if last then [WorkTask(self, None, None)] else [])
              && shared.workerRunning == (old(shared.workerRunning) && !last)
    {
      shared.workTasks := NotOwnedBy(shared.workTasks, self);
      if shared.counterInstance == 0 && shared.workerRunning {
        shared.workerRunning := false;
        shared.workTasks := shared.workTasks + [WorkTask(self, None, None)];
      }
    }

    method RunTaskAt(task: TaskId, frame: int)
      modifies this
      ensures onceTasks == old(onceTasks) + [OnceTask(task, frame)]
      ensures repeatTasks == old(repeatTasks) && finishTasks == old(finishTasks) && executed == old(executed)
    {
      onceTasks := onceTasks + [OnceTask(task, frame)];
    }

    /** The entry starts with `lastFrame = -frameInterval`, so the task is due
        at every frame from 0 on (`FreshRepeatDueFromZero`). */
    method RunTaskEvery(task: TaskId, frameInterval: int)
      modifies this
      ensures repeatTasks == old(repeatTasks) + [RepeatTask(task, frameInterval, -frameInterval)]
      ensures onceTasks == old(onceTasks) && finishTasks == old(finishTasks) && executed == old(executed)
    {
      repeatTasks := repeatTasks + [RepeatTask(task, frameInterval, -frameInterval)];
    }

    /** The sequential part of `RunParallelTask`: raise the running flag if it
        was down (where the source starts the thread) and queue the work. */
    method RunParallelTask(task: TaskId, onComplete: Option<TaskId>)
      requires shared.Valid()
      modifies shared
      ensures shared.Valid() && shared.counterInstance == old(shared.counterInstance)
      ensures shared.workerRunning
      ensures shared.workTasks == old(shared.workTasks) + [WorkTask(self, Some(task), onComplete)]
    {
      if !shared.workerRunning {
        shared.workerRunning := true;
      }
      shared.workTasks := shared.workTasks + [WorkTask(self, Some(task), onComplete)];
    }

    /** What the worker thread does for this scheduler once a payload has run:
        it pushes the completion task onto `finishTasks`. */
    method DeliverCompletion(onComplete: TaskId)
      modifies this
      ensures finishTasks == old(finishTasks) + [onComplete]
      ensures onceTasks == old(onceTasks) && repeatTasks == old(repeatTasks) && executed == old(executed)
    {
      finishTasks := finishTasks + [onComplete];
    }

    /** Tasks must not call this while they run; they set their terminate flag. */
    method RemoveTask(task: TaskId)
      modifies this
      ensures onceTasks == WithoutOnce(old(onceTasks), task)
      ensures repeatTasks == WithoutRepeat(old(repeatTasks), task)
      ensures finishTasks == old(finishTasks) && executed == old(executed)
    {
      onceTasks := WithoutOnce(onceTasks, task);
      repeatTasks := WithoutRepeat(repeatTasks, task);
    }

    /** One frame: due one-shot tasks run and are erased, due repeating tasks
        run (or are erased when terminated), then the completion queue is
        drained. `terminated` is the set of tasks whose terminate flag is set. */
    method ProcessTasks(frame: int, terminated: set<TaskId>)
      requires PositiveIntervals(repeatTasks)
      modifies this
      ensures onceTasks == PendingOnce(old(onceTasks), frame)
      ensures repeatTasks == RepeatKept(old(repeatTasks), frame, terminated)
      ensures finishTasks == []
      ensures executed == old(executed) + DueOnce(old(onceTasks), frame)
                          + RepeatRun(old(repeatTasks), frame, terminated) + old(finishTasks)
    {
      ProcessOnceTasks(frame);
      ProcessRepeatTasks(frame, terminated);
      ProcessFinishTasks();
    }

    /** The first loop of `ProcessTasks`: erase-in-place over `onceTasks`. */
    method ProcessOnceTasks(frame: int)
      modifies this
      ensures onceTasks == PendingOnce(old(onceTasks), frame)
      ensures executed == old(executed) + DueOnce(old(onceTasks), frame)
      ensures repeatTasks == old(repeatTasks) && finishTasks == old(finishTasks)
    {
      var i := 0;
      ghost var k := 0;
      while i < |onceTasks|
        invariant 0 <= i <= |onceTasks|
        invariant 0 <= k <= |old(onceTasks)|
        invariant onceTasks[..i] == PendingOnce(old(onceTasks)[..k], frame)
        invariant onceTasks[i..] == old(onceTasks)[k..]
        invariant executed == old(executed) + DueOnce(old(onceTasks)[..k], frame)
        invariant repeatTasks == old(repeatTasks) && finishTasks == old(finishTasks)
        decreases |onceTasks| - i
      {
        assert old(onceTasks)[..k + 1][..k] == old(onceTasks)[..k];
        assert old(onceTasks)[k] == onceTasks[i];
        if onceTasks[i].frame <= frame {
          executed := executed + [onceTasks[i].task];
          onceTasks := onceTasks[..i] + onceTasks[i + 1..];
        } else {
          i := i + 1;
        }
        k := k + 1;
      }
      assert old(onceTasks)[..k] == old(onceTasks);
      assert onceTasks == onceTasks[..i];
    }

    /** The second loop of `ProcessTasks`. After running an entry it does not
        advance, so the same entry is examined again; it is then not due
        because its interval is positive, which is what makes the loop end. */
    method ProcessRepeatTasks(frame: int, terminated: set<TaskId>)
      requires PositiveIntervals(repeatTasks)
      modifies this
      ensures repeatTasks == RepeatKept(old(repeatTasks), frame, terminated)
      ensures executed == old(executed) + RepeatRun(old(repeatTasks), frame, terminated)
      ensures onceTasks == old(onceTasks) && finishTasks == old(finishTasks)
    {
      var kept, ran := RepeatPass(repeatTasks, frame, terminated);
      repeatTasks := kept;
      executed := executed + ran;
    }

    /** The completion queue is drained in order and ends empty. */
    method ProcessFinishTasks()
      modifies this
      ensures finishTasks == []
      ensures executed == old(executed) + old(finishTasks)
      ensures onceTasks == old(onceTasks) && repeatTasks == old(repeatTasks)
    {
      while finishTasks != []
        invariant executed + finishTasks == old(executed) + old(finishTasks)
        invariant onceTasks == old(onceTasks) && repeatTasks == old(repeatTasks)
        decreases |finishTasks|
      {
        executed := executed + [finishTasks[0]];
        finishTasks := finishTasks[1..];
      }
    }
  }
}

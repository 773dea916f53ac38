/** The cooperative priority scheduler of system/scheduler_core.c: a table of at most
    ten tasks, a selection that picks the ready task with the highest dynamic priority
    and ages every other one, per-task run bookkeeping, and the write index of the
    debug text buffer. Times are microseconds; the task body is opaque and only its
    measured duration enters the model. */
module Scheduler {

  import opened CLib

  const MAX_TASKS: int := 10
  const DEBUG_BUFFER_SIZE: int := 2048
  /** `debug_buffer_flush` empties the buffer at most once every five seconds. */
  const FLUSH_PERIOD_US: int := 5000000

  /** A task function pointer; only its identity matters. */
  datatype TaskFn = TaskFn(id: nat)

  /** The fields of `task_t` that scheduler_core.c uses. `fn == None` is a NULL pointer. */
  datatype Task = Task(name: string, fn: Option<TaskFn>, priority: int, dynamicPriority: int,
                       interval: int, lastExecution: int, totalTime: int)

  /** A slot of the zero-initialised static `task_list`. */
  const EMPTY_TASK: Task := Task("", None, 0, 0, 0, 0, 0)

  /** One task's entries of `max_execution_time`, `total_execution_time` and `execution_count`. */
  datatype DebugStats = DebugStats(maxExecutionTime: int, totalExecutionTime: int, executionCount: int)

  const ZERO_STATS: DebugStats := DebugStats(0, 0, 0)

  /** The messages `scheduler_run` hands to `debug_buffer_add`, with the values passed
      for their conversions. The CPU percentages are floating point; only the integers
      they are computed from are kept. */
  datatype DebugMsg =
    | DeadlineMissed(name: string)
    | ExecReport(name: string, dynamicPriority: int, taskTime: int, totalTime: int)
    | MaxAvgReport(name: string, maxTime: int, average: int)
    | CpuUsage(totalTime: int, systemTime: int)
    | CpuResidual(totalTime: int, systemTime: int)

  // ---------------------------------------------------------------------------
  // Selection

  /** The readiness test of `find_highest_priority_task`. */
  predicate Eligible(t: Task, now: int) {
    t.fn.Some? && now - t.lastExecution >= t.interval
  }

  /** What the first loop of `find_highest_priority_task` holds after the tasks `ts`:
      the index and priority of the running maximum, starting from (-1, -1) and replaced
      only by an eligible task with a strictly greater dynamic priority. */
  function Scan(ts: seq<Task>, now: int): (r: (int, int))
    ensures -1 <= r.0 < |ts|
    ensures r.0 == -1 ==> r.1 == -1
    ensures r.0 == -1 ==> forall k :: 0 <= k < |ts| && Eligible(ts[k], now) ==> ts[k].dynamicPriority < 0
    ensures r.0 >= 0 ==> Eligible(ts[r.0], now) && r.1 == ts[r.0].dynamicPriority >= 0
    ensures r.0 >= 0 ==> forall k :: 0 <= k < |ts| && Eligible(ts[k], now) ==> ts[k].dynamicPriority <= r.1
    ensures r.0 >= 0 ==> forall k :: 0 <= k < r.0 && Eligible(ts[k], now) ==> ts[k].dynamicPriority < r.1
    decreases |ts|
  {
    if |ts| == 0 then (-1, -1)
    else
      var prev := Scan(ts[..|ts| - 1], now);
      var t := ts[|ts| - 1];
      if Eligible(t, now) && t.dynamicPriority > prev.1 then (|ts| - 1, t.dynamicPriority)
      else prev
  }

  /** The index `find_highest_priority_task` returns for the registered tasks `ts`. */
  function Select(ts: seq<Task>, now: int): int {
    Scan(ts, now).0
  }

  /** The selection rule stated on its own: `j` is the first eligible task with the
      greatest dynamic priority, provided that priority is not negative; -1 when no
      eligible task has a priority of at least 0. */
  predicate BestEligible(ts: seq<Task>, now: int, j: int) {
    if j == -1 then
      forall k :: 0 <= k < |ts| && Eligible(ts[k], now) ==> ts[k].dynamicPriority < 0
    else
      0 <= j < |ts| && Eligible(ts[j], now) && ts[j].dynamicPriority >= 0
      && (forall k :: 0 <= k < |ts| && Eligible(ts[k], now) ==> ts[k].dynamicPriority <= ts[j].dynamicPriority)
      && (forall k :: 0 <= k < j && Eligible(ts[k], now) ==> ts[k].dynamicPriority < ts[j].dynamicPriority)
  }

  /** The scan selects exactly the index the rule singles out. */
  lemma SelectIsBest(ts: seq<Task>, now: int, j: int)
    ensures Select(ts, now) == j <==> BestEligible(ts, now, j)
  {
    var s := Select(ts, now);
    assert BestEligible(ts, now, s);
  }

  /** A task with a negative dynamic priority is never selected, and neither is one that
      is not ready. */
  lemma SelectedIsReady(ts: seq<Task>, now: int)
    ensures var j := Select(ts, now);
      j == -1 || (0 <= j < |ts| && Eligible(ts[j], now) && ts[j].dynamicPriority >= 0)
  {
  }

  /** The table after the aging loop: every registered task other than the selected one
      gains one point of dynamic priority, ready or not. */
  function Aged(ts: seq<Task>, count: int, selected: int): (r: seq<Task>)
    ensures |r| == |ts|
    ensures forall k :: 0 <= k < |ts| && !(k < count && k != selected) ==> r[k] == ts[k]
    ensures forall k :: 0 <= k < |ts| && k < count && k != selected ==>
      r[k] == ts[k].(dynamicPriority := ts[k].dynamicPriority + 1)
  {
    seq(|ts|, k requires 0 <= k < |ts| =>
      if k < count && k != selected then ts[k].(dynamicPriority := ts[k].dynamicPriority + 1)
      else ts[k])
  }

  // ---------------------------------------------------------------------------
  // Run bookkeeping

  /** The debug statistics of a task after a run of `taskTime` microseconds. */
  function RecordRun(s: DebugStats, taskTime: int): DebugStats {
    DebugStats(if taskTime > s.maxExecutionTime then taskTime else s.maxExecutionTime,
               s.totalExecutionTime + taskTime, s.executionCount + 1)
  }

  /** The statistics after a series of runs, in order. */
  function RecordAll(s: DebugStats, times: seq<int>): DebugStats
    decreases |times|
  {
    if times == [] then s else RecordAll(RecordRun(s, times[0]), times[1..])
  }

  function Sum(xs: seq<int>): int
    decreases |xs|
  {
    if xs == [] then 0 else xs[0] + Sum(xs[1..])
  }

  /** After a series of runs the count has grown by their number, the total by the sum of
      their times, and the maximum is the largest of the old maximum and every run time. */
  lemma {:induction false} RecordAllSummary(s: DebugStats, times: seq<int>)
    ensures var r := RecordAll(s, times);
      r.executionCount == s.executionCount + |times|
      && r.totalExecutionTime == s.totalExecutionTime + Sum(times)
      && r.maxExecutionTime >= s.maxExecutionTime
      && (forall k :: 0 <= k < |times| ==> times[k] <= r.maxExecutionTime)
      && (r.maxExecutionTime == s.maxExecutionTime || r.maxExecutionTime in times)
    decreases |times|
  {
    if times != [] {
      var s' := RecordRun(s, times[0]);
      RecordAllSummary(s', times[1..]);
      var r := RecordAll(s', times[1..]);
      forall k | 0 <= k < |times|
        ensures times[k] <= r.maxExecutionTime
      {
        if k > 0 {
          assert times[k] == times[1..][k - 1];
        }
      }
      assert times == [times[0]] + times[1..];
      if r.maxExecutionTime in times[1..] {
        assert r.maxExecutionTime in times;
      }
    }
  }

  /** The average `scheduler_run` reports after a run: the 64-bit quotient of total by
      count, truncated toward zero. A count that was not negative makes the divisor at least 1. */
  function Average(s: DebugStats): (avg: int)
    requires s.executionCount >= 1
    ensures Abs(avg) * s.executionCount <= Abs(s.totalExecutionTime)
    ensures Abs(s.totalExecutionTime) < (Abs(avg) + 1) * s.executionCount
    ensures s.totalExecutionTime >= 0 ==> avg >= 0
    ensures s.totalExecutionTime <= 0 ==> avg <= 0
  {
    CDiv(s.totalExecutionTime, s.executionCount)
  }

  /** The messages one debug-enabled run adds, in order: `t` is the task after its
      bookkeeping, `missed` the outcome of the deadline test and `st` the statistics
      after the run. */
  function RunMessages(t: Task, missed: bool, st: DebugStats, taskTime: int, systemTime: int): seq<DebugMsg>
    requires st.executionCount >= 1
  {
    (if missed then [DeadlineMissed(t.name)] else [])
    + [ ExecReport(t.name, t.dynamicPriority, taskTime, t.totalTime),
        MaxAvgReport(t.name, st.maxExecutionTime, Average(st)),
        CpuUsage(t.totalTime, systemTime),
        CpuResidual(t.totalTime, systemTime) ]
  }

  // ---------------------------------------------------------------------------
  // Debug buffer index

  /** The index after `debug_buffer_add` when `vsnprintf` returned `n`: advanced by `n`
      modulo the buffer size when `n` is positive, unchanged otherwise. */
  function AdvanceIndex(index: int, n: int): (r: int)
    requires 0 <= index < DEBUG_BUFFER_SIZE
    ensures 0 <= r < DEBUG_BUFFER_SIZE
    ensures n <= 0 ==> r == index
    ensures n > 0 ==> (r - index - n) % DEBUG_BUFFER_SIZE == 0
  {
    if n > 0 then (index + n) % DEBUG_BUFFER_SIZE else index
  }

  /** The index after adding several messages whose lengths `msgLen` gives. */
  function AdvanceAll(index: int, msgs: seq<DebugMsg>, msgLen: DebugMsg -> int): (r: int)
    requires 0 <= index < DEBUG_BUFFER_SIZE
    ensures 0 <= r < DEBUG_BUFFER_SIZE
    decreases |msgs|
  {
    if msgs == [] then index else AdvanceAll(AdvanceIndex(index, msgLen(msgs[0])), msgs[1..], msgLen)
  }

  // ---------------------------------------------------------------------------
  // The scheduler state

  class Scheduler {
    var tasks: array<Task>
    var taskCount: int
    var debugEnabled: array<bool>
    var stats: array<DebugStats>
    var debugBufferIndex: int
    var lastDebugFlushTime: int

    ghost predicate Valid()
      reads this, stats
    {
      tasks.Length == MAX_TASKS && debugEnabled.Length == MAX_TASKS && stats.Length == MAX_TASKS
      && 0 <= taskCount <= MAX_TASKS
      && 0 <= debugBufferIndex < DEBUG_BUFFER_SIZE
      && forall k :: 0 <= k < MAX_TASKS ==> stats[k].executionCount >= 0
    }

    /** The registered tasks. */
    ghost function Registered(): seq<Task>
      requires Valid()
      reads this, stats, tasks
    {
      tasks[..taskCount]
    }

    /** The zero-initialised statics: no task, debug off everywhere, zero statistics. */
    constructor ()
      ensures Valid() && fresh(tasks) && fresh(debugEnabled) && fresh(stats)
      ensures taskCount == 0 && debugBufferIndex == 0 && lastDebugFlushTime == 0
      ensures forall k :: 0 <= k < MAX_TASKS ==>
        tasks[k] == EMPTY_TASK && !debugEnabled[k] && stats[k] == ZERO_STATS
    {
      tasks := new Task[MAX_TASKS](_ => EMPTY_TASK);
      debugEnabled := new bool[MAX_TASKS](_ => false);
      stats := new DebugStats[MAX_TASKS](_ => ZERO_STATS);
      taskCount := 0;
      debugBufferIndex := 0;
      lastDebugFlushTime := 0;
    }

    /** `scheduler_add_task` at time `now`: below capacity the task goes into slot
        `task_count` with its dynamic priority equal to its priority, a zero total and
        `now` as its last execution, and the count grows by one; at capacity nothing
        changes. */
    method AddTask(name: string, fn: Option<TaskFn>, priority: int, interval: int, now: int)
      requires Valid()
      modifies tasks, this`taskCount
      ensures Valid()
      ensures old(taskCount) < MAX_TASKS ==>
        taskCount == old(taskCount) + 1
        && tasks[..] == old(tasks[..])[old(taskCount) := Task(name, fn, priority, priority, interval, now, 0)]
      ensures old(taskCount) == MAX_TASKS ==> taskCount == old(taskCount) && tasks[..] == old(tasks[..])
    {
      if taskCount < MAX_TASKS {
        tasks[taskCount] := Task(name, fn, priority, priority, interval, now, 0);
        taskCount := taskCount + 1;
      }
    }

    /** `find_highest_priority_task` at time `now`: the index `Select` gives for the
        registered tasks, then every registered task except that one aged by one. */
    method FindHighestPriorityTask(now: int) returns (index: int)
      requires Valid()
      modifies tasks
      ensures Valid()
      ensures index == Select(old(tasks[..taskCount]), now)
      ensures -1 <= index < taskCount
      ensures tasks[..] == Aged(old(tasks[..]), taskCount, index)
    {
      index := -1;
      var highest := -1;
      var i := 0;
      while i < taskCount
        invariant 0 <= i <= taskCount
        invariant (index, highest) == Scan(tasks[..i], now)
      {
        assert tasks[..i + 1][..i] == tasks[..i];
        if tasks[i].fn.Some? && now - tasks[i].lastExecution >= tasks[i].interval {
          if tasks[i].dynamicPriority > highest {
            highest := tasks[i].dynamicPriority;
            index := i;
          }
        }
        i := i + 1;
      }
      assert tasks[..taskCount] == old(tasks[..taskCount]);
      ghost var before := tasks[..];
      i := 0;
      while i < taskCount
        invariant 0 <= i <= taskCount
        invariant forall k :: 0 <= k < i ==> tasks[k] == Aged(before, taskCount, index)[k]
        invariant forall k :: i <= k < MAX_TASKS ==> tasks[k] == before[k]
      {
        if i != index {
          tasks[i] := tasks[i].(dynamicPriority := tasks[i].dynamicPriority + 1);
        }
        i := i + 1;
      }
    }

    /** `set_debug_for_task`: indices outside the table are ignored. */
    method SetDebugForTask(taskIndex: int, enabled: bool)
      requires Valid()
      modifies debugEnabled
      ensures Valid()
      ensures debugEnabled[..] == if 0 <= taskIndex < MAX_TASKS then old(debugEnabled[..])[taskIndex := enabled]
                                  else old(debugEnabled[..])
    {
      if taskIndex >= 0 && taskIndex < MAX_TASKS {
        debugEnabled[taskIndex] := enabled;
      }
    }

    /** `debug_buffer_add` of a message whose formatted length `vsnprintf` reports as `n`. */
    method DebugBufferAdd(n: int)
      requires Valid()
      modifies this`debugBufferIndex
      ensures Valid()
      ensures debugBufferIndex == AdvanceIndex(old(debugBufferIndex), n)
    {
      if n > 0 {
        debugBufferIndex := (debugBufferIndex + n) % DEBUG_BUFFER_SIZE;
      }
    }

    /** `debug_buffer_flush` at time `now`: when five seconds have passed since the last
        flush the text is printed, the index goes back to 0 and `now` becomes the last
        flush time; otherwise nothing changes. */
    method DebugBufferFlush(now: int) returns (flushed: bool)
      requires Valid()
      modifies this`debugBufferIndex, this`lastDebugFlushTime
      ensures Valid()
      ensures flushed <==> now - old(lastDebugFlushTime) >= FLUSH_PERIOD_US
      ensures flushed ==> debugBufferIndex == 0 && lastDebugFlushTime == now
      ensures !flushed ==> debugBufferIndex == old(debugBufferIndex)
                           && lastDebugFlushTime == old(lastDebugFlushTime)
    {
      flushed := now - lastDebugFlushTime >= FLUSH_PERIOD_US;
      if flushed {
        debugBufferIndex := 0;
        lastDebugFlushTime := now;
      }
    }

    /** The body of `scheduler_run` for a selected task `i`, whose run took `taskTime`
        microseconds after `currentTime` was sampled; `systemTime` is the later sample
        used for the CPU figures. The task's total grows by the run time, its last
        execution becomes `currentTime` and its dynamic priority returns to its
        priority; no other task changes. With debugging on for `i` the run is logged
        (`LogRun`). The deadline message appears exactly when the task's interval is
        negative, since the elapsed time it tests is zero. */
    method RunTask(i: int, currentTime: int, taskTime: int, systemTime: int, msgLen: DebugMsg -> int)
      returns (deadlineMissed: bool)
      requires Valid() && 0 <= i < taskCount
      modifies tasks, stats, this`debugBufferIndex
      ensures Valid()
      ensures var t := old(tasks[i]);
        tasks[..] == old(tasks[..])[i := t.(totalTime := t.totalTime + taskTime,
                                             lastExecution := currentTime,
                                             dynamicPriority := t.priority)]
      ensures deadlineMissed <==> debugEnabled[i] && tasks[i].interval < 0
      ensures debugEnabled[i] ==>
        stats[..] == old(stats[..])[i := RecordRun(old(stats[i]), taskTime)]
        && debugBufferIndex == AdvanceAll(old(debugBufferIndex),
                                          RunMessages(tasks[i], deadlineMissed, stats[i], taskTime, systemTime),
                                          msgLen)
      ensures !debugEnabled[i] ==> stats[..] == old(stats[..]) && debugBufferIndex == old(debugBufferIndex)
    {
      var t := tasks[i];
      tasks[i] := t.(totalTime := t.totalTime + taskTime, lastExecution := currentTime,
                     dynamicPriority := t.priority);
      deadlineMissed := false;
      if debugEnabled[i] {
        deadlineMissed := LogRun(i, currentTime, taskTime, systemTime, msgLen);
      }
    }

    /** The debug part of a run of task `i`: the deadline test, the statistics update, and
        the report messages added to the debug buffer one after the other. */
    method LogRun(i: int, currentTime: int, taskTime: int, systemTime: int, msgLen: DebugMsg -> int)
      returns (deadlineMissed: bool)
      requires Valid() && 0 <= i < MAX_TASKS
      modifies stats, this`debugBufferIndex
      ensures Valid()
      ensures deadlineMissed <==> currentTime - tasks[i].lastExecution > tasks[i].interval
      ensures stats[..] == old(stats[..])[i := RecordRun(old(stats[i]), taskTime)]
      ensures debugBufferIndex == AdvanceAll(old(debugBufferIndex),
                                             RunMessages(tasks[i], deadlineMissed, stats[i], taskTime, systemTime),
                                             msgLen)
    {
      var t := tasks[i];
      deadlineMissed := currentTime - t.lastExecution > t.interval;
      var s := RecordStats(i, taskTime);
      LogReport(t, deadlineMissed, s, taskTime, systemTime, msgLen);
    }

    /** The statistics update of `scheduler_run` for task `i`. */
    method RecordStats(i: int, taskTime: int) returns (s: DebugStats)
      requires Valid() && 0 <= i < MAX_TASKS
      modifies stats
      ensures Valid() && s == RecordRun(old(stats[i]), taskTime)
      ensures stats[..] == old(stats[..])[i := s]
    {
      s := stats[i];
      var maxTime := s.maxExecutionTime;
      if taskTime > maxTime {
        maxTime := taskTime;
      }
      s := DebugStats(maxTime, s.totalExecutionTime + taskTime, s.executionCount + 1);
      stats[i] := s;
    }

    /** The messages `scheduler_run` logs after running task `t` with statistics `s`. */
    method LogReport(t: Task, deadlineMissed: bool, s: DebugStats, taskTime: int, systemTime: int,
                     msgLen: DebugMsg -> int)
      requires Valid() && s.executionCount >= 1
      modifies this`debugBufferIndex
      ensures Valid()
      ensures debugBufferIndex == AdvanceAll(old(debugBufferIndex),
                                             RunMessages(t, deadlineMissed, s, taskTime, systemTime), msgLen)
    {
      ghost var index0 := debugBufferIndex;
      ghost var logged: seq<DebugMsg> := [];
      if deadlineMissed {
        Log(index0, logged, DeadlineMissed(t.name), msgLen);
        logged := [DeadlineMissed(t.name)];
      }
      var average := CDiv(s.totalExecutionTime, s.executionCount);
      Log(index0, logged, ExecReport(t.name, t.dynamicPriority, taskTime, t.totalTime), msgLen);
      logged := logged + [ExecReport(t.name, t.dynamicPriority, taskTime, t.totalTime)];
      Log(index0, logged, MaxAvgReport(t.name, s.maxExecutionTime, average), msgLen);
      logged := logged + [MaxAvgReport(t.name, s.maxExecutionTime, average)];
      Log(index0, logged, CpuUsage(t.totalTime, systemTime), msgLen);
      logged := logged + [CpuUsage(t.totalTime, systemTime)];
      Log(index0, logged, CpuResidual(t.totalTime, systemTime), msgLen);
      logged := logged + [CpuResidual(t.totalTime, systemTime)];
      assert logged == RunMessages(t, deadlineMissed, s, taskTime, systemTime);
    }

    /** `debug_buffer_add` of message `m`, after the messages `logged` were added from `index0`. */
    method Log(ghost index0: int, ghost logged: seq<DebugMsg>, m: DebugMsg, msgLen: DebugMsg -> int)
      requires Valid() && 0 <= index0 < DEBUG_BUFFER_SIZE
      requires debugBufferIndex == AdvanceAll(index0, logged, msgLen)
      modifies this`debugBufferIndex
      ensures Valid()
      ensures debugBufferIndex == AdvanceAll(index0, logged + [m], msgLen)
    {
      AdvanceAllSnoc(index0, logged, m, msgLen);
      DebugBufferAdd(msgLen(m));
    }

    /** The start of `scheduler_run`: the flush clock starts at `now`. */
    method StartRun(now: int)
      modifies this`lastDebugFlushTime
      ensures lastDebugFlushTime == now
    {
      lastDebugFlushTime := now;
    }

    /** One iteration of the `scheduler_run` loop. `selectTime` is the time sampled inside
        the selection, `currentTime` the one sampled before the run, `taskTime` the
        measured run time, `systemTime` the time of the CPU figures and `flushTime` the
        one sampled by the flush. When no task is ready the loop sleeps (left out) and
        only the flush follows. */
    method Iterate(selectTime: int, currentTime: int, taskTime: int, systemTime: int, flushTime: int,
                   msgLen: DebugMsg -> int)
      returns (index: int, flushed: bool)
      requires Valid()
      modifies tasks, stats, this`debugBufferIndex, this`lastDebugFlushTime
      ensures Valid()
      ensures index == Select(old(tasks[..taskCount]), selectTime)
      ensures index == -1 ==> tasks[..] == Aged(old(tasks[..]), taskCount, -1) && stats[..] == old(stats[..])
      ensures index != -1 ==>
        var t := old(tasks[index]);
        tasks[..] == Aged(old(tasks[..]), taskCount, index)[index := t.(totalTime := t.totalTime + taskTime,
                                                                        lastExecution := currentTime,
                                                                        dynamicPriority := t.priority)]
      ensures index != -1 && debugEnabled[index] ==>
        stats[..] == old(stats[..])[index := RecordRun(old(stats[index]), taskTime)]
      ensures index != -1 && !debugEnabled[index] ==> stats[..] == old(stats[..])
      ensures flushed <==> flushTime - old(lastDebugFlushTime) >= FLUSH_PERIOD_US
      ensures flushed ==> debugBufferIndex == 0 && lastDebugFlushTime == flushTime
      ensures !flushed ==> lastDebugFlushTime == old(lastDebugFlushTime)
      ensures !flushed ==>
        debugBufferIndex == if index != -1 && debugEnabled[index]
                            then AdvanceAll(old(debugBufferIndex),
                                            RunMessages(tasks[index], tasks[index].interval < 0, stats[index],
                                                        taskTime, systemTime),
                                            msgLen)
                            else old(debugBufferIndex)
    {
      index := FindHighestPriorityTask(selectTime);
      if index != -1 {
        var _ := RunTask(index, currentTime, taskTime, systemTime, msgLen);
      }
      flushed := DebugBufferFlush(flushTime);
    }
  }

  /** Adding one more message advances the index of the earlier ones by its length. */
  lemma {:induction false} AdvanceAllSnoc(index: int, xs: seq<DebugMsg>, m: DebugMsg, msgLen: DebugMsg -> int)
    requires 0 <= index < DEBUG_BUFFER_SIZE
    ensures AdvanceAll(index, xs + [m], msgLen) == AdvanceIndex(AdvanceAll(index, xs, msgLen), msgLen(m))
    decreases |xs|
  {
    if xs == [] {
      assert xs + [m] == [m];
    } else {
      assert (xs + [m])[0] == xs[0];
      assert (xs + [m])[1..] == xs[1..] + [m];
      AdvanceAllSnoc(AdvanceIndex(index, msgLen(xs[0])), xs[1..], m, msgLen);
    }
  }

  /** Messages of non-positive length leave the index where it was. */
  lemma {:induction false} AdvanceAllEmpty(index: int, msgs: seq<DebugMsg>, msgLen: DebugMsg -> int)
    requires 0 <= index < DEBUG_BUFFER_SIZE
    requires forall k :: 0 <= k < |msgs| ==> msgLen(msgs[k]) <= 0
    ensures AdvanceAll(index, msgs, msgLen) == index
    decreases |msgs|
  {
    if msgs != [] {
      AdvanceAllEmpty(index, msgs[1..], msgLen);
    }
  }

  /** A task with a non-negative interval never reports a missed deadline: `RunTask` tests
      the deadline exactly when the interval is negative, so its run adds four messages. */
  lemma NoDeadlineMessage(t: Task, st: DebugStats, taskTime: int, systemTime: int)
    requires st.executionCount >= 1 && t.interval >= 0
    ensures DeadlineMissed(t.name) !in RunMessages(t, t.interval < 0, st, taskTime, systemTime)
    ensures |RunMessages(t, t.interval < 0, st, taskTime, systemTime)| == 4
  {
  }
}

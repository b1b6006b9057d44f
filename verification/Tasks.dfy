/** Task records, statistics and the methods that run under the task manager's mutexes. */
module TaskTable {
  import opened Text
  import opened PriorityQueues

  datatype TaskState = Pending | Running | Completed | Exception

  /** `endTime` is None when the pointer is nil. */
  datatype Task = Task(state: TaskState, endTime: Option<int>)

  predicate Terminal(state: TaskState) {
    state == Completed || state == Exception
  }

  /** UpdateTaskState on a task that exists. */
  function Moved(t: Task, state: TaskState, now: int): Task {
    Task(state, if Terminal(state) then Some(now) else t.endTime)
  }

  function WithState(tasks: map<nat, Task>, id: nat, state: TaskState, now: int): map<nat, Task> {
    if id in tasks then tasks[id := Moved(tasks[id], state, now)] else tasks
  }

  predicate Old(t: Task, now: int, maxAge: int) {
    t.endTime.Some? && now - t.endTime.value > maxAge
  }

  function Cleaned(tasks: map<nat, Task>, now: int, maxAge: int): map<nat, Task> {
    map id | id in tasks && !Old(tasks[id], now, maxAge) :: tasks[id]
  }

  const CHANNEL_CAPACITY := 10

  predicate HasRoom(channel: seq<Job>) {
    |channel| < CHANNEL_CAPACITY
  }

  /** getAvailableWorker: the first worker whose channel has room. */
  function FirstFree(channels: seq<seq<Job>>): (i: Option<nat>)
    ensures i.Some? ==> i.value < |channels| && HasRoom(channels[i.value])
    ensures i.Some? ==> forall k | 0 <= k < i.value :: !HasRoom(channels[k])
    ensures i.None? ==> forall c | c in channels :: !HasRoom(c)
  {
    if channels == [] then None
    else if HasRoom(channels[0]) then Some(0)
    else match FirstFree(channels[1..])
      case None => None
      case Some(i) => Some(i + 1)
  }

  class TaskManager {
    var tasks: map<nat, Task>
    var completed: nat
    var failed: nat
    var totalTime: nat
    var averageTime: nat

    constructor ()
      ensures tasks == map[] && completed == failed == totalTime == averageTime == 0
    {
      tasks := map[];
      completed, failed, totalTime, averageTime := 0, 0, 0, 0;
    }

    /** updateStats; the division is only reached with counts in place. */
    method UpdateStats(duration: nat, success: bool)
      requires duration > 0 ==> completed + failed > 0
      modifies `completed, `failed, `totalTime, `averageTime
      ensures completed == old(completed) + if success then 1 else 0
      ensures failed == old(failed) + if success then 0 else 1
      ensures totalTime == old(totalTime) + duration
      ensures averageTime == if duration > 0 then totalTime / old(completed + failed) else old(averageTime)
    {
      if duration > 0 {
        totalTime := totalTime + duration;
        averageTime := totalTime / (completed + failed);
      }
      if success {
        completed := completed + 1;
      } else {
        failed := failed + 1;
      }
    }

    method UpdateTaskState(id: nat, state: TaskState, now: int) returns (found: bool)
      modifies `tasks, `completed, `failed, `totalTime, `averageTime
      ensures found == (id in old(tasks))
      ensures tasks == WithState(old(tasks), id, state, now)
      ensures found ==>
                && tasks[id].state == state && (forall x | x in tasks && x != id :: tasks[x] == old(tasks)[x])
                && tasks[id].endTime == if state in {Completed, Exception} then Some(now) else old(tasks)[id].endTime
      ensures completed == old(completed) + if found && state == Completed then 1 else 0
      ensures failed == old(failed) + if found && state == Exception then 1 else 0
    {
      if id !in tasks {
        return false;
      }
      var task := tasks[id];
      task := task.(state := state);
      if state == Completed || state == Exception {
        task := task.(endTime := Some(now));
        UpdateStats(0, state == Completed);
      }
      tasks := tasks[id := task];
      found := true;
    }

    method CleanupOldTasks(now: int, maxAge: int)
      modifies `tasks
      ensures tasks == Cleaned(old(tasks), now, maxAge)
      ensures forall id :: id in tasks <==>
                           id in old(tasks) && !(old(tasks)[id].endTime.Some?
                                                 && old(tasks)[id].endTime.value + maxAge < now)
      ensures forall id | id in tasks :: tasks[id] == old(tasks)[id]
    {
      ghost var before := tasks;
      var todo := tasks.Keys;
      while todo != {}
        invariant todo <= before.Keys
        invariant tasks == map id | id in before && (id in todo || !Old(before[id], now, maxAge)) :: before[id]
        decreases todo
      {
        var id :| id in todo;
        todo := todo - {id};
        var task := tasks[id];
        if task.endTime.Some? && now - task.endTime.value > maxAge {
          tasks := tasks - {id};
        }
      }
    }
  }

  method GetAvailableWorker(channels: seq<seq<Job>>) returns (worker: Option<nat>)
    ensures worker == FirstFree(channels)
    ensures worker.Some? ==> worker.value < |channels| && |channels[worker.value]| < 10
                             && forall k | 0 <= k < worker.value :: |channels[k]| >= 10
    ensures worker.None? ==> forall c | c in channels :: |c| >= 10
  {
    for i := 0 to |channels|
      invariant FirstFree(channels) == match FirstFree(channels[i..]) case None => None case Some(k) => Some(i + k)
    {
      if |channels[i]| < CHANNEL_CAPACITY {
        return Some(i);
      }
      assert channels[i..][1..] == channels[i + 1..];
    }
    worker := None;
  }
}

/** The loops of the task manager's goroutines, each shown to be the protocol's steps when nothing interleaves. */
module TaskEngine {
  import opened Text
  import opened PriorityQueues
  import opened TaskTable
  import opened TaskProtocol

  /** A worker's attempt up to the statistics. */
  ghost function AttemptRecorded(s: State, w: nat, success: bool, duration: nat, started: int): State
    requires Enabled(s, WorkerReceive(w)) && MutexFree(s)
  {
    Next(Next(Next(Next(s, WorkerReceive(w)), WorkerRun(w, started)), WorkerFinish(w, success, duration)),
        WorkerRecord(w))
  }

  lemma RecordedState(s: State, w: nat, success: bool, duration: nat, started: int)
    requires Enabled(s, WorkerReceive(w)) && MutexFree(s)
    ensures var job := s.channels[w][0];
            AttemptRecorded(s, w, success, duration, started) ==
            s.(channels := s.channels[w := s.channels[w][1..]],
               workers := s.workers[w := Worker.Recorded(job, success)],
               tasks := WithState(s.tasks, job.taskId, Running, started),
               recorded := s.recorded + 1,
               statCompleted := s.statCompleted + if success then 1 else 0,
               statFailed := s.statFailed + if success then 0 else 1)
  {
  }

  /** What a processed job may change of the records. */
  datatype Ledger = Ledger(tasks: map<nat, Task>, completed: nat, failed: nat, timers: seq<Job>)

  ghost predicate Begun(job: Job, success: bool, started: int, was: Ledger, now: Ledger) {
    && now.timers == was.timers && now.tasks == WithState(was.tasks, job.taskId, Running, started)
    && now.completed == was.completed + (if success then 1 else 0)
    && now.failed == was.failed + if success then 0 else 1
  }

  ghost predicate Ended(job: Job, success: bool, finished: int, was: Ledger, now: Ledger) {
    if !success && job.retryCount < job.maxRetries then
      now == was.(timers := was.timers + [job.(retryCount := job.retryCount + 1)])
    else
      && now.timers == was.timers
      && (job.taskId in was.tasks ==>
            && now.tasks == was.tasks[job.taskId := Task(if success then Completed else Exception, Some(finished))]
            && now.completed == was.completed + (if success then 1 else 0)
            && now.failed == was.failed + if success then 0 else 1)
  }

  /**
   * The job of a task on record: a successful attempt completes the task and raises the completed count twice; a
   * failed one raises the failed count and, with retries left, leaves the task running and starts a timer for the next
   * attempt, and otherwise fails the task and raises the failed count again.
   */
  ghost predicate Outcome(job: Job, success: bool, finished: int, was: Ledger, now: Ledger) {
    job.taskId in was.tasks ==>
      if success then
        && now.tasks == was.tasks[job.taskId := Task(Completed, Some(finished))] && now.timers == was.timers
        && now.completed == was.completed + 2 && now.failed == was.failed
      else if job.retryCount < job.maxRetries then
        && now.tasks == was.tasks[job.taskId := Task(Running, was.tasks[job.taskId].endTime)]
        && now.timers == was.timers + [job.(retryCount := job.retryCount + 1)]
        && now.completed == was.completed && now.failed == was.failed + 1
      else
        && now.tasks == was.tasks[job.taskId := Task(Exception, Some(finished))] && now.timers == was.timers
        && now.completed == was.completed && now.failed == was.failed + 2
  }

  lemma Overwritten(tasks: map<nat, Task>, id: nat, first: Task, second: Task)
    ensures tasks[id := first][id := second] == tasks[id := second]
  {
  }

  lemma BeginAndEnd(job: Job, success: bool, started: int, finished: int, was: Ledger, begun: Ledger, now: Ledger)
    requires Begun(job, success, started, was, begun) && Ended(job, success, finished, begun, now)
    ensures Outcome(job, success, finished, was, now)
  {
    if job.taskId in was.tasks {
      var running := Task(Running, was.tasks[job.taskId].endTime);
      assert begun.tasks == was.tasks[job.taskId := running];
      Overwritten(was.tasks, job.taskId, running, Task(if success then Completed else Exception, Some(finished)));
    }
  }

  class Engine {
    const manager: TaskManager
    const queue: PriorityQueue
    var channels: seq<seq<Job>>
    var timers: seq<Job>
    var queueCounter: int
    /** Where dispatcher and workers are, and what the protocol counts. */
    ghost var dispatcher: Dispatcher
    ghost var workers: seq<Worker>
    ghost var used: set<nat>
    ghost var created: nat
    ghost var recorded: nat
    ghost var attempts: nat
    ghost var ended: nat
    ghost var requeued: nat
    ghost var sent: nat

    ghost predicate Valid()
      reads this, queue
    {
      |channels| == |workers| && queue.Valid()
    }

    /** The protocol's state with no creation under way. */
    ghost function View(): State
      reads this, queue, manager
    {
      State(manager.tasks, used, NotCreating, queue.jobs, dispatcher, channels, workers, timers,
            manager.completed, manager.failed, queueCounter, created, recorded, attempts, ended, requeued, sent)
    }

    ghost function Book(): Ledger
      reads this, manager
    {
      Ledger(manager.tasks, manager.completed, manager.failed, timers)
    }

    constructor (workerCount: nat)
      ensures Valid() && fresh(manager) && fresh(queue) && Initial(View()) && |channels| == workerCount
    {
      manager := new TaskManager();
      queue := new PriorityQueue();
      channels := seq(workerCount, _ => []);
      timers, queueCounter := [], 0;
      workers, dispatcher := seq(workerCount, _ => Idle), Waiting;
      used, created, recorded, attempts, ended, requeued, sent := {}, 0, 0, 0, 0, 0, 0;
    }

    method CreateTask(id: nat, jobId: nat)
      requires Valid()
      modifies this, queue, manager
      ensures Valid()
      ensures View() == Next(Next(Next(StoreTask(old(View()), id, jobId), CreatePush), CreateCount), CreateReturn)
    {
      manager.tasks := manager.tasks[id := Task(Pending, None)];
      queue.Push(Job(jobId, id, NORMAL, 0, MAX_RETRIES));
      manager.UpdateStats(0, true);
      queueCounter := queueCounter + 1;
      used, created := used + {id}, created + 1;
    }

    /** One round of jobDispatcher. */
    method Dispatch()
      requires Valid() && dispatcher == Waiting
      modifies this, queue
      ensures Valid() && dispatcher == Waiting
      ensures View() == if old(queue.jobs) == [] then old(View())
                        else
                          var chosen := Next(Next(old(View()), DispatchPop), DispatchChoose);
                          if chosen.dispatcher.Assigned? then Next(chosen, DispatchSend) else chosen
    {
      var popped := queue.Pop();
      if popped == None {
        return;
      }
      var job := popped.value;
      var worker := GetAvailableWorker(channels);
      if worker.Some? {
        dispatcher := Assigned(job, worker.value);
        Send(worker.value, job);
      } else {
        queue.Push(job);
      }
    }

    /** The non-blocking send: a full channel puts the job back. */
    method Send(w: nat, job: Job)
      requires Valid() && w < |channels| && dispatcher == Assigned(job, w)
      modifies this, queue
      ensures Valid() && dispatcher == Waiting
      ensures View() == Next(old(View()), DispatchSend)
      ensures old(|channels[w]|) < 10 ==>
                channels == old(channels)[w := old(channels)[w] + [job]] && queue.jobs == old(queue.jobs)
      ensures old(|channels[w]|) >= 10 ==> channels == old(channels) && |queue.jobs| == old(|queue.jobs|) + 1
    {
      dispatcher := Waiting;
      if |channels[w]| < CHANNEL_CAPACITY {
        channels := channels[w := channels[w] + [job]];
        queueCounter := queueCounter - 1;
        sent := sent + 1;
      } else {
        queue.Push(job);
      }
    }

    method GetStats() returns (report: Report)
      ensures report == Reported(View())
    {
      var size := queue.Size();
      report := Report(0, manager.completed, manager.failed, |manager.tasks|, size);
    }

    /** processJob on the next job in the worker's channel; `success` and `duration` are what the attempt comes to. */
    method ProcessJob(w: nat, success: bool, duration: nat, started: int, finished: int)
      requires Valid() && w < |channels| && workers[w] == Idle && channels[w] != []
      requires duration > 0 ==> manager.completed + manager.failed > 0
      modifies this, manager
      ensures Valid()
      ensures View() == Next(AttemptRecorded(old(View()), w, success, duration, started), WorkerResolve(w, finished))
      ensures Outcome(old(channels)[w][0], success, finished, old(Book()), Book())
      ensures channels == old(channels)[w := old(channels)[w][1..]]
    {
      ghost var was := Book();
      var job := Attempt(w, success, duration, started);
      ghost var begun := Book();
      Resolve(w, job, success, finished);
      BeginAndEnd(job, success, started, finished, was, begun, Book());
    }

    method Attempt(w: nat, success: bool, duration: nat, started: int) returns (job: Job)
      requires Valid() && w < |channels| && workers[w] == Idle && channels[w] != []
      requires duration > 0 ==> manager.completed + manager.failed > 0
      modifies this, manager
      ensures Valid() && |channels| == old(|channels|)
      ensures View() == AttemptRecorded(old(View()), w, success, duration, started)
      ensures channels == old(channels)[w := old(channels)[w][1..]]
      ensures job == old(channels)[w][0] && Begun(job, success, started, old(Book()), Book())
      ensures workers == old(workers)[w := Worker.Recorded(job, success)]
    {
      RecordedState(View(), w, success, duration, started);
      job := channels[w][0];
      channels := channels[w := channels[w][1..]];
      var _ := manager.UpdateTaskState(job.taskId, Running, started);
      manager.UpdateStats(duration, success);
      recorded := recorded + 1;
      workers := workers[w := Worker.Recorded(job, success)];
    }

    method Resolve(w: nat, job: Job, success: bool, finished: int)
      requires Valid() && w < |workers| && workers[w] == Worker.Recorded(job, success)
      modifies this, manager
      ensures Valid()
      ensures View() == Next(old(View()), WorkerResolve(w, finished))
      ensures channels == old(channels) && Ended(job, success, finished, old(Book()), Book())
    {
      if !success && job.retryCount < job.maxRetries {
        timers := timers + [job.(retryCount := job.retryCount + 1)];
      } else {
        var found := manager.UpdateTaskState(job.taskId, if success then Completed else Exception, finished);
        ended := ended + if found then 1 else 0;
      }
      attempts := attempts + 1;
      workers := workers[w := Idle];
    }

    /** The callback of a retry timer. */
    method FireTimer(i: nat)
      requires Valid() && i < |timers|
      modifies this, queue
      ensures Valid()
      ensures View() == Next(old(View()), TimerFire(i))
    {
      var job := timers[i];
      timers := timers[..i] + timers[i + 1..];
      queue.Push(job);
      requeued := requeued + 1;
    }
  }
}

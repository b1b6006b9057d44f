/**
 * The task manager as interleaved atomic steps of its goroutines: the creating request,
 * the dispatcher, the workers, the retry timers and the cleanup routine.
 */
module TaskProtocol {
  import opened Text
  import opened PriorityQueues
  import opened TaskTable

  const NORMAL := 1
  const MAX_RETRIES := 3

  /** CreateTask holds the task mutex from its first step to its last. */
  datatype Creator = NotCreating | Stored(job: Job) | Pushed | Counted

  datatype Dispatcher = Waiting | Holding(job: Job) | Assigned(job: Job, worker: nat)

  /** Where a worker is in processJob. */
  datatype Worker =
    | Idle
    | Received(job: Job)
    | Working(job: Job)
    | Done(job: Job, success: bool, duration: nat)
    | Recorded(job: Job, success: bool)

  /**
   * `created`, `attempts` and `ended` count CreateTask calls, resolved attempts and tasks ended;
   * `recorded` counts attempts entered in the statistics, `requeued` and `sent` retries pushed and jobs sent.
   * `queueCounter` is the queue size field of the statistics, which is kept but read nowhere.
   */
  datatype State = State(
    tasks: map<nat, Task>, used: set<nat>,
    creator: Creator, queue: seq<Job>, dispatcher: Dispatcher,
    channels: seq<seq<Job>>, workers: seq<Worker>, timers: seq<Job>,
    statCompleted: nat, statFailed: nat, queueCounter: int,
    created: nat, recorded: nat, attempts: nat, ended: nat, requeued: nat, sent: nat)

  datatype Step =
    | CreateStore(id: nat, jobId: nat)
    | CreatePush
    | CreateCount
    | CreateReturn
    | DispatchPop
    | DispatchChoose
    | DispatchSend
    | WorkerReceive(w: nat)
    | WorkerRun(w: nat, now: int)
    | WorkerFinish(w: nat, success: bool, duration: nat)
    | WorkerRecord(w: nat)
    | WorkerResolve(w: nat, now: int)
    | TimerFire(i: nat)
    | Cleanup(now: int, maxAge: int)

  ghost predicate MutexFree(s: State) {
    s.creator == NotCreating
  }

  /** Whether the attempt a worker recorded is followed by another one. */
  predicate Retries(w: Worker)
    requires w.Recorded?
  {
    !w.success && w.job.retryCount < w.job.maxRetries
  }

  ghost predicate Enabled(s: State, step: Step) {
    match step
    case CreateStore(id, _) => MutexFree(s) && id !in s.used
    case CreatePush => s.creator.Stored?
    case CreateCount => s.creator.Pushed?
    case CreateReturn => s.creator.Counted?
    case DispatchPop => s.dispatcher.Waiting? && s.queue != []
    case DispatchChoose => s.dispatcher.Holding?
    case DispatchSend => s.dispatcher.Assigned? && s.dispatcher.worker < |s.channels|
    case WorkerReceive(w) => w < |s.workers| && w < |s.channels| && s.workers[w].Idle? && s.channels[w] != []
    case WorkerRun(w, _) => w < |s.workers| && s.workers[w].Received? && MutexFree(s)
    case WorkerFinish(w, _, _) => w < |s.workers| && s.workers[w].Working?
    case WorkerRecord(w) => w < |s.workers| && s.workers[w].Done?
    case WorkerResolve(w, _) =>
      w < |s.workers| && s.workers[w].Recorded? && (Retries(s.workers[w]) || MutexFree(s))
    case TimerFire(i) => i < |s.timers|
    case Cleanup(_, _) => MutexFree(s)
  }

  function Retried(job: Job): Job {
    job.(retryCount := job.retryCount + 1)
  }

  /** CreateTask's first step, whatever the clock gave for an ID. */
  ghost function StoreTask(s: State, id: nat, jobId: nat): State {
    s.(tasks := s.tasks[id := Task(Pending, None)], used := s.used + {id}, created := s.created + 1,
       creator := Stored(Job(jobId, id, NORMAL, 0, MAX_RETRIES)))
  }

  ghost function Next(s: State, step: Step): State
    requires Enabled(s, step)
  {
    match step
    case CreateStore(id, jobId) => StoreTask(s, id, jobId)
    case CreatePush => s.(creator := Pushed, queue := Inserted(s.queue, s.creator.job))
    case CreateCount => s.(creator := Counted, statCompleted := s.statCompleted + 1)
    case CreateReturn => s.(creator := NotCreating, queueCounter := s.queueCounter + 1)
    case DispatchPop => s.(dispatcher := Holding(s.queue[0]), queue := s.queue[1..])
    case DispatchChoose =>
      (match FirstFree(s.channels)
       case Some(w) => s.(dispatcher := Assigned(s.dispatcher.job, w))
       case None => s.(dispatcher := Waiting, queue := Inserted(s.queue, s.dispatcher.job)))
    case DispatchSend =>
      var w := s.dispatcher.worker;
      if HasRoom(s.channels[w]) then
        s.(dispatcher := Waiting, channels := s.channels[w := s.channels[w] + [s.dispatcher.job]],
           queueCounter := s.queueCounter - 1, sent := s.sent + 1)
      else
        s.(dispatcher := Waiting, queue := Inserted(s.queue, s.dispatcher.job))
    case WorkerReceive(w) =>
      s.(workers := s.workers[w := Received(s.channels[w][0])], channels := s.channels[w := s.channels[w][1..]])
    case WorkerRun(w, now) =>
      var job := s.workers[w].job;
      s.(workers := s.workers[w := Working(job)], tasks := WithState(s.tasks, job.taskId, Running, now))
    case WorkerFinish(w, success, duration) =>
      s.(workers := s.workers[w := Done(s.workers[w].job, success, duration)])
    case WorkerRecord(w) =>
      var success := s.workers[w].success;
      s.(workers := s.workers[w := Recorded(s.workers[w].job, success)], recorded := s.recorded + 1,
         statCompleted := s.statCompleted + if success then 1 else 0,
         statFailed := s.statFailed + if success then 0 else 1)
    case WorkerResolve(w, now) =>
      var worker := s.workers[w];
      var resolved := s.(workers := s.workers[w := Idle], attempts := s.attempts + 1);
      if Retries(worker) then resolved.(timers := s.timers + [Retried(worker.job)])
      else if worker.job.taskId !in s.tasks then resolved
      else
        resolved.(
          tasks := WithState(s.tasks, worker.job.taskId, if worker.success then Completed else Exception, now),
          ended := s.ended + 1,
          statCompleted := s.statCompleted + if worker.success then 1 else 0,
          statFailed := s.statFailed + if worker.success then 0 else 1)
    case TimerFire(i) =>
      s.(timers := Without(s.timers, i), queue := Inserted(s.queue, s.timers[i]), requeued := s.requeued + 1)
    case Cleanup(now, maxAge) => s.(tasks := Cleaned(s.tasks, now, maxAge))
  }

  ghost predicate Initial(s: State) {
    && s.tasks == map[] && s.used == {} && s.creator == NotCreating && s.queue == [] && s.dispatcher == Waiting
    && |s.channels| == |s.workers| && (forall i | 0 <= i < |s.channels| :: s.channels[i] == [] && s.workers[i] == Idle)
    && s.timers == []
    && s.statCompleted == s.statFailed == 0 && s.queueCounter == 0
    && s.created == s.recorded == s.attempts == s.ended == s.requeued == s.sent == 0
  }

  ghost predicate Run(ss: seq<State>, steps: seq<Step>) {
    && |ss| == |steps| + 1 && Initial(ss[0])
    && forall k | 0 <= k < |steps| :: Enabled(ss[k], steps[k]) && ss[k + 1] == Next(ss[k], steps[k])
  }

  // ----- The job tokens -----

  type Measure = Job -> nat

  ghost function Sum(f: Measure, q: seq<Job>): nat {
    if q == [] then 0 else f(q[0]) + Sum(f, q[1..])
  }

  ghost function SumChannels(f: Measure, channels: seq<seq<Job>>): nat {
    if channels == [] then 0 else Sum(f, channels[0]) + SumChannels(f, channels[1..])
  }

  ghost function SumOf(f: Measure, w: Worker): nat {
    if w.Idle? then 0 else f(w.job)
  }

  ghost function SumWorkers(f: Measure, workers: seq<Worker>): nat {
    if workers == [] then 0 else SumOf(f, workers[0]) + SumWorkers(f, workers[1..])
  }

  /** The measure summed over every job in the system, wherever it is. */
  ghost function Total(f: Measure, s: State): nat {
    (if s.creator.Stored? then f(s.creator.job) else 0) + Sum(f, s.queue)
    + (if s.dispatcher.Waiting? then 0 else f(s.dispatcher.job))
    + SumChannels(f, s.channels) + SumWorkers(f, s.workers) + Sum(f, s.timers)
  }

  lemma {:induction false} SumSplit(f: Measure, a: seq<Job>, b: seq<Job>)
    ensures Sum(f, a + b) == Sum(f, a) + Sum(f, b)
  {
    if a == [] {
      assert a + b == b;
    } else {
      assert (a + b)[1..] == a[1..] + b;
      SumSplit(f, a[1..], b);
    }
  }

  lemma {:induction false} SumSpliced(f: Measure, q: seq<Job>, job: Job, k: nat)
    requires k <= |q|
    ensures Sum(f, Spliced(q, job, k)) == Sum(f, q) + f(job)
  {
    var s := Spliced(q, job, k);
    if k == 0 {
      assert s[1..] == q;
    } else {
      assert s[0] == q[0] && s[1..] == Spliced(q[1..], job, k - 1);
      SumSpliced(f, q[1..], job, k - 1);
    }
  }

  lemma {:induction false} SumWithout(f: Measure, q: seq<Job>, i: nat)
    requires i < |q|
    ensures Sum(f, q) == Sum(f, Without(q, i)) + f(q[i])
  {
    var s := Without(q, i);
    if i == 0 {
      assert s == q[1..];
    } else {
      assert s[0] == q[0] && s[1..] == Without(q[1..], i - 1);
      SumWithout(f, q[1..], i - 1);
    }
  }

  lemma {:induction false} SumChannelsUpdate(f: Measure, channels: seq<seq<Job>>, i: nat, channel: seq<Job>)
    requires i < |channels|
    ensures SumChannels(f, channels[i := channel]) + Sum(f, channels[i]) == SumChannels(f, channels) + Sum(f, channel)
  {
    var updated := channels[i := channel];
    if i == 0 {
      assert updated[1..] == channels[1..];
    } else {
      assert updated[1..] == channels[1..][i - 1 := channel] && channels[1..][i - 1] == channels[i];
      SumChannelsUpdate(f, channels[1..], i - 1, channel);
    }
  }

  lemma {:induction false} SumWorkersUpdate(f: Measure, workers: seq<Worker>, i: nat, worker: Worker)
    requires i < |workers|
    ensures SumWorkers(f, workers[i := worker]) + SumOf(f, workers[i]) == SumWorkers(f, workers) + SumOf(f, worker)
  {
    var updated := workers[i := worker];
    if i == 0 {
      assert updated[1..] == workers[1..];
    } else {
      assert updated[1..] == workers[1..][i - 1 := worker] && workers[1..][i - 1] == workers[i];
      SumWorkersUpdate(f, workers[1..], i - 1, worker);
    }
  }

  /** What a step adds to and takes from any measure: only creation, retry and resolution do. */
  ghost function Gained(f: Measure, s: State, step: Step): nat
    requires Enabled(s, step)
  {
    match step
    case CreateStore(id, jobId) => f(Job(jobId, id, NORMAL, 0, MAX_RETRIES))
    case WorkerResolve(w, _) => if Retries(s.workers[w]) then f(Retried(s.workers[w].job)) else 0
    case _ => 0
  }

  ghost function Lost(f: Measure, s: State, step: Step): nat
    requires Enabled(s, step)
  {
    if step.WorkerResolve? then f(s.workers[step.w].job) else 0
  }

  /** Steps neither duplicate nor drop jobs. */
  lemma JobsConserved(f: Measure, s: State, step: Step)
    requires Enabled(s, step)
    ensures Total(f, Next(s, step)) + Lost(f, s, step) == Total(f, s) + Gained(f, s, step)
  {
    match step
    case CreatePush => SumSpliced(f, s.queue, s.creator.job, Place(s.queue, s.creator.job.priority));
    case DispatchChoose => SumSpliced(f, s.queue, s.dispatcher.job, Place(s.queue, s.dispatcher.job.priority));
    case DispatchSend => JobsConservedOnSend(f, s);
    case WorkerReceive(w) => JobsConservedOnReceive(f, s, w);
    case WorkerRun(w, _) => SumWorkersUpdate(f, s.workers, w, Next(s, step).workers[w]);
    case WorkerFinish(w, _, _) => SumWorkersUpdate(f, s.workers, w, Next(s, step).workers[w]);
    case WorkerRecord(w) => SumWorkersUpdate(f, s.workers, w, Next(s, step).workers[w]);
    case WorkerResolve(w, _) =>
      SumWorkersUpdate(f, s.workers, w, Idle);
      SumSplit(f, s.timers, [Retried(s.workers[w].job)]);
    case TimerFire(i) =>
      SumWithout(f, s.timers, i);
      SumSpliced(f, s.queue, s.timers[i], Place(s.queue, s.timers[i].priority));
    case _ =>
  }

  lemma JobsConservedOnSend(f: Measure, s: State)
    requires Enabled(s, DispatchSend)
    ensures Total(f, Next(s, DispatchSend)) == Total(f, s)
  {
    var w, job := s.dispatcher.worker, s.dispatcher.job;
    SumSpliced(f, s.queue, job, Place(s.queue, job.priority));
    SumSplit(f, s.channels[w], [job]);
    SumChannelsUpdate(f, s.channels, w, s.channels[w] + [job]);
  }

  lemma JobsConservedOnReceive(f: Measure, s: State, w: nat)
    requires Enabled(s, WorkerReceive(w))
    ensures Total(f, Next(s, WorkerReceive(w))) == Total(f, s)
  {
    SumChannelsUpdate(f, s.channels, w, s.channels[w][1..]);
    SumWorkersUpdate(f, s.workers, w, Received(s.channels[w][0]));
  }

  lemma HeldJobCounts(f: Measure, s: State, w: nat)
    requires w < |s.workers| && !s.workers[w].Idle?
    ensures f(s.workers[w].job) <= Total(f, s)
  {
    SumWorkersUpdate(f, s.workers, w, Idle);
  }

  // ----- The invariant -----

  ghost function OfTask(id: nat): Measure {
    (j: Job) => if j.taskId == id then 1 else 0
  }

  /** Attempts left for a job, the current one included. */
  ghost function AttemptsLeft(): Measure {
    (j: Job) => if j.retryCount <= j.maxRetries then j.maxRetries - j.retryCount + 1 else 0
  }

  ghost function Overrun(): Measure {
    (j: Job) => if j.retryCount <= j.maxRetries then 0 else 1
  }

  ghost predicate Live(tasks: map<nat, Task>, id: nat) {
    id in tasks && !Terminal(tasks[id].state)
  }

  /** A live task has exactly one job in the system, any other ID none. */
  ghost predicate OneJobEach(s: State) {
    forall id :: Total(OfTask(id), s) == if Live(s.tasks, id) then 1 else 0
  }

  ghost predicate EndTimes(tasks: map<nat, Task>) {
    forall id | id in tasks :: tasks[id].endTime.Some? <==> Terminal(tasks[id].state)
  }

  /** What the counters of the statistics really count. */
  ghost predicate CountersBalance(s: State) {
    && s.statCompleted + s.statFailed ==
        s.created + s.recorded + s.ended - (if s.creator.Stored? || s.creator.Pushed? then 1 else 0)
    && |s.queue| + (if s.dispatcher.Waiting? then 0 else 1) + s.sent + (if s.creator.Stored? then 1 else 0) ==
        s.created + s.requeued
    && s.queueCounter == s.created - (if MutexFree(s) then 0 else 1) - s.sent
  }

  ghost predicate ChannelsFit(s: State) {
    && |s.channels| == |s.workers|
    && (forall c | c in s.channels :: |c| <= CHANNEL_CAPACITY)
    && (s.dispatcher.Assigned? ==> s.dispatcher.worker < |s.channels| && HasRoom(s.channels[s.dispatcher.worker]))
  }

  /** A worker past its first update has seen the mutex free after its task was created. */
  ghost predicate RunningIsCounted(s: State) {
    forall w | w in s.workers && (w.Working? || w.Done? || w.Recorded?) :: s.statCompleted + s.statFailed > 0
  }

  ghost predicate TokenInv(s: State) {
    && OneJobEach(s)
    && EndTimes(s.tasks)
    && s.tasks.Keys <= s.used
    && |s.used| == s.created
    && Total(Overrun(), s) == 0
    && s.attempts + Total(AttemptsLeft(), s) <= (MAX_RETRIES + 1) * s.created
  }

  ghost predicate Inv(s: State) {
    TokenInv(s) && CountersBalance(s) && ChannelsFit(s) && RunningIsCounted(s) && Sorted(s.queue)
  }

  lemma {:induction false} EmptyTotal(f: Measure, s: State)
    requires Initial(s)
    ensures Total(f, s) == 0
  {
    EmptyChannels(f, s.channels);
    IdleWorkers(f, s.workers);
  }

  lemma {:induction false} EmptyChannels(f: Measure, channels: seq<seq<Job>>)
    requires forall i | 0 <= i < |channels| :: channels[i] == []
    ensures SumChannels(f, channels) == 0
  {
    if channels != [] {
      assert forall i | 0 <= i < |channels| - 1 :: channels[1..][i] == channels[i + 1];
      EmptyChannels(f, channels[1..]);
    }
  }

  lemma {:induction false} IdleWorkers(f: Measure, workers: seq<Worker>)
    requires forall i | 0 <= i < |workers| :: workers[i] == Idle
    ensures SumWorkers(f, workers) == 0
  {
    if workers != [] {
      assert forall i | 0 <= i < |workers| - 1 :: workers[1..][i] == workers[i + 1];
      IdleWorkers(f, workers[1..]);
    }
  }

  lemma InitialInv(s: State)
    requires Initial(s)
    ensures Inv(s)
  {
    forall id {
      EmptyTotal(OfTask(id), s);
    }
    EmptyTotal(Overrun(), s);
    EmptyTotal(AttemptsLeft(), s);
  }

  /** The job a worker holds belongs to a live task and is within its attempts. */
  lemma WorkerHoldsLiveTask(s: State, w: nat)
    requires TokenInv(s) && w < |s.workers| && !s.workers[w].Idle?
    ensures Live(s.tasks, s.workers[w].job.taskId) && s.workers[w].job.retryCount <= s.workers[w].job.maxRetries
  {
    HeldJobCounts(OfTask(s.workers[w].job.taskId), s, w);
    HeldJobCounts(Overrun(), s, w);
  }

  lemma AttemptsKept(s: State, step: Step)
    requires TokenInv(s) && Enabled(s, step)
    ensures var n := Next(s, step);
            Total(Overrun(), n) == 0 && n.attempts + Total(AttemptsLeft(), n) <= (MAX_RETRIES + 1) * n.created
  {
    JobsConserved(Overrun(), s, step);
    JobsConserved(AttemptsLeft(), s, step);
    if step.WorkerResolve? {
      WorkerHoldsLiveTask(s, step.w);
    }
  }

  lemma TasksKept(s: State, step: Step)
    requires TokenInv(s) && Enabled(s, step)
    ensures var n := Next(s, step);
            EndTimes(n.tasks) && n.tasks.Keys <= n.used && |n.used| == n.created
  {
    if step.WorkerResolve? || step.WorkerRun? {
      WorkerHoldsLiveTask(s, step.w);
    }
  }

  lemma TokensKept(s: State, step: Step)
    requires TokenInv(s) && Enabled(s, step)
    ensures TokenInv(Next(s, step))
  {
    AttemptsKept(s, step);
    TasksKept(s, step);
    forall id
      ensures Total(OfTask(id), Next(s, step)) == if Live(Next(s, step).tasks, id) then 1 else 0
    {
      TokenOfTaskKept(s, step, id);
    }
  }

  lemma TokenOfTaskKept(s: State, step: Step, id: nat)
    requires TokenInv(s) && Enabled(s, step)
    ensures Total(OfTask(id), Next(s, step)) == if Live(Next(s, step).tasks, id) then 1 else 0
  {
    JobsConserved(OfTask(id), s, step);
    if step.WorkerResolve? {
      TokenOfTaskResolved(s, step, id);
    } else if step.WorkerRun? {
      WorkerHoldsLiveTask(s, step.w);
    }
  }

  lemma TokenOfTaskResolved(s: State, step: Step, id: nat)
    requires TokenInv(s) && Enabled(s, step) && step.WorkerResolve?
    requires Total(OfTask(id), Next(s, step)) + Lost(OfTask(id), s, step) ==
             Total(OfTask(id), s) + Gained(OfTask(id), s, step)
    ensures Total(OfTask(id), Next(s, step)) == if Live(Next(s, step).tasks, id) then 1 else 0
  {
    WorkerHoldsLiveTask(s, step.w);
  }

  lemma CountersKept(s: State, step: Step)
    requires Inv(s) && Enabled(s, step)
    ensures CountersBalance(Next(s, step))
  {
    if step.WorkerResolve? {
      CountersKeptByResolution(s, step);
    }
  }

  lemma CountersKeptByResolution(s: State, step: Step)
    requires Inv(s) && Enabled(s, step) && step.WorkerResolve?
    ensures CountersBalance(Next(s, step))
  {
    WorkerHoldsLiveTask(s, step.w);
  }

  lemma ChannelsKept(s: State, step: Step)
    requires ChannelsFit(s) && Enabled(s, step)
    ensures ChannelsFit(Next(s, step))
  {
  }

  /** The mutex is free when a worker enters its task as running, so every creation is counted by then. */
  lemma RunningKept(s: State, step: Step)
    requires Inv(s) && Enabled(s, step)
    ensures RunningIsCounted(Next(s, step))
  {
    if step.WorkerRun? {
      WorkerHoldsLiveTask(s, step.w);
      assert s.workers[step.w].job.taskId in s.used;
    }
  }

  lemma {:induction false} RunKeepsInvariant(ss: seq<State>, steps: seq<Step>, k: nat)
    requires Run(ss, steps) && k <= |steps|
    ensures Inv(ss[k])
  {
    if k == 0 {
      InitialInv(ss[0]);
    } else {
      RunKeepsInvariant(ss, steps, k - 1);
      StepKeepsInvariant(ss[k - 1], steps[k - 1]);
    }
  }

  lemma StepKeepsInvariant(s: State, step: Step)
    requires Inv(s) && Enabled(s, step)
    ensures Inv(Next(s, step))
  {
    TokensKept(s, step);
    CountersKept(s, step);
    ChannelsKept(s, step);
    RunningKept(s, step);
    QueueStaysSorted(s, step);
  }

  lemma QueueStaysSorted(s: State, step: Step)
    requires Enabled(s, step) && Sorted(s.queue)
    ensures Sorted(Next(s, step).queue)
  {
    match step
    case CreatePush => InsertedKeepsSortedPermutation(s.queue, s.creator.job);
    case DispatchChoose => InsertedKeepsSortedPermutation(s.queue, s.dispatcher.job);
    case DispatchSend => InsertedKeepsSortedPermutation(s.queue, s.dispatcher.job);
    case TimerFire(i) => InsertedKeepsSortedPermutation(s.queue, s.timers[i]);
    case _ =>
  }

  // ----- Results about whole runs -----

  /**
   * A task that is completed or failed stays as it is until the cleanup drops it; it has no job and never gets one
   * again.
   */
  lemma {:induction false} TerminalIsForever(ss: seq<State>, steps: seq<Step>, i: nat, k: nat, id: nat, end: Task)
    requires Run(ss, steps) && i <= k <= |steps|
    requires id in ss[i].tasks && ss[i].tasks[id] == end && Terminal(end.state)
    ensures id in ss[k].used && Total(OfTask(id), ss[k]) == 0
    ensures id in ss[k].tasks ==> ss[k].tasks[id] == end
    ensures end.endTime.Some?
    decreases k
  {
    if i == k {
      RunKeepsInvariant(ss, steps, k);
    } else {
      TerminalIsForever(ss, steps, i, k - 1, id, end);
      RunKeepsInvariant(ss, steps, k - 1);
      FinishedTaskKept(ss[k - 1], steps[k - 1], id);
    }
  }

  lemma FinishedTaskKept(s: State, step: Step, id: nat)
    requires TokenInv(s) && Enabled(s, step) && id in s.used && !Live(s.tasks, id)
    ensures id in Next(s, step).used && Total(OfTask(id), Next(s, step)) == 0
    ensures id in Next(s, step).tasks ==> id in s.tasks && Next(s, step).tasks[id] == s.tasks[id]
  {
    if step.WorkerResolve? || step.WorkerRun? {
      WorkerHoldsLiveTask(s, step.w);
    }
    TokenOfTaskKept(s, step, id);
  }

  /** At any moment of any run: one job per unfinished task, an end time exactly on finished ones. */
  lemma EachUnfinishedTaskHasOneJob(ss: seq<State>, steps: seq<Step>, k: nat, id: nat)
    requires Run(ss, steps) && k <= |steps|
    ensures Total(OfTask(id), ss[k]) == if Live(ss[k].tasks, id) then 1 else 0
    ensures id in ss[k].tasks ==> (ss[k].tasks[id].endTime.Some? <==> Terminal(ss[k].tasks[id].state))
  {
    RunKeepsInvariant(ss, steps, k);
  }

  /** The cleanup never drops a task that still has a job. */
  lemma CleanupSparesLiveTasks(ss: seq<State>, steps: seq<Step>, k: nat, id: nat, now: int, maxAge: int)
    requires Run(ss, steps) && k <= |steps| && Total(OfTask(id), ss[k]) > 0
    ensures id in Cleaned(ss[k].tasks, now, maxAge) && Cleaned(ss[k].tasks, now, maxAge)[id] == ss[k].tasks[id]
  {
    RunKeepsInvariant(ss, steps, k);
  }

  // ----- The attempts of one task -----

  /** Attempts left for the jobs of one task. */
  ghost function LeftOf(id: nat): Measure {
    (j: Job) => if j.taskId == id && j.retryCount <= j.maxRetries then j.maxRetries - j.retryCount + 1 else 0
  }

  /** An attempt of this task is resolved. */
  ghost predicate Attempts(s: State, step: Step, id: nat) {
    step.WorkerResolve? && Enabled(s, step) && s.workers[step.w].job.taskId == id
  }

  /** How many of the first `k` steps do that. */
  ghost function AttemptsOf(ss: seq<State>, steps: seq<Step>, k: nat, id: nat): nat
    requires |ss| == |steps| + 1 && k <= |steps|
  {
    if k == 0 then 0
    else AttemptsOf(ss, steps, k - 1, id) + if Attempts(ss[k - 1], steps[k - 1], id) then 1 else 0
  }

  lemma {:induction false} NoJobNothingLeft(q: seq<Job>, id: nat)
    requires Sum(OfTask(id), q) == 0
    ensures Sum(LeftOf(id), q) == 0
  {
    if q != [] {
      NoJobNothingLeft(q[1..], id);
    }
  }

  lemma {:induction false} NoJobInChannels(channels: seq<seq<Job>>, id: nat)
    requires SumChannels(OfTask(id), channels) == 0
    ensures SumChannels(LeftOf(id), channels) == 0
  {
    if channels != [] {
      NoJobNothingLeft(channels[0], id);
      NoJobInChannels(channels[1..], id);
    }
  }

  lemma {:induction false} NoJobAtWorkers(workers: seq<Worker>, id: nat)
    requires SumWorkers(OfTask(id), workers) == 0
    ensures SumWorkers(LeftOf(id), workers) == 0
  {
    if workers != [] {
      NoJobAtWorkers(workers[1..], id);
    }
  }

  /** A task that is not live has no attempts left. */
  lemma NothingLeftUnlessLive(s: State, id: nat)
    requires OneJobEach(s) && !Live(s.tasks, id)
    ensures Total(LeftOf(id), s) == 0
  {
    assert Total(OfTask(id), s) == 0;
    NoJobNothingLeft(s.queue, id);
    NoJobInChannels(s.channels, id);
    NoJobAtWorkers(s.workers, id);
    NoJobNothingLeft(s.timers, id);
  }

  /** `n` attempts of the task so far, against what its state says about them. */
  ghost predicate AttemptsFit(s: State, id: nat, n: nat) {
    Fits(s.tasks, s.used, id, n, Total(LeftOf(id), s))
  }

  ghost predicate Fits(tasks: map<nat, Task>, used: set<nat>, id: nat, n: nat, left: nat) {
    && n + left <= (if id in used then MAX_RETRIES + 1 else 0)
    && (Live(tasks, id) ==> n + left == MAX_RETRIES + 1)
    && (id in tasks && tasks[id].state == Exception ==> n == MAX_RETRIES + 1)
    && (id in tasks && tasks[id].state == Completed ==> n > 0)
  }

  /** A worker enters this task as running. */
  ghost predicate Runs(s: State, step: Step, id: nat) {
    step.WorkerRun? && Enabled(s, step) && s.workers[step.w].job.taskId == id
  }

  /** What a step that resolves no attempt of the task does to it. */
  datatype Change = Created | Started | Dropped | Unchanged

  ghost function ChangeOf(s: State, step: Step, id: nat): Change
    requires Enabled(s, step)
  {
    if step.CreateStore? && step.id == id then Created
    else if Runs(s, step, id) then Started
    else if step.Cleanup? && id in s.tasks && id !in Next(s, step).tasks then Dropped
    else Unchanged
  }

  ghost predicate Changed(tasks: map<nat, Task>, used: set<nat>, c: Change, id: nat, tasks': map<nat, Task>,
      used': set<nat>) {
    match c
    case Created => id !in used && id !in tasks && id in used' && id in tasks' && tasks'[id].state == Pending
    case Started => Live(tasks, id) && id in tasks' && tasks'[id].state == Running && id in used && id in used'
    case Dropped => id in tasks && Terminal(tasks[id].state) && id !in tasks' && (id in used <==> id in used')
    case Unchanged =>
      && (id in used <==> id in used') && (id in tasks <==> id in tasks') && (id in tasks ==> tasks'[id] == tasks[id])
  }

  lemma OtherStepChanges(s: State, step: Step, id: nat)
    requires TokenInv(s) && Enabled(s, step) && !Attempts(s, step, id)
    ensures Changed(s.tasks, s.used, ChangeOf(s, step, id), id, Next(s, step).tasks, Next(s, step).used)
  {
    if step.WorkerResolve? || step.WorkerRun? {
      WorkerHoldsLiveTask(s, step.w);
    }
  }

  lemma FitsAfterChange(tasks: map<nat, Task>, used: set<nat>, c: Change, id: nat, tasks': map<nat, Task>,
      used': set<nat>, n: nat, left: nat, left': nat)
    requires Changed(tasks, used, c, id, tasks', used') && Fits(tasks, used, id, n, left)
    requires left' == left + if c == Created then MAX_RETRIES + 1 else 0
    ensures Fits(tasks', used', id, n, left')
  {
  }

  lemma AttemptsStillFit(s: State, step: Step, id: nat, n: nat)
    requires TokenInv(s) && Enabled(s, step) && AttemptsFit(s, id, n)
    ensures AttemptsFit(Next(s, step), id, n + if Attempts(s, step, id) then 1 else 0)
  {
    JobsConserved(LeftOf(id), s, step);
    if step.WorkerResolve? {
      ResolutionFits(s, step, id, n);
    } else {
      OtherStepFits(s, step, id, n);
    }
  }

  lemma OtherStepFits(s: State, step: Step, id: nat, n: nat)
    requires TokenInv(s) && Enabled(s, step) && !step.WorkerResolve? && AttemptsFit(s, id, n)
    requires Total(LeftOf(id), Next(s, step)) == Total(LeftOf(id), s) + Gained(LeftOf(id), s, step)
    ensures AttemptsFit(Next(s, step), id, n)
  {
    OtherStepChanges(s, step, id);
    assert Gained(LeftOf(id), s, step) == if ChangeOf(s, step, id) == Created then MAX_RETRIES + 1 else 0;
    FitsAfterChange(s.tasks, s.used, ChangeOf(s, step, id), id, Next(s, step).tasks, Next(s, step).used, n,
        Total(LeftOf(id), s), Total(LeftOf(id), Next(s, step)));
  }

  lemma ResolutionFits(s: State, step: Step, id: nat, n: nat)
    requires TokenInv(s) && Enabled(s, step) && step.WorkerResolve? && AttemptsFit(s, id, n)
    requires Total(LeftOf(id), Next(s, step)) + Lost(LeftOf(id), s, step) ==
             Total(LeftOf(id), s) + Gained(LeftOf(id), s, step)
    ensures AttemptsFit(Next(s, step), id, n + if Attempts(s, step, id) then 1 else 0)
  {
    var next := Next(s, step);
    WorkerHoldsLiveTask(s, step.w);
    TokensKept(s, step);
    if !Live(next.tasks, id) {
      NothingLeftUnlessLive(next, id);
    }
  }

  /**
   * In every run no task has more than four attempts: those resolved and those left make four while it is not ended,
   * a failed task has had all four, a completed one at least one, and an ID not used yet none.
   */
  lemma {:induction false} EachTaskHasAtMostFourAttempts(ss: seq<State>, steps: seq<Step>, k: nat, id: nat)
    requires Run(ss, steps) && k <= |steps|
    ensures AttemptsFit(ss[k], id, AttemptsOf(ss, steps, k, id))
  {
    if k == 0 {
      EmptyTotal(LeftOf(id), ss[0]);
    } else {
      EachTaskHasAtMostFourAttempts(ss, steps, k - 1, id);
      RunKeepsInvariant(ss, steps, k - 1);
      AttemptsStillFit(ss[k - 1], steps[k - 1], id, AttemptsOf(ss, steps, k - 1, id));
    }
  }

  // ----- What the states and the counts say -----

  /** What the last attempt that worker `w` finished among the first `k` steps came to. */
  ghost function OutcomeAt(steps: seq<Step>, k: nat, w: nat): bool
    requires k <= |steps|
  {
    if k == 0 then false
    else if steps[k - 1].WorkerFinish? && steps[k - 1].w == w then steps[k - 1].success
    else OutcomeAt(steps, k - 1, w)
  }

  ghost predicate OutcomesHeld(s: State, steps: seq<Step>, k: nat)
    requires k <= |steps|
  {
    forall w | 0 <= w < |s.workers| && (s.workers[w].Done? || s.workers[w].Recorded?) ::
      s.workers[w].success == OutcomeAt(steps, k, w)
  }

  lemma OutcomesStep(s: State, steps: seq<Step>, k: nat)
    requires k < |steps| && Enabled(s, steps[k]) && OutcomesHeld(s, steps, k)
    ensures OutcomesHeld(Next(s, steps[k]), steps, k + 1)
  {
    var n := Next(s, steps[k]);
    forall w | 0 <= w < |n.workers| && (n.workers[w].Done? || n.workers[w].Recorded?)
      ensures n.workers[w].success == OutcomeAt(steps, k + 1, w)
    {
      if s.workers[w].Done? || s.workers[w].Recorded? {
        assert s.workers[w].success == OutcomeAt(steps, k, w);
      }
    }
  }

  lemma {:induction false} RunHoldsOutcomes(ss: seq<State>, steps: seq<Step>, k: nat)
    requires Run(ss, steps) && k <= |steps|
    ensures OutcomesHeld(ss[k], steps, k)
  {
    if k == 0 {
      assert forall w | 0 <= w < |ss[0].workers| :: ss[0].workers[w] == Idle;
    } else {
      RunHoldsOutcomes(ss, steps, k - 1);
      OutcomesStep(ss[k - 1], steps, k - 1);
    }
  }

  ghost predicate HasRun(ss: seq<State>, steps: seq<Step>, k: nat, id: nat)
    requires |ss| == |steps| + 1 && k <= |steps|
  {
    exists m :: 0 <= m < k && Runs(ss[m], steps[m], id)
  }

  /** What the last resolved attempt of this task came to. */
  ghost function LastOutcome(ss: seq<State>, steps: seq<Step>, k: nat, id: nat): Option<bool>
    requires |ss| == |steps| + 1 && k <= |steps|
  {
    if k == 0 then None
    else if Attempts(ss[k - 1], steps[k - 1], id) then Some(OutcomeAt(steps, k - 1, steps[k - 1].w))
    else LastOutcome(ss, steps, k - 1, id)
  }

  /** The state of a task against its history. */
  ghost predicate StateFits(s: State, id: nat, ran: bool, attempts: nat, last: Option<bool>) {
    StateOf(s.tasks, s.used, id, ran, attempts, last) && (AtWork(s.workers, id) ==> ran)
  }

  ghost predicate StateOf(tasks: map<nat, Task>, used: set<nat>, id: nat, ran: bool, attempts: nat,
      last: Option<bool>) {
    && (id in tasks ==>
          && (tasks[id].state == Completed <==> last == Some(true))
          && (tasks[id].state == Exception <==> last == Some(false) && attempts == MAX_RETRIES + 1)
          && (tasks[id].state == Pending <==> !ran))
    && (id !in used ==> !ran && attempts == 0 && last == None)
    && (attempts > 0 <==> last.Some?)
    && (attempts > 0 ==> ran)
  }

  /** Some worker is past entering this task as running. */
  ghost predicate AtWork(workers: seq<Worker>, id: nat) {
    exists w :: w in workers && (w.Working? || w.Done? || w.Recorded?) && w.job.taskId == id
  }

  lemma StateAfterChange(tasks: map<nat, Task>, used: set<nat>, c: Change, id: nat, tasks': map<nat, Task>,
      used': set<nat>, ran: bool, n: nat, last: Option<bool>)
    requires Changed(tasks, used, c, id, tasks', used') && StateOf(tasks, used, id, ran, n, last)
    ensures StateOf(tasks', used', id, ran || c == Started, n, last)
  {
  }

  lemma WorkIsStarted(s: State, step: Step, id: nat)
    requires Enabled(s, step) && AtWork(Next(s, step).workers, id)
    ensures AtWork(s.workers, id) || Runs(s, step, id)
  {
    var n := Next(s, step);
    var i: nat :| i < |n.workers| && (n.workers[i].Working? || n.workers[i].Done? || n.workers[i].Recorded?)
        && n.workers[i].job.taskId == id;
    if s.workers[i].Working? || s.workers[i].Done? || s.workers[i].Recorded? {
      assert s.workers[i] in s.workers;
    }
  }

  lemma ResolutionStateFits(s: State, step: Step, id: nat, n: nat, last: Option<bool>)
    requires TokenInv(s) && Attempts(s, step, id) && StateFits(s, id, true, n, last)
    requires AttemptsFit(s, id, n) && AttemptsFit(Next(s, step), id, n + 1)
    ensures StateFits(Next(s, step), id, true, n + 1, Some(s.workers[step.w].success))
  {
    WorkerHoldsLiveTask(s, step.w);
    if Retries(s.workers[step.w]) {
      JobsConserved(LeftOf(id), s, step);
      HeldJobCounts(LeftOf(id), s, step.w);
    }
  }

  lemma OtherStateFits(s: State, step: Step, id: nat, ran: bool, n: nat, last: Option<bool>)
    requires TokenInv(s) && Enabled(s, step) && !Attempts(s, step, id) && StateFits(s, id, ran, n, last)
    ensures StateFits(Next(s, step), id, ran || Runs(s, step, id), n, last)
  {
    OtherStepChanges(s, step, id);
    StateAfterChange(s.tasks, s.used, ChangeOf(s, step, id), id, Next(s, step).tasks, Next(s, step).used, ran, n, last);
    if AtWork(Next(s, step).workers, id) {
      WorkIsStarted(s, step, id);
    }
  }

  /**
   * In every run and for each task: it is completed exactly if its last resolved attempt succeeded, failed exactly if
   * four attempts were resolved and the last of them failed, pending exactly if no worker has run it, and running
   * otherwise.
   */
  lemma {:induction false} StateFollowsOutcomes(ss: seq<State>, steps: seq<Step>, k: nat, id: nat)
    requires Run(ss, steps) && k <= |steps|
    ensures StateFits(ss[k], id, HasRun(ss, steps, k, id), AttemptsOf(ss, steps, k, id),
                LastOutcome(ss, steps, k, id))
  {
    if k > 0 {
      StateFollowsOutcomes(ss, steps, k - 1, id);
      RunKeepsInvariant(ss, steps, k - 1);
      EachTaskHasAtMostFourAttempts(ss, steps, k - 1, id);
      EachTaskHasAtMostFourAttempts(ss, steps, k, id);
      RunHoldsOutcomes(ss, steps, k - 1);
      StateStep(ss, steps, k - 1, id);
    }
  }

  lemma StateStep(ss: seq<State>, steps: seq<Step>, k: nat, id: nat)
    requires Run(ss, steps) && k < |steps| && TokenInv(ss[k]) && OutcomesHeld(ss[k], steps, k)
    requires AttemptsFit(ss[k], id, AttemptsOf(ss, steps, k, id))
    requires AttemptsFit(ss[k + 1], id, AttemptsOf(ss, steps, k + 1, id))
    requires StateFits(ss[k], id, HasRun(ss, steps, k, id), AttemptsOf(ss, steps, k, id), LastOutcome(ss, steps, k, id))
    ensures StateFits(ss[k + 1], id, HasRun(ss, steps, k + 1, id), AttemptsOf(ss, steps, k + 1, id),
                LastOutcome(ss, steps, k + 1, id))
  {
    var s, step := ss[k], steps[k];
    assert HasRun(ss, steps, k + 1, id) <==> HasRun(ss, steps, k, id) || Runs(s, step, id);
    if Attempts(s, step, id) {
      assert s.workers[step.w] in s.workers;
      ResolutionStateFits(s, step, id, AttemptsOf(ss, steps, k, id), LastOutcome(ss, steps, k, id));
    } else {
      OtherStateFits(s, step, id, HasRun(ss, steps, k, id), AttemptsOf(ss, steps, k, id),
          LastOutcome(ss, steps, k, id));
    }
  }

  /** What raises the two counts of the statistics. */
  datatype Cause = Creation | Attempt(success: bool) | End(success: bool)

  ghost predicate IsCause(s: State, steps: seq<Step>, k: nat, c: Cause)
    requires k < |steps|
  {
    match c
    case Creation => steps[k].CreateCount?
    case Attempt(success) => steps[k].WorkerRecord? && OutcomeAt(steps, k, steps[k].w) == success
    case End(success) =>
      && steps[k].WorkerResolve? && Enabled(s, steps[k]) && !Retries(s.workers[steps[k].w])
      && OutcomeAt(steps, k, steps[k].w) == success
  }

  ghost function Times(ss: seq<State>, steps: seq<Step>, k: nat, c: Cause): nat
    requires |ss| == |steps| + 1 && k <= |steps|
  {
    if k == 0 then 0 else Times(ss, steps, k - 1, c) + if IsCause(ss[k - 1], steps, k - 1, c) then 1 else 0
  }

  /**
   * In every run the completed count is that of the tasks created, the attempts recorded as successes and the tasks
   * completed; the failed count that of the attempts recorded as failures and the tasks failed.
   */
  lemma {:induction false} CountsFollowOutcomes(ss: seq<State>, steps: seq<Step>, k: nat)
    requires Run(ss, steps) && k <= |steps|
    ensures ss[k].statCompleted == Times(ss, steps, k, Creation) + Times(ss, steps, k, Attempt(true))
                                   + Times(ss, steps, k, End(true))
    ensures ss[k].statFailed == Times(ss, steps, k, Attempt(false)) + Times(ss, steps, k, End(false))
  {
    if k > 0 {
      CountsFollowOutcomes(ss, steps, k - 1);
      RunKeepsInvariant(ss, steps, k - 1);
      RunHoldsOutcomes(ss, steps, k - 1);
      CountsStep(ss[k - 1], steps, k - 1);
    }
  }

  lemma CountsStep(s: State, steps: seq<Step>, k: nat)
    requires k < |steps| && TokenInv(s) && Enabled(s, steps[k]) && OutcomesHeld(s, steps, k)
    ensures var n := Next(s, steps[k]);
            && n.statCompleted == s.statCompleted + (if IsCause(s, steps, k, Creation) then 1 else 0)
                + (if IsCause(s, steps, k, Attempt(true)) then 1 else 0)
                + (if IsCause(s, steps, k, End(true)) then 1 else 0)
            && n.statFailed == s.statFailed + (if IsCause(s, steps, k, Attempt(false)) then 1 else 0)
                + (if IsCause(s, steps, k, End(false)) then 1 else 0)
  {
    if steps[k].WorkerResolve? {
      WorkerHoldsLiveTask(s, steps[k].w);
    }
  }

  // ----- What the retries leave alone -----

  /** Jobs that differ from those that creations make in more than the retries. */
  ghost function Odd(): Measure {
    (j: Job) => if j.priority == 1 && j.maxRetries == 3 then 0 else 1
  }

  /** In every run each job has the priority and the retry limit of its creation. */
  lemma {:induction false} JobsAreAsCreated(ss: seq<State>, steps: seq<Step>, k: nat)
    requires Run(ss, steps) && k <= |steps|
    ensures Total(Odd(), ss[k]) == 0
  {
    if k == 0 {
      EmptyTotal(Odd(), ss[0]);
    } else {
      JobsAreAsCreated(ss, steps, k - 1);
      JobsConserved(Odd(), ss[k - 1], steps[k - 1]);
      if steps[k - 1].WorkerResolve? {
        HeldJobCounts(Odd(), ss[k - 1], steps[k - 1].w);
      }
    }
  }

  /** The attempts left fall with each resolution and rise with creations only: workers and timers come to rest. */
  lemma AttemptsAreBounded(ss: seq<State>, steps: seq<Step>, k: nat)
    requires Run(ss, steps) && k <= |steps|
    ensures ss[k].attempts <= (MAX_RETRIES + 1) * ss[k].created
    ensures k < |steps| && steps[k].WorkerResolve? ==> Total(AttemptsLeft(), ss[k + 1]) < Total(AttemptsLeft(), ss[k])
    ensures k < |steps| && !steps[k].CreateStore? ==> Total(AttemptsLeft(), ss[k + 1]) <= Total(AttemptsLeft(), ss[k])
  {
    RunKeepsInvariant(ss, steps, k);
    if k < |steps| {
      JobsConserved(AttemptsLeft(), ss[k], steps[k]);
      assert ss[k + 1] == Next(ss[k], steps[k]);
      if steps[k].WorkerResolve? {
        WorkerHoldsLiveTask(ss[k], steps[k].w);
      }
    }
  }

  /** Whenever a worker is about to record a duration, the divisor of the average is positive. */
  lemma AverageNeverDividesByZero(ss: seq<State>, steps: seq<Step>, k: nat, w: nat)
    requires Run(ss, steps) && k <= |steps| && w < |ss[k].workers| && ss[k].workers[w].Done?
    ensures ss[k].statCompleted + ss[k].statFailed > 0
  {
    RunKeepsInvariant(ss, steps, k);
    assert ss[k].workers[w] in ss[k].workers;
  }

  /** The worker the dispatcher picked still has room when the job is sent. */
  lemma PickedWorkerHasRoom(ss: seq<State>, steps: seq<Step>, k: nat)
    requires Run(ss, steps) && k <= |steps| && ss[k].dispatcher.Assigned?
    ensures Enabled(ss[k], DispatchSend) && HasRoom(ss[k].channels[ss[k].dispatcher.worker])
  {
    RunKeepsInvariant(ss, steps, k);
  }

  /** The counts of GetStats; nothing ever raises the number of tasks created. */
  datatype Report = Report(created: nat, completed: nat, failed: nat, active: nat, queueSize: nat)

  /** A report whose counts, tasks and queue were read in these three states. */
  ghost function ReportedFrom(counts: State, tasks: State, queue: State): Report {
    Report(0, counts.statCompleted, counts.statFailed, |tasks.tasks|, |queue.queue|)
  }

  ghost function Reported(s: State): Report {
    ReportedFrom(s, s, s)
  }

  /**
   * What GetStats reports when it reads the counts, then the tasks, then the queue, each under its own lock, in states
   * `i`, `j` and `k` of a run: no created tasks; under completed the creations, the successful attempts and the tasks
   * completed, under failed the failed attempts and the tasks failed, together creations, attempts and ended tasks;
   * the active count exceeds the unfinished tasks by the ended ones not cleaned up yet; the queue size is what was
   * created and requeued and is neither sent nor in the hands of the creator or the dispatcher.
   */
  lemma ReportedStatistics(ss: seq<State>, steps: seq<Step>, i: nat, j: nat, k: nat)
    requires Run(ss, steps) && i <= j <= k <= |steps|
    ensures var r, s, t, u := ReportedFrom(ss[i], ss[j], ss[k]), ss[i], ss[j], ss[k];
            && r.created == 0
            && r.completed == Times(ss, steps, i, Creation) + Times(ss, steps, i, Attempt(true))
                + Times(ss, steps, i, End(true))
            && r.failed == Times(ss, steps, i, Attempt(false)) + Times(ss, steps, i, End(false))
            && r.completed + r.failed + (if s.creator.Stored? || s.creator.Pushed? then 1 else 0)
               == s.created + s.recorded + s.ended
            && r.active == |LiveIds(t.tasks)| + |EndedIds(t.tasks)|
            && r.queueSize + u.sent + (if u.creator.Stored? then 1 else 0) + (if u.dispatcher.Waiting? then 0 else 1)
               == u.created + u.requeued
  {
    RunKeepsInvariant(ss, steps, i);
    RunKeepsInvariant(ss, steps, j);
    RunKeepsInvariant(ss, steps, k);
    CountsFollowOutcomes(ss, steps, i);
    assert ss[j].tasks.Keys == LiveIds(ss[j].tasks) + EndedIds(ss[j].tasks);
    assert LiveIds(ss[j].tasks) !! EndedIds(ss[j].tasks);
  }

  ghost function LiveIds(tasks: map<nat, Task>): set<nat> {
    set id | id in tasks && Live(tasks, id)
  }

  ghost function EndedIds(tasks: map<nat, Task>): set<nat> {
    set id | id in tasks && tasks[id].endTime.Some?
  }

  /** The unread queue size counter equals the reported size, with nothing under way, exactly if no retry was queued. */
  lemma QueueCounterDriftsIff(ss: seq<State>, steps: seq<Step>, k: nat)
    requires Run(ss, steps) && k <= |steps| && MutexFree(ss[k]) && ss[k].dispatcher.Waiting?
    ensures ss[k].queueCounter == Reported(ss[k]).queueSize <==> ss[k].requeued == 0
  {
    RunKeepsInvariant(ss, steps, k);
  }

  /**
   * Task IDs are clock readings. Whatever reading a creation gets in a reachable state, every unfinished task
   * still has exactly one job afterwards exactly if no unfinished task has that reading for an ID.
   */
  lemma CollidingIdIff(ss: seq<State>, steps: seq<Step>, k: nat, id: nat, jobId: nat)
    requires Run(ss, steps) && k <= |steps| && MutexFree(ss[k])
    ensures OneJobEach(StoreTask(ss[k], id, jobId)) <==> !Live(ss[k].tasks, id)
  {
    RunKeepsInvariant(ss, steps, k);
    var s, t := ss[k], StoreTask(ss[k], id, jobId);
    assert forall x :: Total(OfTask(x), t) == Total(OfTask(x), s) + if x == id then 1 else 0;
    assert Total(OfTask(id), s) == if Live(s.tasks, id) then 1 else 0;
    if !Live(s.tasks, id) {
      forall x
        ensures Total(OfTask(x), t) == if Live(t.tasks, x) then 1 else 0
      {
        assert Total(OfTask(x), s) == if Live(s.tasks, x) then 1 else 0;
      }
    }
  }
}

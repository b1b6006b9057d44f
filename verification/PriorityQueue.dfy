/** The job queue of the task manager. */
module PriorityQueues {
  import opened Text

  datatype Job = Job(id: nat, taskId: nat, priority: int, retryCount: nat, maxRetries: nat)

  /** Higher priorities first. */
  ghost predicate Sorted(q: seq<Job>) {
    forall i, j | 0 <= i < j < |q| :: q[i].priority >= q[j].priority
  }

  /** How many jobs at the front have at least priority `p`. */
  function Place(q: seq<Job>, p: int): (k: nat)
    ensures k <= |q|
    ensures forall i | 0 <= i < k :: q[i].priority >= p
    ensures k < |q| ==> q[k].priority < p
  {
    if q == [] || q[0].priority < p then 0 else 1 + Place(q[1..], p)
  }

  /** `job` behind every job of at least its priority, ahead of all others. */
  function Inserted(q: seq<Job>, job: Job): seq<Job> {
    Spliced(q, job, Place(q, job.priority))
  }

  function Spliced(q: seq<Job>, job: Job, k: nat): (r: seq<Job>)
    requires k <= |q|
    ensures |r| == |q| + 1 && r[k] == job
  {
    q[..k] + [job] + q[k..]
  }

  lemma SwapForward(q: seq<Job>, job: Job, i: nat)
    requires 0 < i <= |q|
    ensures var s := Spliced(q, job, i);
            s[i - 1] == q[i - 1] && s[i := s[i - 1]][i - 1 := s[i]] == Spliced(q, job, i - 1)
  {
  }

  class PriorityQueue {
    var jobs: seq<Job>

    ghost predicate Valid()
      reads this
    {
      Sorted(jobs)
    }

    constructor ()
      ensures Valid() && jobs == []
    {
      jobs := [];
    }

    /** One pass of swaps from the back. */
    method Push(job: Job)
      requires Valid()
      modifies this
      ensures Valid() && jobs == Inserted(old(jobs), job)
    {
      ghost var q, k := jobs, Place(jobs, job.priority);
      jobs := jobs + [job];
      var i := |jobs| - 1;
      while i > 0
        invariant 0 <= i <= |q|
        invariant jobs == Spliced(q, job, if i > k then i else k)
      {
        if i > k {
          SwapForward(q, job, i);
        } else {
          InsertedKeepsSortedPermutation(q, job);
          assert Inserted(q, job)[i - 1].priority >= Inserted(q, job)[i].priority;
        }
        if jobs[i].priority > jobs[i - 1].priority {
          jobs := jobs[i := jobs[i - 1]][i - 1 := jobs[i]];
        }
        i := i - 1;
      }
    }

    method Pop() returns (job: Option<Job>)
      requires Valid()
      modifies this
      ensures Valid()
      ensures old(jobs) == [] ==> job == None && jobs == []
      ensures old(jobs) != [] ==> job == Some(old(jobs)[0]) && jobs == old(jobs)[1..]
    {
      if jobs == [] {
        return None;
      }
      job := Some(jobs[0]);
      jobs := jobs[1..];
    }

    method Size() returns (n: nat)
      ensures n == |jobs|
    {
      n := |jobs|;
    }
  }

  lemma InsertedKeepsSortedPermutation(q: seq<Job>, job: Job)
    requires Sorted(q)
    ensures Sorted(Inserted(q, job))
    ensures multiset(Inserted(q, job)) == multiset(q) + multiset{job}
  {
    var k := Place(q, job.priority);
    var r := Inserted(q, job);
    SplicedPermutes(q, job, k);
    forall i, j | 0 <= i < j < |r|
      ensures r[i].priority >= r[j].priority
    {
      SplicedAt(q, job, k, i);
      SplicedAt(q, job, k, j);
    }
  }

  lemma SplicedPermutes(q: seq<Job>, job: Job, k: nat)
    requires k <= |q|
    ensures multiset(Spliced(q, job, k)) == multiset(q) + multiset{job}
  {
    assert q == q[..k] + q[k..];
  }

  lemma SplicedAt(q: seq<Job>, job: Job, k: nat, i: nat)
    requires k <= |q| && i <= |q|
    ensures Spliced(q, job, k)[i] == if i < k then q[i] else if i == k then job else q[i - 1]
  {
  }

  /** A job put back after a pop moves behind the jobs of its own priority and no further. */
  lemma PutBackStaysAmongEquals(q: seq<Job>) returns (e: nat)
    requires Sorted(q) && q != []
    ensures 1 <= e <= |q| && Inserted(q[1..], q[0]) == q[1..e] + [q[0]] + q[e..]
    ensures forall i | 0 <= i < |q| :: q[i].priority == q[0].priority <==> i < e
  {
    e := 1 + Place(q[1..], q[0].priority);
    assert forall i | 1 <= i < |q| :: q[i] == q[1..][i - 1];
    assert q[1..][..e - 1] == q[1..e] && q[1..][e - 1..] == q[e..];
  }

  // ----- Refinement of a stable priority queue -----

  /** In arrival order: the earliest job of the highest priority. */
  function Best(bag: seq<Job>): (i: nat)
    requires bag != []
    ensures i < |bag|
    ensures forall j | 0 <= j < |bag| :: bag[j].priority <= bag[i].priority
    ensures forall j | 0 <= j < i :: bag[j].priority < bag[i].priority
  {
    var last := |bag| - 1;
    if last == 0 then 0
    else
      var i := Best(bag[..last]);
      if bag[last].priority > bag[i].priority then last else i
  }

  function Without(bag: seq<Job>, i: nat): seq<Job>
    requires i < |bag|
  {
    bag[..i] + bag[i + 1..]
  }

  /** The queue that holds the bag. */
  function QueueOf(bag: seq<Job>): seq<Job> {
    if bag == [] then [] else Inserted(QueueOf(bag[..|bag| - 1]), bag[|bag| - 1])
  }

  lemma {:induction false} QueueOfServesBest(bag: seq<Job>)
    requires bag != []
    ensures QueueOf(bag) != [] && QueueOf(bag)[0] == bag[Best(bag)]
    ensures QueueOf(bag)[1..] == QueueOf(Without(bag, Best(bag)))
  {
    var last := |bag| - 1;
    var front, job := bag[..last], bag[last];
    assert bag == front + [job];
    if last > 0 {
      QueueOfServesBest(front);
      assert Best(bag) == if job.priority > front[Best(front)].priority then last else Best(front);
      if job.priority > front[Best(front)].priority {
        ArrivalOfBest(front, job);
      } else {
        ArrivalBehindBest(front, job, Best(front));
      }
    }
  }

  lemma QueueOfArrival(bag: seq<Job>, job: Job)
    ensures QueueOf(bag + [job]) == Inserted(QueueOf(bag), job)
  {
    assert (bag + [job])[..|bag|] == bag;
  }

  lemma WithoutBeforeArrival(front: seq<Job>, job: Job, i: nat)
    requires i <= |front|
    ensures Without(front + [job], i) == if i < |front| then Without(front, i) + [job] else front
  {
  }

  lemma ArrivalOfBest(front: seq<Job>, job: Job)
    requires QueueOf(front) != [] && job.priority > QueueOf(front)[0].priority
    ensures QueueOf(front + [job]) == [job] + QueueOf(front)
    ensures Without(front + [job], |front|) == front
  {
    QueueOfArrival(front, job);
  }

  lemma ArrivalBehindBest(front: seq<Job>, job: Job, best: nat)
    requires best < |front| && job.priority <= front[best].priority
    requires QueueOf(front) != [] && QueueOf(front)[0] == front[best]
    requires QueueOf(front)[1..] == QueueOf(Without(front, best))
    ensures QueueOf(front + [job]) == [front[best]] + QueueOf(Without(front + [job], best))
  {
    QueueOfArrival(front, job);
    QueueOfArrival(Without(front, best), job);
    WithoutBeforeArrival(front, job, best);
    InsertBehindHead(QueueOf(front), job);
  }

  lemma InsertBehindHead(q: seq<Job>, job: Job)
    requires q != [] && job.priority <= q[0].priority
    ensures Inserted(q, job) == [q[0]] + Inserted(q[1..], job)
  {
    var k := Place(q[1..], job.priority);
    assert q == [q[0]] + q[1..] && Place(q, job.priority) == k + 1;
    assert q[..k + 1] == [q[0]] + q[1..][..k] && q[k + 1..] == q[1..][k..];
  }

  datatype Op = Push(job: Job) | Pop

  /** What a run of operations hands out, on the queue and on the bag of arrivals. */
  function QueueRun(q: seq<Job>, ops: seq<Op>): seq<Option<Job>>
    decreases |ops|
  {
    if ops == [] then []
    else match ops[0]
      case Push(job) => QueueRun(Inserted(q, job), ops[1..])
      case Pop => if q == [] then [None] + QueueRun(q, ops[1..]) else [Some(q[0])] + QueueRun(q[1..], ops[1..])
  }

  function BagRun(bag: seq<Job>, ops: seq<Op>): seq<Option<Job>>
    decreases |ops|
  {
    if ops == [] then []
    else match ops[0]
      case Push(job) => BagRun(bag + [job], ops[1..])
      case Pop =>
        if bag == [] then [None] + BagRun(bag, ops[1..])
        else [Some(bag[Best(bag)])] + BagRun(Without(bag, Best(bag)), ops[1..])
  }

  /** Every run of pushes and pops hands out what a stable priority queue would. */
  lemma {:induction false} QueueRefinesStablePriority(bag: seq<Job>, ops: seq<Op>)
    ensures QueueRun(QueueOf(bag), ops) == BagRun(bag, ops)
    decreases |ops|
  {
    if ops != [] {
      match ops[0]
      case Push(job) =>
        assert (bag + [job])[..|bag|] == bag;
        QueueRefinesStablePriority(bag + [job], ops[1..]);
      case Pop =>
        if bag == [] {
          QueueRefinesStablePriority(bag, ops[1..]);
        } else {
          QueueOfServesBest(bag);
          QueueRefinesStablePriority(Without(bag, Best(bag)), ops[1..]);
        }
    }
  }
}

/**
 * drainTasks on one thread, as the loop it is: tasks that yield and spawn finitely often.
 * The order of execution is specified by a function of the queue and proved fair.
 */
module DrainLoop {

  /** What a task does: each entry spawns some tasks, then the task yields or finishes. */
  datatype Body = Finish(spawns: Bodies) | Yield(spawns: Bodies, rest: Body)

  datatype Bodies = None | Some(head: Body, tail: Bodies)

  /** An entry of the queue: which task, what is left of it, and whether it was aborted. */
  datatype Job = Job(id: nat, body: Body, aborted: bool)

  datatype Status = INACTIVE | CREATED | ACTIVE | PENDING | FINISHED | ABORTED

  /** Yields + 1. */
  function Visits(body: Body): nat {
    match body
    case Finish(_) => 1
    case Yield(_, rest) => 1 + Visits(rest)
  }

  /** Entries of a task and of everything it spawns, directly or not. */
  function Work(body: Body): nat {
    match body
    case Finish(spawns) => 1 + WorkOfAll(spawns)
    case Yield(spawns, rest) => 1 + WorkOfAll(spawns) + Work(rest)
  }

  function WorkOfAll(bodies: Bodies): nat {
    match bodies
    case None => 0
    case Some(head, tail) => Work(head) + WorkOfAll(tail)
  }

  function WorkOf(job: Job): nat {
    if job.aborted then 1 else Work(job.body)
  }

  function TotalWork(jobs: seq<Job>): nat {
    if jobs == [] then 0 else WorkOf(jobs[0]) + TotalWork(jobs[1..])
  }

  function Count(bodies: Bodies): nat {
    if bodies.None? then 0 else 1 + Count(bodies.tail)
  }

  /** The jobs of freshly spawned tasks, numbered from `id`. */
  function Numbered(bodies: Bodies, id: nat): seq<Job> {
    if bodies.None? then [] else [Job(id, bodies.head, false)] + Numbered(bodies.tail, id + 1)
  }

  lemma {:induction false} NumberedJobs(bodies: Bodies, id: nat)
    ensures |Numbered(bodies, id)| == Count(bodies) && TotalWork(Numbered(bodies, id)) == WorkOfAll(bodies)
    ensures forall i :: 0 <= i < Count(bodies) ==> Numbered(bodies, id)[i].id == id + i && !Numbered(bodies, id)[i].aborted
  {
    if bodies.Some? {
      NumberedJobs(bodies.tail, id + 1);
      assert Numbered(bodies, id)[1..] == Numbered(bodies.tail, id + 1);
    }
  }

  lemma FirstOfNumbered(jobs: seq<Job>, bodies: Bodies, id: nat)
    requires bodies.Some?
    ensures jobs + Numbered(bodies, id) == jobs + [Job(id, bodies.head, false)] + Numbered(bodies.tail, id + 1)
  {
  }

  function Spawned(job: Job): Bodies {
    if job.aborted then None else job.body.spawns
  }

  /** What popping and running the first job leaves in the queue. */
  function NextQueue(jobs: seq<Job>, id: nat): seq<Job>
    requires jobs != []
  {
    var job := jobs[0];
    jobs[1..] + Numbered(Spawned(job), id)
    + (if !job.aborted && job.body.Yield? then [Job(job.id, job.body.rest, false)] else [])
  }

  lemma {:induction false} WorkSplits(a: seq<Job>, b: seq<Job>)
    ensures TotalWork(a + b) == TotalWork(a) + TotalWork(b)
  {
    if a == [] {
      assert a + b == b;
    } else {
      assert (a + b)[1..] == a[1..] + b;
      WorkSplits(a[1..], b);
    }
  }

  /** One pop uses up one unit of work. */
  lemma WorkDecreases(jobs: seq<Job>, id: nat)
    requires jobs != []
    ensures TotalWork(NextQueue(jobs, id)) == TotalWork(jobs) - 1
  {
    var job := jobs[0];
    var spawned := Numbered(Spawned(job), id);
    var again := if !job.aborted && job.body.Yield? then [Job(job.id, job.body.rest, false)] else [];
    NumberedJobs(Spawned(job), id);
    WorkSplits(jobs[1..] + spawned, again);
    WorkSplits(jobs[1..], spawned);
  }

  /** The jobs in the order in which they are popped. */
  ghost function Trace(jobs: seq<Job>, id: nat): seq<Job>
    decreases TotalWork(jobs)
  {
    if jobs == [] then []
    else
      WorkDecreases(jobs, id);
      [jobs[0]] + Trace(NextQueue(jobs, id), id + Count(Spawned(jobs[0])))
  }

  lemma TraceStep(popped: seq<Job>, jobs: seq<Job>, id: nat)
    requires jobs != []
    ensures TotalWork(NextQueue(jobs, id)) == TotalWork(jobs) - 1
    ensures popped + Trace(jobs, id) == popped + [jobs[0]] + Trace(NextQueue(jobs, id), id + Count(Spawned(jobs[0])))
  {
    WorkDecreases(jobs, id);
  }

  lemma {:induction false} TraceLength(jobs: seq<Job>, id: nat)
    ensures |Trace(jobs, id)| == TotalWork(jobs)
    decreases TotalWork(jobs)
  {
    if jobs != [] {
      WorkDecreases(jobs, id);
      TraceLength(NextQueue(jobs, id), id + Count(Spawned(jobs[0])));
    }
  }

  /** Whatever is queued is popped next, in order, before anything that is queued later. */
  lemma {:induction false} QueuedFirst(jobs: seq<Job>, id: nat, k: nat)
    requires k < |jobs|
    ensures k < |Trace(jobs, id)| && Trace(jobs, id)[k] == jobs[k]
    decreases k
  {
    if k > 0 {
      QueuedFirst(NextQueue(jobs, id), id + Count(Spawned(jobs[0])), k - 1);
    }
  }

  /** The queue, and the next free id, just before the k-th pop. */
  ghost function QueueAt(jobs: seq<Job>, id: nat, k: nat): (seq<Job>, nat)
    decreases k
  {
    if k == 0 || jobs == [] then (jobs, id)
    else QueueAt(NextQueue(jobs, id), id + Count(Spawned(jobs[0])), k - 1)
  }

  lemma {:induction false} TraceFrom(jobs: seq<Job>, id: nat, k: nat)
    requires k <= |Trace(jobs, id)|
    ensures var (later, id') := QueueAt(jobs, id, k); Trace(jobs, id)[k..] == Trace(later, id')
    decreases k
  {
    if k == 0 {
      assert Trace(jobs, id)[0..] == Trace(jobs, id);
    } else {
      var rest := Trace(NextQueue(jobs, id), id + Count(Spawned(jobs[0])));
      TraceFrom(NextQueue(jobs, id), id + Count(Spawned(jobs[0])), k - 1);
      assert Trace(jobs, id) == [jobs[0]] + rest && ([jobs[0]] + rest)[k..] == rest[k - 1..];
    }
  }

  lemma {:induction false} QueueStep(jobs: seq<Job>, id: nat, k: nat)
    requires k < |Trace(jobs, id)|
    ensures var (now, id') := QueueAt(jobs, id, k);
            now != [] && now[0] == Trace(jobs, id)[k]
            && QueueAt(jobs, id, k + 1) == (NextQueue(now, id'), id' + Count(Spawned(now[0])))
    decreases k
  {
    if k > 0 {
      QueueStep(NextQueue(jobs, id), id + Count(Spawned(jobs[0])), k - 1);
    }
  }

  ghost predicate DistinctIds(jobs: seq<Job>, id: nat) {
    && (forall i :: 0 <= i < |jobs| ==> jobs[i].id < id)
    && (forall i, j :: 0 <= i < j < |jobs| ==> jobs[i].id != jobs[j].id)
  }

  lemma NextIdsDistinct(jobs: seq<Job>, id: nat)
    requires DistinctIds(jobs, id) && jobs != []
    ensures DistinctIds(NextQueue(jobs, id), id + Count(Spawned(jobs[0])))
  {
    NumberedJobs(Spawned(jobs[0]), id);
  }

  lemma {:induction false} IdsStayDistinct(jobs: seq<Job>, id: nat, k: nat)
    requires DistinctIds(jobs, id)
    ensures var (later, id') := QueueAt(jobs, id, k); DistinctIds(later, id')
    decreases k
  {
    if k > 0 && jobs != [] {
      NextIdsDistinct(jobs, id);
      IdsStayDistinct(NextQueue(jobs, id), id + Count(Spawned(jobs[0])), k - 1);
    }
  }

  /** From the k-th pop on, the queue of that moment is popped first. */
  lemma QueueIsPoppedNext(jobs: seq<Job>, id: nat, k: nat)
    requires k <= |Trace(jobs, id)|
    ensures var now := QueueAt(jobs, id, k).0; var trace := Trace(jobs, id);
            k + |now| <= |trace| && trace[k..k + |now|] == now
  {
    var trace := Trace(jobs, id);
    var (now, id') := QueueAt(jobs, id, k);
    TraceFrom(jobs, id, k);
    if now != [] {
      QueuedFirst(now, id', |now| - 1);
    }
    forall i | 0 <= i < |now|
      ensures i < |trace[k..]| && trace[k..][i] == now[i]
    {
      QueuedFirst(now, id', i);
    }
  }

  /**
   * FIFO fairness: after a pop whose task yields, every other queued task and every task just
   * spawned is popped exactly once, in queue order, and then that task is popped again with the
   * rest of its body.
   */
  lemma FairBetweenEntries(jobs: seq<Job>, id: nat, k: nat)
    requires DistinctIds(jobs, id) && k < |Trace(jobs, id)|
    requires !Trace(jobs, id)[k].aborted && Trace(jobs, id)[k].body.Yield?
    ensures var trace := Trace(jobs, id); var job := trace[k]; var (now, id') := QueueAt(jobs, id, k);
            && now != [] && now[0] == job
            && (var round := now[1..] + Numbered(job.body.spawns, id') + [Job(job.id, job.body.rest, false)];
                && k + 1 + |round| <= |trace| && trace[k + 1..k + 1 + |round|] == round
                && forall i, j :: 0 <= i < j < |round| ==> round[i].id != round[j].id)
  {
    QueueStep(jobs, id, k);
    QueueIsPoppedNext(jobs, id, k + 1);
    IdsStayDistinct(jobs, id, k + 1);
  }

  /** How often task `id` is popped. */
  ghost function Pops(trace: seq<Job>, id: nat): nat {
    if trace == [] then 0 else (if trace[0].id == id then 1 else 0) + Pops(trace[1..], id)
  }

  /** How often the queue promises to pop task `id`. */
  ghost function Promised(jobs: seq<Job>, id: nat): nat {
    if jobs == [] then 0
    else (if jobs[0].id != id then 0 else if jobs[0].aborted then 1 else Visits(jobs[0].body)) + Promised(jobs[1..], id)
  }

  lemma {:induction false} PromisedSplits(a: seq<Job>, b: seq<Job>, id: nat)
    ensures Promised(a + b, id) == Promised(a, id) + Promised(b, id)
  {
    if a == [] {
      assert a + b == b;
    } else {
      assert (a + b)[1..] == a[1..] + b;
      PromisedSplits(a[1..], b, id);
    }
  }

  lemma {:induction false} NewIdsUnpromised(bodies: Bodies, from: nat, id: nat)
    requires id < from
    ensures Promised(Numbered(bodies, from), id) == 0
  {
    if bodies.Some? {
      NewIdsUnpromised(bodies.tail, from + 1, id);
    }
  }

  /** One pop keeps one promise. */
  lemma OnePromiseKept(jobs: seq<Job>, next: nat, id: nat)
    requires jobs != [] && id < next
    ensures Promised(jobs, id) == Promised(NextQueue(jobs, next), id) + if jobs[0].id == id then 1 else 0
  {
    var job := jobs[0];
    var spawned := Numbered(Spawned(job), next);
    var again := if !job.aborted && job.body.Yield? then [Job(job.id, job.body.rest, false)] else [];
    PromisedSplits(jobs[1..] + spawned, again, id);
    PromisedSplits(jobs[1..], spawned, id);
    NewIdsUnpromised(Spawned(job), next, id);
  }

  /** Every task in the queue at any time is popped exactly as often as it has segments left. */
  lemma {:induction false} EachEnteredExactly(jobs: seq<Job>, next: nat, id: nat)
    requires id < next
    ensures Pops(Trace(jobs, next), id) == Promised(jobs, id)
    decreases TotalWork(jobs)
  {
    if jobs != [] {
      var next' := next + Count(Spawned(jobs[0]));
      WorkDecreases(jobs, next);
      OnePromiseKept(jobs, next, id);
      EachEnteredExactly(NextQueue(jobs, next), next', id);
      var rest := Trace(NextQueue(jobs, next), next');
      assert Trace(jobs, next) == [jobs[0]] + rest && ([jobs[0]] + rest)[1..] == rest;
    }
  }

  class Task {
    const id: nat
    const plan: Body
    var body: Body
    var status: Status
    var entries: nat
    var completions: nat

    constructor (id: nat, plan: Body)
      ensures this.id == id && this.plan == plan && body == plan
      ensures status == INACTIVE && entries == 0 && completions == 0
    {
      this.id, this.plan, body := id, plan, plan;
      status, entries, completions := INACTIVE, 0, 0;
    }

    function AsJob(): Job
      reads this
    {
      Job(id, body, status.ABORTED?)
    }

    /** In the queue: what was entered and what is left make up the plan. */
    predicate Queued()
      reads this
    {
      && (status.INACTIVE? || status.PENDING? || status.ABORTED?) && completions == 0
      && entries + Visits(body) == Visits(plan)
    }

    predicate Done()
      reads this
    {
      status.FINISHED? && entries == Visits(plan) && completions == 1
    }

    method Create()
      modifies this`status
      ensures status == CREATED
    {
      status := CREATED;
    }

    method Exit()
      modifies this`completions
      ensures completions == old(completions) + 1
    {
      completions := completions + 1;
    }
  }

  /** No task was aborted since, and aborted tasks are as they were: not entered, and without completion handlers. */
  twostate predicate AbortedStay(before: set<Task>, new now: set<Task>)
    reads before, now
  {
    && (forall t :: t in now && t.status.ABORTED? ==> t in before)
    && forall t :: t in before ==>
         && t.status.ABORTED? == old(t.status).ABORTED?
         && (t.status.ABORTED? ==> t.entries == old(t.entries) && t.completions == old(t.completions))
  }

  /** Every task is in the queue, in the slot or freed, and the queue is what its jobs say. */
  ghost predicate InOnePlace(queue: seq<Task>, jobs: seq<Job>, nextId: nat, tasks: set<Task>, freed: set<Task>, current: Task?)
    reads tasks
  {
    && |queue| == |jobs|
    && (forall i :: 0 <= i < |queue| ==> queue[i] in tasks && queue[i].Queued() && queue[i].AsJob() == jobs[i])
    && (forall i, j :: 0 <= i < j < |queue| ==> queue[i] != queue[j])
    && DistinctIds(jobs, nextId)
    && (forall t :: t in tasks ==> t in queue || t in freed || t == current)
    && (forall t :: t in freed ==> t in tasks && t !in queue && t != current && (t.Done() || t.status.ABORTED?))
    && (forall t :: t in tasks && t.status.ABORTED? ==> t.completions == 0)
    && (current != null ==> current in tasks && current !in queue)
  }

  lemma TakeKeepsConsistent(queue: seq<Task>, jobs: seq<Job>, nextId: nat, tasks: set<Task>, freed: set<Task>, current: Task?)
    requires InOnePlace(queue, jobs, nextId, tasks, freed, current) && queue != []
    requires current != null ==> current.status.ABORTED?
    ensures InOnePlace(queue[1..], jobs[1..], nextId, tasks,
                       freed + (if current == null then {} else {current}), queue[0])
  {
    forall t | t in tasks && t in queue && t != queue[0]
      ensures t in queue[1..]
    {
      var i :| 0 <= i < |queue| && queue[i] == t;
      assert queue[1..][i - 1] == t;
    }
    assert forall t :: t in queue[1..] ==> t in queue;
  }

  lemma NewTaskKeepsConsistent(queue: seq<Task>, jobs: seq<Job>, nextId: nat, tasks: set<Task>, freed: set<Task>,
                               current: Task?, task: Task)
    requires InOnePlace(queue, jobs, nextId, tasks, freed, current)
    requires task !in tasks && task.Queued() && task.id == nextId
    ensures InOnePlace(queue + [task], jobs + [task.AsJob()], nextId + 1, tasks + {task}, freed, current)
  {
    assert forall t :: t in queue ==> t in queue + [task];
  }

  lemma NothingQueued(jobs: seq<Job>, nextId: nat, tasks: set<Task>, freed: set<Task>, current: Task?)
    requires InOnePlace([], jobs, nextId, tasks, freed, current)
    requires current != null ==> current.status.ABORTED?
    ensures jobs == [] && Trace(jobs, nextId) == [] && TotalWork(jobs) == 0
    ensures forall t :: t in tasks ==>
              (t in freed && t.Done()) || (t.status.ABORTED? && t.completions == 0 && (t in freed || t == current))
  {
  }

  class Scheduler {
    var queue: seq<Task>
    var current: Task?
    var taskCount: int
    var activeCount: int
    var paused: bool
    var nextId: nat
    ghost var jobs: seq<Job>
    ghost var tasks: set<Task>
    ghost var freed: set<Task>
    ghost var popped: seq<Job>

    /** Holds inside drainTasks too, while `current` is being run. */
    ghost predicate Consistent()
      reads this, tasks
    {
      taskCount == |queue| && InOnePlace(queue, jobs, nextId, tasks, freed, current)
    }

    /** Between calls the slot is empty or holds an aborted task. */
    ghost predicate Valid()
      reads this, tasks
    {
      Consistent() && (current != null ==> current.status.ABORTED?)
    }

    constructor ()
      ensures Valid() && queue == [] && tasks == {} && !paused && activeCount == 0 && popped == []
    {
      queue, current, taskCount, activeCount, paused, nextId := [], null, 0, 0, false, 0;
      jobs, tasks, freed, popped := [], {}, {}, [];
    }

    /** scheduleTask and scheduleCoroutine: a new task goes to the end of the queue. */
    method Schedule(body: Body)
      requires Consistent()
      modifies this`queue, this`taskCount, this`nextId, this`jobs, this`tasks
      ensures Consistent() && nextId == old(nextId) + 1
      ensures jobs == old(jobs) + [Job(old(nextId), body, false)]
      ensures old(tasks) <= tasks && fresh(tasks - old(tasks))
      ensures forall t :: t in tasks && t !in old(tasks) ==> t.status.INACTIVE?
    {
      var task := new Task(nextId, body);
      NewTaskKeepsConsistent(queue, jobs, nextId, tasks, freed, current, task);
      nextId := nextId + 1;
      taskCount := taskCount + 1;
      queue := queue + [task];
      jobs := jobs + [task.AsJob()];
      tasks := tasks + {task};
    }

    /** What a handler does before it yields or returns. */
    method Spawn(bodies: Bodies)
      requires Consistent()
      modifies this`queue, this`taskCount, this`nextId, this`jobs, this`tasks
      ensures Consistent() && nextId == old(nextId) + Count(bodies)
      ensures jobs == old(jobs) + Numbered(bodies, old(nextId))
      ensures old(tasks) <= tasks && fresh(tasks - old(tasks))
      ensures forall t :: t in tasks && t !in old(tasks) ==> t.status.INACTIVE?
    {
      var rest := bodies;
      ghost var goal, last := jobs + Numbered(bodies, nextId), nextId + Count(bodies);
      while rest.Some?
        invariant Consistent() && nextId + Count(rest) == last
        invariant jobs + Numbered(rest, nextId) == goal
        invariant old(tasks) <= tasks && fresh(tasks - old(tasks))
        invariant forall t :: t in tasks && t !in old(tasks) ==> t.status.INACTIVE?
        decreases rest
      {
        FirstOfNumbered(jobs, rest, nextId);
        Schedule(rest.head);
        rest := rest.tail;
      }
    }

    /** Task::enter and CoroutineTask::enter: the handler runs up to its next yield or its end. */
    method Enter()
      requires Consistent() && current != null
      requires (current.status.CREATED? || current.status.PENDING?) && current !in freed
      requires current.completions == 0 && current.entries + Visits(current.body) == Visits(current.plan)
      modifies this`queue, this`taskCount, this`nextId, this`jobs, this`tasks, current
      ensures Consistent() && nextId == old(nextId) + Count(old(current.body).spawns)
      ensures jobs == old(jobs) + Numbered(old(current.body).spawns, old(nextId))
      ensures old(tasks) <= tasks && fresh(tasks - old(tasks))
      ensures forall t :: t in tasks && t !in old(tasks) ==> t.status.INACTIVE?
      ensures current.completions == 0 && current.entries == old(current.entries) + 1
      ensures if old(current.body).Yield? then
                current.status.PENDING? && current.body == old(current.body).rest
              else
                current.status.FINISHED? && current.entries == Visits(current.plan)
    {
      current.status := ACTIVE;
      current.entries := current.entries + 1;
      Spawn(current.body.spawns);
      if current.body.Yield? {
        current.body := current.body.rest;
        current.status := PENDING;
      } else {
        current.status := FINISHED;
      }
    }

    /** Pop a task and put it in the slot; an aborted task parked there is deleted. */
    method Take()
      requires Valid() && queue != []
      modifies this`queue, this`current, this`taskCount, this`activeCount, this`jobs, this`freed, this`popped
      ensures Consistent() && current == old(queue[0]) && current !in freed
      ensures current.Queued() && current.AsJob() == old(jobs[0])
      ensures jobs == old(jobs[1..]) && popped == old(popped) + [old(jobs[0])]
      ensures activeCount == old(activeCount) + 1
      ensures freed == old(freed) + (if old(current) == null then {} else {old(current)})
    {
      TakeKeepsConsistent(queue, jobs, nextId, tasks, freed, current);
      var task := queue[0];
      queue := queue[1..];
      activeCount := activeCount + 1;
      taskCount := taskCount - 1;
      if current != null {
        freed := freed + {current};
      }
      current := task;
      popped := popped + [jobs[0]];
      jobs := jobs[1..];
    }

    /** The task yielded: it goes back to the end of the queue. */
    method Requeue()
      requires Consistent() && current != null && current !in freed && current.Queued() && current.status.PENDING?
      requires DistinctIds(jobs + [current.AsJob()], nextId)
      modifies this`queue, this`current, this`taskCount, this`jobs
      ensures Valid() && current == null && jobs == old(jobs + [current.AsJob()])
    {
      queue := queue + [current];
      jobs := jobs + [current.AsJob()];
      taskCount := taskCount + 1;
      current := null;
    }

    /** The task is over: completion handlers, then delete. */
    method Complete()
      requires Consistent() && current != null && current !in freed
      requires current.status.FINISHED? && current.entries == Visits(current.plan) && current.completions == 0
      modifies this`current, this`freed, current`completions
      ensures Valid() && current == null && freed == old(freed) + {old(current)}
    {
      var task := current;
      current := null;
      task.Exit();
      freed := freed + {task};
    }

    /** The tests of the loop's body that create and enter the task in the slot. */
    method CreateAndEnter()
      requires Consistent() && current != null && current !in freed && current.Queued() && !current.status.ABORTED?
      modifies this`queue, this`taskCount, this`nextId, this`jobs, this`tasks, current
      ensures Consistent() && nextId == old(nextId) + Count(old(current.body).spawns)
      ensures jobs == old(jobs) + Numbered(old(current.body).spawns, old(nextId))
      ensures old(tasks) <= tasks && fresh(tasks - old(tasks))
      ensures forall t :: t in tasks && t !in old(tasks) ==> t.status.INACTIVE?
      ensures current.completions == 0
      ensures if old(current.body).Yield? then
                current.status.PENDING? && current.body == old(current.body).rest && current.Queued()
              else
                current.status.FINISHED? && current.entries == Visits(current.plan)
    {
      if current.status.INACTIVE? {
        current.Create();
      }
      if current.status.CREATED? || current.status.PENDING? {
        Enter();
      }
    }

    /** Create and enter the task in the slot, then put it back or delete it. */
    method RunCurrent(ghost job: Job)
      requires Consistent() && current != null && current !in freed
      requires current.Queued() && current.AsJob() == job && !job.aborted
      requires DistinctIds(jobs + Numbered(job.body.spawns, nextId)
                           + (if job.body.Yield? then [Job(job.id, job.body.rest, false)] else []),
                           nextId + Count(job.body.spawns))
      modifies this`queue, this`current, this`taskCount, this`nextId, this`jobs, this`tasks, this`freed, current
      ensures Valid() && nextId == old(nextId) + Count(job.body.spawns)
      ensures jobs == old(jobs) + Numbered(job.body.spawns, old(nextId))
                      + (if job.body.Yield? then [Job(job.id, job.body.rest, false)] else [])
      ensures old(tasks) <= tasks && fresh(tasks - old(tasks)) && old(freed) <= freed
      ensures AbortedStay(old(tasks), tasks)
    {
      CreateAndEnter();
      if current.status.PENDING? {
        Requeue();
      } else {
        Complete();
      }
    }

    /** One round of the loop on the first task of the queue. */
    method RunFirst()
      requires Valid() && queue != []
      modifies this`queue, this`current, this`taskCount, this`activeCount, this`nextId,
               this`jobs, this`tasks, this`freed, this`popped, tasks
      ensures Valid() && jobs == NextQueue(old(jobs), old(nextId))
      ensures nextId == old(nextId) + Count(Spawned(old(jobs[0])))
      ensures popped == old(popped) + [old(jobs[0])]
      ensures activeCount == old(activeCount)
      ensures old(tasks) <= tasks && fresh(tasks - old(tasks)) && old(freed) <= freed
      ensures AbortedStay(old(tasks), tasks)
    {
      ghost var job := jobs[0];
      NextIdsDistinct(jobs, nextId);
      Take();
      if !current.status.ABORTED? {
        RunCurrent(job);
      }
      activeCount := activeCount - 1;
    }

    /** RunFirst, seen from the whole run. */
    method RunNext(ghost goal: seq<Job>)
      requires Valid() && queue != [] && popped + Trace(jobs, nextId) == goal
      modifies this`queue, this`current, this`taskCount, this`activeCount, this`nextId,
               this`jobs, this`tasks, this`freed, this`popped, tasks
      ensures Valid() && activeCount == old(activeCount)
      ensures popped + Trace(jobs, nextId) == goal && TotalWork(jobs) == TotalWork(old(jobs)) - 1
      ensures old(tasks) <= tasks && fresh(tasks - old(tasks)) && old(freed) <= freed
      ensures AbortedStay(old(tasks), tasks)
    {
      TraceStep(popped, jobs, nextId);
      RunFirst();
    }

    /** The loop of drainTasks, whatever its tasks spawn. */
    method DrainQueue() returns (processed: nat)
      requires Valid() && !paused
      modifies this`queue, this`current, this`taskCount, this`activeCount, this`nextId,
               this`jobs, this`tasks, this`freed, this`popped, tasks
      ensures Valid() && activeCount == old(activeCount) && queue == []
      ensures popped + Trace(jobs, nextId) == old(popped) + Trace(old(jobs), old(nextId))
      ensures processed + TotalWork(jobs) == TotalWork(old(jobs))
      ensures old(tasks) <= tasks && old(freed) <= freed
      ensures AbortedStay(old(tasks), tasks)
    {
      processed := 0;
      ghost var goal, work := popped + Trace(jobs, nextId), TotalWork(jobs);
      while queue != []
        invariant Valid() && !paused && activeCount == old(activeCount)
        invariant popped + Trace(jobs, nextId) == goal && processed + TotalWork(jobs) == work
        invariant old(tasks) <= tasks && fresh(tasks - old(tasks)) && old(freed) <= freed
        invariant AbortedStay(old(tasks), tasks)
        decreases TotalWork(jobs)
      {
        RunNext(goal);
        processed := processed + 1;
        if paused {
          break;
        }
      }
    }

    /** Returns the number of pops; unless paused it empties the queue. */
    method DrainTasks() returns (processed: nat)
      requires Valid()
      modifies this`queue, this`current, this`taskCount, this`activeCount, this`nextId,
               this`jobs, this`tasks, this`freed, this`popped, tasks
      ensures Valid() && activeCount == old(activeCount)
      ensures old(paused) ==> processed == 0 && queue == old(queue) && popped == old(popped) && jobs == old(jobs)
      ensures !old(paused) ==> queue == [] && taskCount == 0
      ensures !old(paused) ==> popped == old(popped) + Trace(old(jobs), old(nextId))
      ensures !old(paused) ==> processed == TotalWork(old(jobs))
      ensures !old(paused) ==> forall t :: t in tasks ==>
                (t in freed && t.Done()) || (t.status.ABORTED? && t.completions == 0 && (t in freed || t == current))
      ensures AbortedStay(old(tasks), tasks)
      ensures old(tasks) <= tasks && old(freed) <= freed
    {
      processed := 0;
      if paused {
        return;
      }
      processed := DrainQueue();
      NothingQueued(jobs, nextId, tasks, freed, current);
    }
  }
}

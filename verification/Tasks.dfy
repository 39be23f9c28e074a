/** task.c and worker.c: a shared queue of tasks, any number of threads that start tasks
    and run them, and the counter that tells when no work is outstanding. */
module Tasks {
  import opened Sums
  import opened Wrappers

  type Tid = nat
  type Task = nat

  /** Where a thread is in task_run: outside, inside the function of a task, or between its
      return and what task_run does then. */
  datatype Busy = Idle | Running(task: Task) | Again(task: Task) | Done(task: Task)

  /** A thread may also be inside task_start, with a task that is counted but not queued yet. */
  datatype Thread = Thread(busy: Busy, starting: Option<Task>)

  datatype Pool = Pool(count: int, queue: seq<Task>, threads: map<Tid, Thread>)

  datatype Step =
    | Count(t: Tid, task: Task)
    | Enqueue(t: Tid)
    | Take(t: Tid)
    | Return(t: Tid, again: bool)
    | Requeue(t: Tid)
    | Finish(t: Tid)

  /** The steps a thread can take: each section under a mutex is one step. */
  ghost predicate Can(p: Pool, s: Step)
  {
    && s.t in p.threads
    && var th := p.threads[s.t];
      match s
      case Count(_, _) => th.starting.None? && (th.busy.Idle? || th.busy.Running?)
      case Enqueue(_) => th.starting.Some?
      case Take(_) => th.busy.Idle? && th.starting.None?
      case Return(_, _) => th.busy.Running? && th.starting.None?
      case Requeue(_) => th.busy.Again?
      case Finish(_) => th.busy.Done?
  }

  ghost function Stepped(p: Pool, s: Step): Pool
    requires Can(p, s)
  {
    var th := p.threads[s.t];
    match s
    case Count(t, task) => p.(count := p.count + 1, threads := p.threads[t := th.(starting := Some(task))])
    case Enqueue(t) => p.(queue := p.queue + [th.starting.value], threads := p.threads[t := th.(starting := None)])
    case Take(t) => if p.queue == [] then p else p.(queue := p.queue[1..], threads := p.threads[t := th.(busy := Running(p.queue[0]))])
    case Return(t, again) => p.(threads := p.threads[t := th.(busy := if again then Again(th.busy.task) else Done(th.busy.task))])
    case Requeue(t) => p.(queue := p.queue + [th.busy.task], threads := p.threads[t := th.(busy := Idle)])
    case Finish(t) => p.(count := p.count - 1, threads := p.threads[t := th.(busy := Idle)])
  }

  /** The tasks a thread accounts for. */
  ghost function Load(): (Tid, Thread) -> nat
  {
    (t: Tid, th: Thread) => (if th.busy.Idle? then 0 else 1) + if th.starting.Some? then 1 else 0
  }

  /** The count is what is queued, being run, or counted and about to be queued. */
  ghost predicate Exact(p: Pool)
  {
    p.count == |p.queue| + Sum(p.threads, Load())
  }

  lemma StepExact(p: Pool, s: Step)
    requires Exact(p) && Can(p, s)
    ensures Exact(Stepped(p, s))
  {
    SumUpdate(p.threads, Load(), s.t, Stepped(p, s).threads[s.t]);
  }

  /** Workers and clients before any task is started. */
  ghost predicate Fresh(p: Pool)
  {
    p.count == 0 && p.queue == [] && forall t :: t in p.threads ==> p.threads[t] == Thread(Idle, None)
  }

  ghost predicate Steps(p: Pool, ss: seq<Step>)
    decreases |ss|, 0
  {
    ss == [] || (Steps(p, ss[..|ss| - 1]) && Can(After(p, ss[..|ss| - 1]), ss[|ss| - 1]))
  }

  ghost function After(p: Pool, ss: seq<Step>): Pool
    requires Steps(p, ss)
    decreases |ss|, 1
  {
    if ss == [] then p else Stepped(After(p, ss[..|ss| - 1]), ss[|ss| - 1])
  }

  /** The counter is exact after any interleaving of any number of threads. */
  lemma {:induction false} AlwaysExact(p: Pool, ss: seq<Step>)
    requires Fresh(p) && Steps(p, ss)
    ensures Exact(After(p, ss))
    decreases |ss|
  {
    if ss == [] {
      SumZero(p.threads, Load());
    } else {
      AlwaysExact(p, ss[..|ss| - 1]);
      StepExact(After(p, ss[..|ss| - 1]), ss[|ss| - 1]);
    }
  }

  ghost predicate Quiet(p: Pool)
  {
    p.queue == [] && forall t :: t in p.threads ==> p.threads[t] == Thread(Idle, None)
  }

  lemma QuietExact(p: Pool)
    requires Exact(p)
    ensures p.count >= 0 && (p.count == 0 <==> Quiet(p))
  {
    if Quiet(p) {
      SumZero(p.threads, Load());
    } else if p.queue == [] {
      var t :| t in p.threads && p.threads[t] != Thread(Idle, None);
      SumSplit(p.threads, Load(), t);
    }
  }

  /** The count is zero exactly when the queue is empty and no thread runs, requeues, ends or
      starts a task; and a task that ends finds it positive. */
  lemma ZeroMeansQuiet(p: Pool, ss: seq<Step>)
    requires Fresh(p) && Steps(p, ss)
    ensures var q := After(p, ss); q.count >= 0 && (q.count == 0 <==> Quiet(q))
    ensures forall t :: Can(After(p, ss), Finish(t)) ==> After(p, ss).count >= 1
  {
    AlwaysExact(p, ss);
    QuietExact(After(p, ss));
  }

  /** Once the count is zero it stays so, until a client starts a task: no worker can do
      anything but find the queue empty. */
  lemma ZeroStays(p: Pool, ss: seq<Step>, s: Step)
    requires Fresh(p) && Steps(p, ss) && After(p, ss).count == 0 && Can(After(p, ss), s) && !s.Count?
    ensures Stepped(After(p, ss), s) == After(p, ss)
  {
    ZeroMeansQuiet(p, ss);
    hide Steps, After;
  }

  /** As long as the count is not zero, some thread can go on with the work there is. */
  lemma WorkGoesOn(p: Pool, ss: seq<Step>) returns (s: Step)
    requires Fresh(p) && Steps(p, ss) && After(p, ss).count != 0 && After(p, ss).threads != map[]
    ensures !s.Count? && Can(After(p, ss), s) && Stepped(After(p, ss), s) != After(p, ss)
  {
    ZeroMeansQuiet(p, ss);
    var q := After(p, ss);
    hide Steps, After;
    if t :| t in q.threads && q.threads[t] != Thread(Idle, None) {
      s := if q.threads[t].starting.Some? then Enqueue(t)
           else match q.threads[t].busy
             case Running(_) => Return(t, false)
             case Again(_) => Requeue(t)
             case _ => Finish(t);
    } else {
      var t :| t in q.threads;
      s := Take(t);
    }
  }

  // ---- Which task is where ----

  /** The task that a thread has counted and puts into the queue with this step, or the one
      that asked to be run again. */
  ghost function Entering(p: Pool, s: Step): seq<Task>
    requires Can(p, s)
  {
    match s
    case Enqueue(t) => [p.threads[t].starting.value]
    case Requeue(t) => [p.threads[t].busy.task]
    case _ => []
  }

  /** The task that the thread runs once it has gone to the queue. */
  ghost function Leaving(p: Pool, s: Step): seq<Task>
    requires Can(p, s)
  {
    if s.Take? && Stepped(p, s).threads[s.t].busy.Running? then [Stepped(p, s).threads[s.t].busy.task] else []
  }

  /** All tasks that enter the queue during some steps, in that order. */
  ghost function Entered(p: Pool, ss: seq<Step>): seq<Task>
    requires Steps(p, ss)
    decreases |ss|
  {
    if ss == [] then [] else
      var rest := ss[..|ss| - 1];
      Entered(p, rest) + Entering(After(p, rest), ss[|ss| - 1])
  }

  /** All tasks that threads take during some steps, in that order. */
  ghost function Taken(p: Pool, ss: seq<Step>): seq<Task>
    requires Steps(p, ss)
    decreases |ss|
  {
    if ss == [] then [] else
      var rest := ss[..|ss| - 1];
      Taken(p, rest) + Leaving(After(p, rest), ss[|ss| - 1])
  }

  /** First in, first out: what was queued and what enters is, in that order, what threads
      take and what is still queued. */
  lemma {:induction false} FirstInFirstOut(p: Pool, ss: seq<Step>)
    requires Steps(p, ss)
    ensures p.queue + Entered(p, ss) == Taken(p, ss) + After(p, ss).queue
    decreases |ss|
  {
    if ss != [] {
      hide Entering, Leaving, Can, Stepped;
      var rest := ss[..|ss| - 1];
      var q, s := After(p, rest), ss[|ss| - 1];
      FirstInFirstOut(p, rest);
      StepInOrder(q, s);
      calc {
        p.queue + Entered(p, ss);
        (p.queue + Entered(p, rest)) + Entering(q, s);
        Taken(p, rest) + (q.queue + Entering(q, s));
        Taken(p, rest) + (Leaving(q, s) + Stepped(q, s).queue);
      }
    }
  }

  lemma StepInOrder(p: Pool, s: Step)
    requires Can(p, s)
    ensures p.queue + Entering(p, s) == Leaving(p, s) + Stepped(p, s).queue
  {
  }

  /** How often some steps go to the queue for a task. */
  function Visits(ss: seq<Step>): nat
  {
    if ss == [] then 0 else Visits(ss[..|ss| - 1]) + if ss[|ss| - 1].Take? then 1 else 0
  }

  /** Nobody is overtaken: a task with `k` tasks before it is the one that the next visit but
      `k` to the queue takes, whatever else happens in between. */
  lemma TakenInTurn(p: Pool, ss: seq<Step>, k: nat)
    requires Steps(p, ss) && k < |p.queue| && k < Visits(ss)
    ensures k < |Taken(p, ss)| && Taken(p, ss)[k] == p.queue[k]
  {
    FirstInFirstOut(p, ss);
    EveryVisitTakes(p, ss);
    assert (p.queue + Entered(p, ss))[k] == (Taken(p, ss) + After(p, ss).queue)[k];
  }

  lemma {:induction false} EveryVisitTakes(p: Pool, ss: seq<Step>)
    requires Steps(p, ss)
    ensures |Taken(p, ss)| >= if Visits(ss) < |p.queue| then Visits(ss) else |p.queue|
    decreases |ss|
  {
    if ss != [] {
      EveryVisitTakes(p, ss[..|ss| - 1]);
      FirstInFirstOut(p, ss[..|ss| - 1]);
    }
  }

  /** How many of the places where a thread keeps a task hold this one. */
  ghost function Carries(task: Task): (Tid, Thread) -> nat
  {
    (t: Tid, th: Thread) => (if !th.busy.Idle? && th.busy.task == task then 1 else 0) + if th.starting == Some(task) then 1 else 0
  }

  /** How often a task is outstanding: queued, or with a thread. */
  ghost function Outstanding(p: Pool, task: Task): nat
  {
    multiset(p.queue)[task] + Sum(p.threads, Carries(task))
  }

  /** Counting a task adds it, the end of a task removes that one, and nothing else adds,
      removes or exchanges any task. */
  lemma StepOutstanding(p: Pool, s: Step, task: Task)
    requires Can(p, s)
    ensures Outstanding(Stepped(p, s), task) == Outstanding(p, task)
      + (if s.Count? && s.task == task then 1 else 0)
      - (if s.Finish? && p.threads[s.t].busy.task == task then 1 else 0)
  {
    SumUpdate(p.threads, Carries(task), s.t, Stepped(p, s).threads[s.t]);
    if s.Take? && p.queue != [] {
      assert p.queue == [p.queue[0]] + p.queue[1..];
    }
  }

  /** How often the task was started. */
  function Started(ss: seq<Step>, task: Task): nat
  {
    if ss == [] then 0 else Started(ss[..|ss| - 1], task) + if ss[|ss| - 1].Count? && ss[|ss| - 1].task == task then 1 else 0
  }

  /** How often a thread was done with the task. */
  ghost function Ended(p: Pool, ss: seq<Step>, task: Task): nat
    requires Steps(p, ss)
    decreases |ss|
  {
    if ss == [] then 0 else
      var rest, s := ss[..|ss| - 1], ss[|ss| - 1];
      Ended(p, rest, task) + if s.Finish? && After(p, rest).threads[s.t].busy.task == task then 1 else 0
  }

  /** After any interleaving each task is outstanding as often as it was started and has not ended. */
  lemma {:induction false} TasksKept(p: Pool, ss: seq<Step>, task: Task)
    requires Fresh(p) && Steps(p, ss)
    ensures Outstanding(After(p, ss), task) == Started(ss, task) - Ended(p, ss, task)
    decreases |ss|
  {
    if ss == [] {
      SumZero(p.threads, Carries(task));
    } else {
      TasksKept(p, ss[..|ss| - 1], task);
      StepOutstanding(After(p, ss[..|ss| - 1]), ss[|ss| - 1], task);
    }
  }

  /** What the function of a task returns decides alone what becomes of the task: it is queued
      again, or it ends; and the thread does nothing else before. */
  lemma AgainDecides(p: Pool, t: Tid, again: bool, s: Step)
    requires Can(p, Return(t, again)) && Can(Stepped(p, Return(t, again)), s) && s.t == t
    ensures s == if again then Requeue(t) else Finish(t)
    ensures again ==> Entering(Stepped(p, Return(t, again)), s) == [p.threads[t].busy.task]
    ensures var k := p.threads[t].busy.task;
      !again ==> Outstanding(Stepped(Stepped(p, Return(t, again)), s), k) == Outstanding(p, k) - 1
  {
    var q := Stepped(p, Return(t, again));
    var k := p.threads[t].busy.task;
    StepOutstanding(p, Return(t, again), k);
    StepOutstanding(q, s, k);
    hide Outstanding;
  }

  /** The shared variables of task.c and worker.c; what the threads are doing is kept beside them. */
  class Workers {
    var taskCount: nat
    var work: seq<Task>
    ghost var threads: map<Tid, Thread>

    ghost function State(): Pool
      reads this
    {
      Pool(taskCount, work, threads)
    }

    constructor (ghost ids: set<Tid>)
      ensures Fresh(State()) && threads.Keys == ids
    {
      taskCount, work := 0, [];
      threads := map t | t in ids :: Thread(Idle, None);
    }

    /** The first half of task_start, under the mutex of the count. */
    method StartCount(ghost t: Tid, task: Task)
      requires Can(State(), Count(t, task))
      modifies this
      ensures State() == Stepped(old(State()), Count(t, task))
    {
      taskCount := taskCount + 1;
      threads := threads[t := threads[t].(starting := Some(task))];
    }

    /** worker_add_task, as the second half of task_start. */
    method StartAdd(ghost t: Tid, task: Task)
      requires Can(State(), Enqueue(t)) && threads[t].starting == Some(task)
      modifies this
      ensures State() == Stepped(old(State()), Enqueue(t))
    {
      AddTask(task);
      threads := threads[t := threads[t].(starting := None)];
    }

    /** worker_add_task */
    method AddTask(task: Task)
      modifies `work
      ensures work == old(work) + [task]
    {
      work := work + [task];
    }

    /** worker_get_next_task */
    method GetNextTask(ghost t: Tid) returns (task: Option<Task>)
      requires Can(State(), Take(t))
      modifies this
      ensures State() == Stepped(old(State()), Take(t))
      ensures task == if old(work) == [] then None else Some(old(work)[0])
    {
      task := None;
      if |work| > 0 {
        task := Some(work[0]);
        work := work[1..];
        threads := threads[t := threads[t].(busy := Running(task.value))];
      }
    }

    /** The end of task_run: the task is queued again, or counted off; `zero` says that
        those who wait for the count to become zero are woken. */
    method RunEnd(ghost t: Tid, task: Task, again: bool) returns (zero: bool)
      requires Can(State(), Return(t, again)) && threads[t].busy == Running(task) && Exact(State())
      modifies this
      ensures var returned := Stepped(old(State()), Return(t, again));
        State() == Stepped(returned, if again then Requeue(t) else Finish(t))
      ensures zero <==> Quiet(State())
    {
      ghost var returned := Stepped(State(), Return(t, again));
      StepExact(State(), Return(t, again));
      zero := false;
      threads := threads[t := threads[t].(busy := if again then Again(task) else Done(task))];
      if again {
        AddTask(task);
        threads := threads[t := threads[t].(busy := Idle)];
      } else {
        QuietExact(returned);
        assert returned.threads[t] != Thread(Idle, None);
        taskCount := taskCount - 1;
        threads := threads[t := threads[t].(busy := Idle)];
        if taskCount == 0 {
          zero := true;
        }
        StepExact(returned, Finish(t));
        QuietExact(State());
      }
    }
  }
}

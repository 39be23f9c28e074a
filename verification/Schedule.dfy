/** The order in which workers run the tasks: a queue, first in, first out. Such a schedule
    is fair, so it brings the heap to rest. */
module Schedule {
  import opened Wrappers
  import opened Forwarding
  import opened Sums
  import opened Model
  import opened Conservation
  import opened Invariant
  import opened Keeping
  import opened Phantomizing
  import opened CollectPhase
  import opened RecoverPhase
  import opened CleanPhase
  import opened Reach
  import opened Runs
  import opened Deletion
  import opened Mutators
  import opened Machine
  import opened Drain

  // ---- A task step loses no other task ----

  /** A task step takes away no task but itself. */
  lemma TasksStay(st: State, t: Task)
    requires Inv(st) && st.tasks[t] > 0
    ensures st.tasks - multiset{t} <= Worked(st, t).tasks
  {
    hide Sane, Balanced, CollectorRun, DeleteTask, Terminate, Busy;
    match t {
      case DeleteObject(o) =>
        DeletedGraph(st, o);
        LinkDecsTasks(Detach(st, o), Picked(st.g.links, o, st.g.Keys(o)));
      case RunCollector(c) =>
        TaskCollector(st, c);
        if Busy(st.cs.lists, c) {
          BusyTasks(st, c);
        } else {
          IdleRunCloser(st, c);
          TerminateTasks(st, c);
        }
    }
  }

  lemma TerminateTasks(st: State, c: Cid)
    ensures Terminate(st, c).tasks == st.tasks - multiset{RunCollector(c)}
  {
  }

  lemma BusyTasks(st: State, c: Cid)
    requires Inv(st) && c in st.cs.forward && Busy(st.cs.lists, c)
    ensures st.tasks - multiset{RunCollector(c)} <= CollectorRun(st, c).tasks
  {
    hide Sane, Balanced, Onward, Collection, Terminate, Finished, Busy, Waiting;
    SaneForest(st, AtRest);
    NotWaiting(st, c);
    BusyRoot(st, c);
    CollectionOnward(st, c);
    OnwardTasks(st, Collection(st, c), c);
    TerminateTasks(Collection(st, c), c);
  }

  // ---- Workers and their queue ----

  /** At each turn: the tasks that wait in the queue, those that workers have in hand, and how
      many of the queue are taken before the turn ends. */
  datatype Workers = Workers(queue: nat -> seq<Task>, hand: nat -> multiset<Task>, taken: nat -> nat)
  {
    function InHand(n: nat): multiset<Task>
      requires taken(n) <= |queue(n)|
    {
      hand(n) + multiset(queue(n)[..taken(n)])
    }
  }

  /** A turn is the step of a task that a worker has in hand. Tasks are taken from the front of
      the queue, and what the step adds comes behind those that wait. */
  ghost predicate Turn(st: State, f: nat -> Task, w: Workers, n: nat)
    requires Inv(st)
  {
    && multiset(w.queue(n)) + w.hand(n) == Turns(st, f, n).tasks
    && w.taken(n) <= |w.queue(n)|
    && (Turns(st, f, n).tasks != multiset{} ==> f(n) in w.InHand(n))
    && w.hand(n + 1) == w.InHand(n) - multiset{f(n)}
    && w.queue(n)[w.taken(n)..] <= w.queue(n + 1)
  }

  ghost predicate RunBy(st: State, f: nat -> Task, w: Workers)
    requires Inv(st)
  {
    forall n: nat :: Turn(st, f, w, n)
  }

  /** What a worker has in hand it brings to an end, and as long as tasks wait, workers come
      back to the queue. */
  ghost predicate Lively(f: nat -> Task, w: Workers)
  {
    && (forall n: nat, t :: t in w.hand(n) ==> exists m: nat :: n <= m && f(m) == t)
    && (forall n: nat :: w.queue(n) != [] ==> exists m: nat :: n <= m && w.taken(m) > 0)
  }

  /** Whoever waits in the queue has its turn; `k` is a turn at which the queue moves on. */
  lemma {:induction false} Awaited(st: State, f: nat -> Task, w: Workers, n: nat, i: nat, k: nat) returns (m: nat)
    requires Inv(st) && RunBy(st, f, w) && Lively(f, w) && i < |w.queue(n)| && n <= k && w.taken(k) > 0
    ensures n <= m && f(m) == w.queue(n)[i]
    decreases i, k - n
  {
    hide Inv, Turn;
    assert Turn(st, f, w, n);
    Onwards(st, f, w, n, i);
    var t := w.queue(n)[i];
    if i < w.taken(n) {
      m := n;
      if f(n) != t {
        m :| n + 1 <= m && f(m) == t;
      }
    } else if w.taken(n) == 0 {
      m := Awaited(st, f, w, n + 1, i, k);
    } else {
      var j: nat :| n + 1 <= j && w.taken(j) > 0;
      m := Awaited(st, f, w, n + 1, i - w.taken(n), j);
    }
  }

  /** At one turn a task that waits gets its step, or into the hands of a worker, or forward by
      as many places as tasks are taken. */
  lemma Onwards(st: State, f: nat -> Task, w: Workers, n: nat, i: nat)
    requires Inv(st) && Turn(st, f, w, n) && i < |w.queue(n)|
    ensures var t := w.queue(n)[i];
      if i < w.taken(n) then f(n) == t || t in w.hand(n + 1)
      else i - w.taken(n) < |w.queue(n + 1)| && w.queue(n + 1)[i - w.taken(n)] == t
  {
    hide Inv, Turns;
    var t, rest := w.queue(n)[i], w.queue(n)[w.taken(n)..];
    if i < w.taken(n) {
      assert w.queue(n)[..w.taken(n)][i] == t;
      assert t in multiset(w.queue(n)[..w.taken(n)]);
    } else {
      assert rest[i - w.taken(n)] == t;
    }
  }

  /** A queue makes every schedule of any number of workers fair. */
  lemma QueueFair(st: State, f: nat -> Task, w: Workers)
    requires Inv(st) && RunBy(st, f, w) && Lively(f, w)
    ensures Fair(st, f)
  {
    hide Inv, Turns;
    forall n: nat, t | Turns(st, f, n).tasks[t] > 0 ensures exists m: nat :: n <= m && f(m) == t {
      assert Turn(st, f, w, n);
      if t !in w.hand(n) {
        assert t in multiset(w.queue(n));
        var i :| 0 <= i < |w.queue(n)| && w.queue(n)[i] == t;
        var k: nat :| n <= k && w.taken(k) > 0;
        var m := Awaited(st, f, w, n, i, k);
      }
    }
  }

  /** With the tasks in a queue, the heap comes to rest after finitely many turns of any number
      of workers, with exactly the objects that the client can reach. */
  lemma QueueCollection(es: seq<Event>, f: nat -> Task, w: Workers) returns (k: nat)
    requires Run(es) && RunBy(After(es), f, w) && Lively(f, w)
    ensures Turns(After(es), f, k).tasks == multiset{}
    ensures forall o :: o in Turns(After(es), f, k).g.objs <==> Reachable(After(es).g, o)
  {
    hide Inv, Turns, Fair, Run, After, Reachable;
    QueueFair(After(es), f, w);
    k := FairCollection(es, f);
  }

  // ---- One worker is enough ----

  ghost function Listing(m: multiset<Task>): (s: seq<Task>)
    ensures multiset(s) == m
    decreases |m|
  {
    if m == multiset{} then [] else
      var t :| t in m;
      [t] + Listing(m - multiset{t})
  }

  /** The heap and the queue after `n` turns. */
  ghost function Pooled(st: State, q: seq<Task>, n: nat): (r: (State, seq<Task>))
    requires Inv(st) && multiset(q) == st.tasks
    ensures Inv(r.0) && multiset(r.1) == r.0.tasks
  {
    hide Inv;
    if n == 0 then (st, q) else PooledNext(Pooled(st, q, n - 1).0, Pooled(st, q, n - 1).1)
  }

  /** The first task of the queue is run, and what it starts is queued. */
  ghost function PooledNext(st: State, q: seq<Task>): (r: (State, seq<Task>))
    requires Inv(st) && multiset(q) == st.tasks
    ensures Inv(r.0) && multiset(r.1) == r.0.tasks
    ensures q == [] ==> r.0 == st
    ensures q != [] ==> st.tasks[q[0]] > 0 && r.0 == Worked(st, q[0]) && q[1..] <= r.1
  {
    hide Inv, Worked;
    if q == [] then (st, q)
    else
      HeadTask(q);
      TasksStay(st, q[0]);
      var r := Worked(st, q[0]);
      (r, Refilled(q[1..], r.tasks))
  }

  lemma HeadTask(q: seq<Task>)
    requires q != []
    ensures multiset(q)[q[0]] > 0 && multiset(q[1..]) == multiset(q) - multiset{q[0]}
  {
    assert q == [q[0]] + q[1..];
  }

  ghost function Refilled(q: seq<Task>, tasks: multiset<Task>): (r: seq<Task>)
    requires multiset(q) <= tasks
    ensures q <= r && multiset(r) == tasks
  {
    q + Listing(tasks - multiset(q))
  }

  /** The task that has the turn; any will do if none is outstanding. */
  function First(q: seq<Task>): Task
  {
    if q == [] then DeleteObject(0) else q[0]
  }

  /** `f` gives every turn to the first task of the queue. */
  ghost predicate Serves(st: State, q0: seq<Task>, f: nat -> Task)
    requires Inv(st) && multiset(q0) == st.tasks
  {
    forall n: nat :: f(n) == First(Pooled(st, q0, n).1)
  }

  lemma ServesAt(st: State, q0: seq<Task>, f: nat -> Task, n: nat)
    requires Inv(st) && multiset(q0) == st.tasks && Serves(st, q0, f)
    ensures f(n) == First(Pooled(st, q0, n).1)
  {
    hide Inv, Pooled;
  }

  lemma {:induction false} PooledTurns(st: State, q0: seq<Task>, f: nat -> Task, n: nat)
    requires Inv(st) && multiset(q0) == st.tasks && Serves(st, q0, f)
    ensures Turns(st, f, n) == Pooled(st, q0, n).0
    decreases n
  {
    hide Inv, Worked, PooledNext, Serves, Turns, Pooled;
    PooledIs(st, q0, n);
    if n == 0 {
      FirstTurn(st, f);
    } else {
      PooledTurns(st, q0, f, n - 1);
      ServesAt(st, q0, f, n - 1);
      NextTurn(st, f, n, Pooled(st, q0, n - 1).0, Pooled(st, q0, n - 1).1);
    }
  }

  lemma PooledIs(st: State, q0: seq<Task>, n: nat)
    requires Inv(st) && multiset(q0) == st.tasks
    ensures Pooled(st, q0, n) == if n == 0 then (st, q0) else PooledNext(Pooled(st, q0, n - 1).0, Pooled(st, q0, n - 1).1)
  {
    hide Inv, PooledNext;
  }

  lemma FirstTurn(st: State, f: nat -> Task)
    requires Inv(st)
    ensures Turns(st, f, 0) == st
  {
  }

  lemma NextTurn(st: State, f: nat -> Task, n: nat, p: State, q: seq<Task>)
    requires Inv(st) && n > 0 && Turns(st, f, n - 1) == p && multiset(q) == p.tasks && f(n - 1) == First(q)
    ensures Turns(st, f, n) == PooledNext(p, q).0
  {
    hide Inv, Worked;
  }

  /** What the queue does at one turn. */
  lemma PooledOrder(st: State, q0: seq<Task>, n: nat)
    requires Inv(st) && multiset(q0) == st.tasks
    ensures var q := Pooled(st, q0, n).1; q != [] ==> q[1..] <= Pooled(st, q0, n + 1).1
  {
    hide Inv, Worked;
  }

  /** A worker that takes a task, runs it, and comes back to the queue. */
  ghost function OneWorker(st: State, q0: seq<Task>): Workers
    requires Inv(st) && multiset(q0) == st.tasks
  {
    Workers((n: nat) => Pooled(st, q0, n).1, (n: nat) => multiset{}, (n: nat) => if Pooled(st, q0, n).1 == [] then 0 else 1)
  }

  lemma OneTurn(st: State, q0: seq<Task>, f: nat -> Task, n: nat)
    requires Inv(st) && multiset(q0) == st.tasks && Serves(st, q0, f)
    ensures Turn(st, f, OneWorker(st, q0), n)
  {
    hide Inv, Worked, Turns, Pooled, PooledNext, Serves, First;
    PooledTurns(st, q0, f, n);
    PooledOrder(st, q0, n);
    ServesAt(st, q0, f, n);
    FirstOnly(Pooled(st, q0, n).1);
  }

  /** Whatever the heap, a single worker can run the tasks so. */
  lemma QueueExists(st: State) returns (f: nat -> Task, w: Workers)
    requires Inv(st)
    ensures RunBy(st, f, w) && Lively(f, w)
  {
    hide Inv, Pooled, Serves, Turn;
    var q0 := Listing(st.tasks);
    w := OneWorker(st, q0);
    f := (n: nat) => First(Pooled(st, q0, n).1);
    AllServed(st, q0, f);
    forall n: nat ensures Turn(st, f, w, n) {
      OneTurn(st, q0, f, n);
    }
    forall n: nat | w.queue(n) != [] ensures exists m: nat :: n <= m && w.taken(m) > 0 {
      assert w.taken(n) > 0;
    }
  }

  lemma FirstOnly(q: seq<Task>)
    ensures q != [] ==> multiset(q[..1]) == multiset{First(q)}
  {
    assert q != [] ==> q[..1] == [q[0]];
  }

  lemma AllServed(st: State, q0: seq<Task>, f: nat -> Task)
    requires Inv(st) && multiset(q0) == st.tasks && forall n: nat :: f(n) == First(Pooled(st, q0, n).1)
    ensures Serves(st, q0, f)
  {
    hide Inv, Pooled;
  }
}

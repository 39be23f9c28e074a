/** Whole runs of the program: client calls and task steps in any order, starting
    from an empty heap. */
module Machine {
  import opened Wrappers
  import opened Forwarding
  import opened Sums
  import opened Model
  import opened Conservation
  import opened Invariant
  import opened Keeping
  import opened Phantomizing
  import opened CollectPhase
  import opened RecoverPhase
  import opened CleanPhase
  import opened Reach
  import opened Runs
  import opened Deletion
  import opened Mutators

  /** One step: a call of the client, or one whole task step. */
  datatype Event =
    | Allocate(o: Oid)
    | Claim(o: Oid)
    | Unclaim(o: Oid)
    | Assign(prior: Option<Oid>, val: Oid)
    | Set(s: Slot, ref: Option<Oid>, order: seq<Field>)
    | Work(t: Task)

  /** What the client has to respect, and which tasks can be run. */
  ghost predicate Enabled(st: State, e: Event)
  {
    match e
    case Allocate(o) => o !in st.g.objs
    case Claim(o) => Reachable(st.g, o)
    case Unclaim(o) => st.g.claims[o] > 0
    case Assign(prior, val) => Reachable(st.g, val) && (prior.Some? ==> st.g.claims[prior.value] > 0)
    case Set(s, ref, order) => MaySet(st, s, ref, order)
    case Work(t) => st.tasks[t] > 0
  }

  lemma TaskCollector(st: State, c: Cid)
    requires Inv(st) && st.tasks[RunCollector(c)] > 0
    ensures c in st.cs.forward
  {
    hide Struct, Homed, Local, Positive, Anchored, Uniform, Acyclic, HeldOrCleaned, Balanced, Settled;
  }

  ghost function Step(st: State, e: Event): (r: State)
    requires Inv(st) && Enabled(st, e)
    ensures Inv(r)
    ensures e.Work? ==> Spared(st.g, r.g)
  {
    hide Sane, Balanced, Reachable, MaySet, Spared;
    match e
    case Allocate(o) => MallocKeeps(st, o); Malloc(st, o)
    case Claim(o) => HardenKeeps(st, o); Harden(st, o)
    case Unclaim(o) => DissolveKeeps(st, o); Dissolve(st, o)
    case Assign(prior, val) => SetRawKeeps(st, prior, val); SetRaw(st, prior, val)
    case Set(s, ref, order) => SetFieldKeeps(st, s, ref, order); SetField(st, s, ref, order)
    case Work(RunCollector(c)) => TaskCollector(st, c); CollectorRun(st, c)
    case Work(DeleteObject(o)) => DeleteTaskKeeps(st, o); DeleteTask(st, o)
  }

  lemma EmptyInv()
    ensures Inv(Empty)
  {
    assert Ranked(map[], map[], 0);
    var rank: map<Oid, nat> := map[];
    assert StrongRank(Empty.g, rank, 0);
  }

  /** A sequence of steps each of which is enabled when it is taken. */
  ghost predicate Run(es: seq<Event>)
    decreases |es|, 1
  {
    es == [] || (Run(es[..|es| - 1]) && Enabled(After(es[..|es| - 1]), es[|es| - 1]))
  }

  /** The heap after a run. Every loop of every step terminates, and the invariant
      holds between any two steps. */
  ghost function After(es: seq<Event>): (st: State)
    requires Run(es)
    ensures Inv(st)
    decreases |es|, 2
  {
    EmptyInv();
    if es == [] then Empty else Step(After(es[..|es| - 1]), es[|es| - 1])
  }

  // ---- What the invariant says at any point of any run ----

  /** Each count is the number of references of its class. */
  lemma CountsExact(es: seq<Event>, o: Oid, w: bool)
    requires Run(es) && o in After(es).g.objs
    ensures var st := After(es);
      o in st.count &&
      st.count[o].Plain(w) == InLinks(st.g.links, o, Bit(w))
        + (if w == st.Which(o) then st.g.claims[o] + Entries(st.cs.lists, o, true) else 0) &&
      st.count[o].n2 == InLinks(st.g.links, o, Phantom) + Entries(st.cs.lists, o, false)
  {
    hide Run, After, Sane, Balanced, InLinks, Entries;
    InCount(After(es), o);
    CountsAt(After(es), o, w);
  }

  lemma InCount(st: State, o: Oid)
    requires Sane(st, AtRest) && o in st.g.objs
    ensures o in st.count && o in st.collector
  {
    hide LinksShape, Registered, Wired, Pointing, Listed, Counted, Homed, Local, Positive, Anchored, Uniform, Acyclic, HeldOrCleaned, Scheduled;
  }

  lemma CountsAt(st: State, o: Oid, w: bool)
    requires Balanced(st, multiset{}, None) && o in st.g.objs
    ensures st.Num(o).Plain(w) == InLinks(st.g.links, o, Bit(w))
        + (if w == st.Which(o) then st.g.claims[o] + Entries(st.cs.lists, o, true) else 0)
    ensures st.Num(o).n2 == InLinks(st.g.links, o, Phantom) + Entries(st.cs.lists, o, false)
  {
    hide InLinks, Entries;
    assert Balance(st, o, Bit(w)) == 0 && Balance(st, o, Phantom) == 0;
  }

  ghost predicate StrongHop(g: Graph, a: Oid, b: Oid)
  {
    exists s :: StrongEdge(g, s) && s.src == a && g.links[s].target == b
  }

  /** A chain of strong links. */
  ghost predicate StrongPath(g: Graph, p: seq<Oid>)
  {
    forall i :: 0 <= i < |p| - 1 ==> StrongHop(g, p[i], p[i + 1])
  }

  lemma StrongStep(g: Graph, rank: map<Oid, nat>, bound: nat, p: seq<Oid>, i: nat)
    requires LinksShape(g) && StrongRank(g, rank, bound) && StrongPath(g, p) && i < |p| - 1
    ensures p[i] in rank && p[i + 1] in rank && rank[p[i]] < rank[p[i + 1]]
  {
    assert StrongHop(g, p[i], p[i + 1]);
    var s :| StrongEdge(g, s) && s.src == p[i] && g.links[s].target == p[i + 1];
    assert s in g.links && s.src in g.objs && g.links[s].target in g.objs;
  }

  lemma {:induction false} StrongPathClimbs(g: Graph, rank: map<Oid, nat>, bound: nat, p: seq<Oid>, n: nat)
    requires LinksShape(g) && StrongRank(g, rank, bound) && StrongPath(g, p) && 0 < n < |p|
    ensures p[0] in rank && p[n] in rank && rank[p[0]] < rank[p[n]]
  {
    hide LinksShape, StrongRank, StrongPath;
    StrongStep(g, rank, bound, p, n - 1);
    if n > 1 {
      StrongPathClimbs(g, rank, bound, p, n - 1);
    }
  }

  /** No run ever builds a cycle of strong links. */
  lemma StrongLinksAcyclic(es: seq<Event>, p: seq<Oid>)
    requires Run(es) && StrongPath(After(es).g, p) && |p| > 1
    ensures p[0] != p[|p| - 1]
  {
    var st := After(es);
    hide Run, After, Registered, Wired, Pointing, Listed, Counted, Homed, Local, Positive, Anchored, Uniform, HeldOrCleaned, Scheduled, Balanced, StrongPath;
    assert LinksShape(st.g);
    var rank: map<Oid, nat>, bound: nat :| StrongRank(st.g, rank, bound);
    StrongPathClimbs(st.g, rank, bound, p, |p| - 1);
  }

  /** Every object that is not about to be deleted is a phantom or has a positive
      strong count; weak references alone do not occur; an object is a phantom
      exactly when all its links are; and it has a collector exactly when it has
      phantom references. */
  lemma ObjectStates(es: seq<Event>, o: Oid)
    requires Run(es) && o in After(es).g.objs && !Doomed(After(es).tasks, o)
    ensures var st := After(es); var w := st.Which(o);
      (!st.g.Ph(o) ==> st.Num(o).Plain(w) > 0) &&
      (st.Num(o).Plain(!w) > 0 ==> st.Num(o).Plain(w) > 0) &&
      (st.Coll(o).Some? <==> st.Num(o).n2 > 0) &&
      (forall s :: s in st.g.links && s.src == o ==> st.g.links[s].phantomized == st.g.Ph(o))
  {
    hide Run, After, LinksShape, Registered, Wired, Pointing, Listed, Counted, Homed, Local, Acyclic, HeldOrCleaned, Scheduled, Balanced;
  }

  /** Both ends of a phantom link have collectors with the same representative. */
  lemma PhantomLinksLocal(es: seq<Event>, s: Slot)
    requires Run(es) && s in After(es).g.links && After(es).g.links[s].phantomized
    ensures var st := After(es); var a, b := st.Coll(s.src), st.Coll(st.g.links[s].target);
      a.Some? && b.Some? && a.value in st.cs.forward && b.value in st.cs.forward && Forest(st.cs.forward) &&
      Rep(st.cs.forward, a.value) == Rep(st.cs.forward, b.value)
  {
    var st := After(es);
    hide Run, After, LinksShape, Wired, Listed, Counted, Homed, Acyclic, Positive, Anchored, Uniform, HeldOrCleaned, Scheduled, Balanced, Forest;
    assert Group(st.collector, st.cs.forward, s.src) == Group(st.collector, st.cs.forward, st.g.links[s].target);
  }

  /** The counters of a collector: objects and collectors that point at it, and
      entries of its five lists. */
  lemma CollectorCounters(es: seq<Event>, c: Cid)
    requires Run(es) && c in After(es).cs.forward
    ensures var st := After(es);
      c in st.cs.counter &&
      st.cs.counter[c].refs == Sum(st.collector, PointsTo(c)) + Sum(st.cs.forward, PointsTo(c)) &&
      st.cs.counter[c].stores == StoreSize(st.cs.lists, c)
  {
    var st := After(es);
    hide Run, After, LinksShape, Registered, Pointing, Listed, Homed, Local, Acyclic, Positive, Anchored, Uniform, HeldOrCleaned, Scheduled, Balanced, StoreSize;
    assert RefBalance(st.collector, st.cs, c) == 0 && StoreBalance(st.cs, c) == 0;
  }

  // ---- Safety ----

  /** A task step never takes anything away from the client: what could be reached
      can still be reached, every link of a reachable object is still there with
      the same target, and nothing new can be reached. */
  lemma TaskSafety(es: seq<Event>, t: Task)
    requires Run(es) && After(es).tasks[t] > 0
    ensures Run(es + [Work(t)])
    ensures var a, b := After(es).g, After(es + [Work(t)]).g;
      Spared(a, b) && forall o :: Reachable(b, o) <==> Reachable(a, o)
  {
    hide Run, After, Inv, Reachable, Step, Spared;
    var st := After(es);
    RunStep(es, Work(t));
    SparedReach(st.g, Step(st, Work(t)).g);
  }

  lemma RunStep(es: seq<Event>, e: Event)
    requires Run(es) && Enabled(After(es), e)
    ensures Run(es + [e]) && After(es + [e]) == Step(After(es), e)
  {
    hide Enabled, Step, Inv;
    var fs := es + [e];
    assert fs[..|fs| - 1] == es;
  }

  /** Whatever is waiting to be deleted cannot be reached. */
  lemma DoomedNeverReachable(es: seq<Event>, o: Oid)
    requires Run(es) && After(es).tasks[DeleteObject(o)] > 0
    ensures !Reachable(After(es).g, o)
  {
    hide Run, After, Sane, Balanced, Reachable;
    DoomedUnreachable(After(es), AtRest, o);
  }

  // ---- Exactness ----

  lemma QuietState(st: State)
    requires Inv(st) && st.tasks == multiset{}
    ensures st.cs.lists == map[]
    ensures forall o :: o in st.g.objs ==> o in st.count && !st.g.Ph(o) && st.count[o].Plain(st.Which(o)) > 0
    ensures forall s :: s in st.g.links ==> !st.g.links[s].phantomized
  {
    hide LinksShape, Wired, Listed, Counted, Homed, Acyclic, Balanced, Root, Settled;
    assert forall c :: st.tasks[RunCollector(c)] == if c in st.cs.forward then 1 else 0;
    assert forall c :: c !in st.cs.forward;
    assert forall o :: !Doomed(st.tasks, o);
    assert forall lid :: lid in st.cs.lists ==> lid.coll in st.cs.forward;
    assert forall o :: o in st.collector ==> st.collector[o].None?;
  }

  /** Strong links lead from a claim to every object. */
  lemma {:induction false} QuietReach(st: State, rank: map<Oid, nat>, bound: nat, o: Oid)
    requires Inv(st) && st.tasks == multiset{} && o in st.g.objs
    requires StrongRank(st.g, rank, bound)
    ensures Reachable(st.g, o)
    decreases rank[o]
  {
    QuietState(st);
    if st.g.claims[o] > 0 {
      ClaimReach(st.g, o);
    } else {
      StrongInLink(st, o);
      var s := SumWitness(st.g.links, LinkInto(o, Bit(st.Which(o))));
      LinkEnds(st, s);
      assert st.g.links[s].target == o && StrongEdge(st.g, s);
      QuietReach(st, rank, bound, s.src);
      hide Inv;
      assert Edge(st.g, s.src, o);
      EdgeReach(st.g, s.src, o);
    }
  }

  lemma StrongInLink(st: State, o: Oid)
    requires Balanced(st, multiset{}, None) && o in st.g.objs && st.g.claims[o] == 0 && st.cs.lists == map[]
    requires st.Num(o).Plain(st.Which(o)) > 0
    ensures InLinks(st.g.links, o, Bit(st.Which(o))) > 0
  {
    hide InLinks;
    assert Balance(st, o, Bit(st.Which(o))) == 0;
  }

  /** At rest, the objects that exist are exactly those that the client can reach. */
  lemma QuietExact(st: State)
    requires Inv(st) && st.tasks == multiset{}
    ensures forall o :: o in st.g.objs <==> Reachable(st.g, o)
  {
    hide Reachable;
    var rank: map<Oid, nat>, bound: nat :| StrongRank(st.g, rank, bound);
    hide Sane, Balanced, StrongRank;
    forall o ensures o in st.g.objs <==> Reachable(st.g, o) {
      if o in st.g.objs {
        QuietReach(st, rank, bound, o);
      }
      if Reachable(st.g, o) {
        ReachableAlive(st, o);
      }
    }
  }

  /** Whenever no task is outstanding, the objects that exist are exactly those
      that the client can reach. */
  lemma Exactness(es: seq<Event>)
    requires Run(es) && After(es).tasks == multiset{}
    ensures forall o :: o in After(es).g.objs <==> Reachable(After(es).g, o)
  {
    hide Run, After, Reachable, Inv;
    QuietExact(After(es));
  }
}

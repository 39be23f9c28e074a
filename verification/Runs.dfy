/** A whole run of collector_run. */
module Runs {
  import opened Wrappers
  import opened Forwarding
  import opened Sums
  import opened Model
  import opened Conservation
  import opened Invariant
  import opened Keeping
  import opened Phantomizing
  import opened CollectPhase
  import opened RecoverPhase
  import opened CleanPhase
  import opened Reach

  /** The heap between two steps of the program. */
  ghost predicate Inv(st: State)
  {
    && Sane(st, AtRest) && Balanced(st, multiset{}, None)
    && (forall o :: st.g.claims[o] > 0 ==> o in st.g.objs)
  }

  // ---- Destroying a collector ----

  function WithoutColl(cs: Collecting, c: Cid): Collecting
  {
    var f := if c in cs.forward then cs.forward[c] else None;
    var cs' := AddRefs(cs, f, -1);
    Collecting(cs.forward - {c}, cs'.counter - {c}, map lid | lid in cs.lists && lid.coll != c :: cs.lists[lid], cs.next)
  }

  /** collector_terminate and collector_destroy; the task of the collector ends */
  ghost function Terminate(st: State, c: Cid): State
  {
    st.(cs := WithoutColl(st.cs, c), tasks := st.tasks - multiset{RunCollector(c)})
  }

  /** counter_done: nothing refers to the collector and it has no work. */
  predicate Finished(cs: Collecting, c: Cid)
  {
    CounterAt(cs.counter, c).refs == 0 && CounterAt(cs.counter, c).stores == 0
  }

  /** counter_continue_waiting: somebody refers to the collector but it has no work. */
  predicate Waiting(cs: Collecting, c: Cid)
  {
    CounterAt(cs.counter, c).refs > 0 && CounterAt(cs.counter, c).stores == 0
  }

  /** A finished collector is referred to by no object and no collector, and all
      its lists are empty. */
  lemma FinishedMeans(st: State, c: Cid)
    requires Struct(st) && c in st.cs.forward
    ensures Finished(st.cs, c) <==>
      (forall o :: o in st.collector ==> st.collector[o] != Some(c)) &&
      (forall d :: d in st.cs.forward ==> st.cs.forward[d] != Some(c)) &&
      (forall k :: Data(st.cs.lists, c, k) == [])
  {
    hide LinksShape, Registered, Wired, Pointing, Listed;
    assert RefBalance(st.collector, st.cs, c) == 0 && StoreBalance(st.cs, c) == 0;
    NoPointers(st.collector, c);
    NoPointers(st.cs.forward, c);
    EmptyStore(st.cs.lists, c);
  }

  lemma EmptyStore(lists: Lists, c: Cid)
    ensures StoreSize(lists, c) == 0 <==> forall k :: Data(lists, c, k) == []
  {
    if StoreSize(lists, c) == 0 {
      forall k ensures Data(lists, c, k) == [] {
        match k
        case Collect =>
        case Merged =>
        case Recovery =>
        case Rebuild =>
        case Clean =>
      }
    } else {
      assert Data(lists, c, Collect) != [] || Data(lists, c, Merged) != [] || Data(lists, c, Recovery) != []
        || Data(lists, c, Rebuild) != [] || Data(lists, c, Clean) != [];
    }
  }

  lemma WithoutListsEntries(lists: Lists, c: Cid, o: Oid, co: bool)
    requires forall lid :: lid in lists && lid.coll == c ==> lists[lid].data == []
    ensures Entries(map lid | lid in lists && lid.coll != c :: lists[lid], o, co) == Entries(lists, o, co)
  {
    SumPart(lists, map lid | lid in lists && lid.coll != c :: lists[lid], Entry(o, co));
  }

  lemma TerminateBalanced(st: State, c: Cid)
    requires Balanced(st, multiset{}, None) && Registered(st.cs) && forall k :: Data(st.cs.lists, c, k) == []
    ensures Balanced(Terminate(st, c), multiset{}, None)
  {
    forall lid | lid in st.cs.lists && lid.coll == c ensures st.cs.lists[lid].data == [] {
      assert Data(st.cs.lists, c, lid.kind) == [];
    }
    var r := Terminate(st, c);
    hide InLinks, Entries;
    forall p, cls ensures Balance(r, p, cls) == Balance(st, p, cls) {
      WithoutListsEntries(st.cs.lists, c, p, true);
      WithoutListsEntries(st.cs.lists, c, p, false);
    }
    hide Balance;
  }

  lemma TerminateCounts(st: State, c: Cid)
    requires Struct(st) && c in st.cs.forward && Finished(st.cs, c)
    ensures Counted(Terminate(st, c).collector, Terminate(st, c).cs)
  {
    hide LinksShape, Registered, Wired, Pointing, Listed;
    FinishedMeans(st, c);
    var r := Terminate(st, c);
    forall x | x in r.cs.forward ensures RefBalance(r.collector, r.cs, x) == 0 && StoreBalance(r.cs, x) == 0 {
      assert RefBalance(st.collector, st.cs, x) == 0 && StoreBalance(st.cs, x) == 0;
      SumRemove(st.cs.forward, PointsTo(x), c);
      forall k ensures ListAt(r.cs.lists, Lid(x, k)) == ListAt(st.cs.lists, Lid(x, k)) {}
    }
  }

  lemma TerminateStruct(st: State, c: Cid)
    requires Struct(st) && c in st.cs.forward && Finished(st.cs, c)
    ensures Struct(Terminate(st, c))
    ensures forall o :: GroupOf(Terminate(st, c), o) == GroupOf(st, o)
  {
    hide LinksShape, Counted, Registered, Wired, Root, Finished, Pointing, Listed, WithoutColl;
    FinishedMeans(st, c);
    TerminateCounts(st, c);
    WithoutRoots(st.cs, c);
    TerminatePointers(st, c);
  }

  lemma TerminatePointers(st: State, c: Cid)
    requires Registered(st.cs) && Pointing(st.collector, st.cs.forward) && Listed(st.g.objs, st.cs.lists)
    requires forall o :: o in st.collector ==> st.collector[o] != Some(c)
    requires forall d :: d in st.cs.forward && d != c ==> Root(WithoutColl(st.cs, c).forward, d) == Root(st.cs.forward, d)
    ensures var r := Terminate(st, c);
      Pointing(r.collector, r.cs.forward) && Listed(r.g.objs, r.cs.lists) && forall o :: GroupOf(r, o) == GroupOf(st, o)
  {
    hide Root, Forest;
  }

  lemma WithoutRoots(cs: Collecting, c: Cid)
    requires Registered(cs) && Wired(cs) && c in cs.forward && forall d :: d in cs.forward ==> cs.forward[d] != Some(c)
    ensures var r := WithoutColl(cs, c);
      Registered(r) && Wired(r) && forall d :: d in cs.forward && d != c ==> Root(r.forward, d) == Root(cs.forward, d)
  {
    RegisteredIsForest(cs);
    hide Registered, Wired, WithoutColl, Forest;
    WithoutRegistered(cs, c);
    WithoutWired(cs, c);
  }

  lemma RegisteredIsForest(cs: Collecting)
    requires Registered(cs)
    ensures Forest(cs.forward)
  {
  }

  lemma WithoutRegistered(cs: Collecting, c: Cid)
    requires Registered(cs) && c in cs.forward && forall d :: d in cs.forward ==> cs.forward[d] != Some(c)
    ensures var r := WithoutColl(cs, c);
      Registered(r) && forall d :: d in cs.forward && d != c ==> Root(r.forward, d) == Root(cs.forward, d)
  {
    RepRemove(cs.forward, c);
    hide Forest;
  }

  lemma WithoutWired(cs: Collecting, c: Cid)
    requires Wired(cs) && Forest(cs.forward) && c in cs.forward
    ensures Wired(WithoutColl(cs, c))
  {
    if cs.forward[c].Some? {
      ForwardTarget(cs.forward, c);
    }
    hide Forest;
    assert WithoutColl(cs, c).counter.Keys == WithoutColl(cs, c).forward.Keys;
  }

  lemma ForwardTarget(f: Forwards, c: Cid)
    requires Forest(f) && c in f && f[c].Some?
    ensures f[c].value in f && f[c].value != c
  {
    var (h, b) := Ranking(f);
  }

  lemma TerminateKeeps(st: State, c: Cid)
    requires Inv(st) && c in st.cs.forward && Finished(st.cs, c)
    ensures Inv(Terminate(st, c))
  {
    hide LinksShape, Wired, Pointing, Listed, Counted, Acyclic, Positive, Anchored, Uniform, Homed, Local, Scheduled, HeldOrCleaned,
         Balanced, GroupOf;
    FinishedMeans(st, c);
    TerminateStruct(st, c);
    TerminateBalanced(st, c);
    TerminateGroups(st, c);
    TerminateCountsFrame(st, c);
  }

  lemma TerminateCountsFrame(st: State, c: Cid)
    requires c in st.cs.forward && Positive(st.g, st.count, st.tasks) && Anchored(st.count, st.collector, st.tasks, multiset{})
    requires Scheduled(st.g, st.count, st.cs.forward, st.tasks)
    ensures var r := Terminate(st, c);
      Positive(r.g, r.count, r.tasks) && Anchored(r.count, r.collector, r.tasks, multiset{}) &&
      Scheduled(r.g, r.count, r.cs.forward, r.tasks)
  {
    forall o ensures Doomed(Terminate(st, c).tasks, o) == Doomed(st.tasks, o) {}
  }

  lemma TerminateGroups(st: State, c: Cid)
    requires forall o :: GroupOf(Terminate(st, c), o) == GroupOf(st, o)
    requires forall k :: Data(st.cs.lists, c, k) == []
    requires Homed(st.collector, st.cs.forward, st.cs.lists) && Local(st.g.links, st.collector, st.cs.forward)
    requires HeldOrCleaned(st.g, st.collector, st.cs, st.tasks, AtRest)
    ensures var r := Terminate(st, c);
      Homed(r.collector, r.cs.forward, r.cs.lists) && Local(r.g.links, r.collector, r.cs.forward) &&
      HeldOrCleaned(r.g, r.collector, r.cs, r.tasks, AtRest)
  {
    var r := Terminate(st, c);
    forall o ensures Group(r.collector, r.cs.forward, o) == Group(st.collector, st.cs.forward, o) {
      assert GroupOf(r, o) == GroupOf(st, o);
    }
    forall d, k ensures Data(r.cs.lists, d, k) == Data(st.cs.lists, d, k) {}
    hide Group, Data;
  }

  // ---- collector_run ----

  lemma RunStart(st: State, c: Cid)
    requires Inv(st) && c in st.cs.forward
    ensures MergedInv(st, c)
  {
    hide Struct, Homed, Local, Positive, Anchored, Scheduled, Uniform, Acyclic, HeldOrCleaned, Balanced;
    HeldMode(st, AtRest, CollectMode(c, None, None));
  }

  /** The four loops of collector_run after the waiting check and the one over
      the merged list. */
  ghost function Collection(st: State, c: Cid): (r: State)
    requires Inv(st) && c in st.cs.forward
    ensures CleanInv(r, c) && forall k :: Data(r.cs.lists, c, k) == []
    ensures Inv(r) && Spared(st.g, r.g) && r.g.objs == st.g.objs
  {
    hide *;
    RunStart(st, c);
    var s0 := MergedLoop(st, c);
    var s1 := CollectLoop(s0, c);
    RecoveryStart(s1, c);
    var s2 := RecoverLoop(s1, c);
    RebuildingStart(s2, c);
    var s3 := RebuildLoop(s2, c);
    CleanStart(s3, c);
    var r := CleanLoop(s3, c);
    CollectionEnd(st, s0, s1, s2, s3, c);
    r
  }

  lemma RebuildingStart(st: State, c: Cid)
    requires RecoveryInv(st, c) && Data(st.cs.lists, c, Recovery) == []
    ensures RebuildingInv(st, c)
  {
  }

  lemma CollectionEnd(st: State, s0: State, s1: State, s2: State, s3: State, c: Cid)
    requires Inv(st) && s0.g == st.g && SameTargets(s0.g, s1.g) && SameTargets(s1.g, s2.g) && SameTargets(s2.g, s3.g)
    requires CleanInv(s3, c)
    ensures var r := CleanLoop(s3, c);
      Inv(r) && Spared(st.g, r.g) && r.g.objs == st.g.objs && forall k :: Data(r.cs.lists, c, k) == []
  {
    hide Sane, Balanced, CleanLoop, Spared, Dead;
    var r := CleanLoop(s3, c);
    CleanEnd(r, c);
    EmptyLists(r, c);
    CleanLoopSpared(s3, c);
    SameTargetsSpared(s0.g, s1.g);
    SameTargetsSpared(s1.g, s2.g);
    SameTargetsSpared(s2.g, s3.g);
    SparedTrans(s0.g, s1.g, s2.g);
    SparedTrans(s0.g, s2.g, s3.g);
    SparedTrans(s0.g, s3.g, r.g);
    SparedClaims(st.g, r.g);
  }

  lemma SparedClaims(a: Graph, b: Graph)
    requires Spared(a, b)
    ensures a.claims == b.claims
  {
  }

  /** collector_run */
  ghost function CollectorRun(st: State, c: Cid): (r: State)
    requires Inv(st) && c in st.cs.forward
    ensures Inv(r) && Spared(st.g, r.g) && r.g.objs == st.g.objs
  {
    SparedRefl(st.g);
    if Waiting(st.cs, c) then st
    else
      var r := Collection(st, c);
      if Finished(r.cs, c) then
        RunEnds(r, c);
        Terminate(r, c)
      else r
  }

  lemma RunEnds(st: State, c: Cid)
    requires CleanInv(st, c) && Inv(st) && Finished(st.cs, c)
    ensures Inv(Terminate(st, c)) && Terminate(st, c).g == st.g
  {
    TerminateKeeps(st, c);
  }
}

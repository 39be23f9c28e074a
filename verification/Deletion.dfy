/** The delete task: an object that nobody refers to gives up its links and its memory. */
module Deletion {
  import opened Wrappers
  import opened Forwarding
  import opened Sums
  import opened Model
  import opened Conservation
  import opened Invariant
  import opened Keeping
  import opened Phantomizing
  import opened CollectPhase
  import opened RecoverPhase
  import opened CleanPhase
  import opened Reach
  import opened Runs

  // ---- Giving up plain links ----

  lemma LooseCounts(st: State, loose: multiset<Ref>, hand: Option<Oid>, o: Oid, cls: Class)
    requires Balanced(st, loose, hand) && o in st.g.objs && loose[Ref(o, cls)] > 0
    ensures Get(st.Num(o), cls) >= 1
  {
    hide InLinks, Entries;
    assert Balance(st, o, cls) >= 1;
  }

  /** object_dec on a reference that is counted but no longer stored. */
  lemma LooseDecKeeps(st: State, t: Oid, w: bool, loose: multiset<Ref>)
    requires Sane(st, AtRest) && Balanced(st, loose + multiset{Ref(t, Bit(w))}, None) && t in st.g.objs
    ensures var r := Dec(st, t, w); Sane(r, AtRest) && Balanced(r, loose, None) && st.tasks <= r.tasks
  {
    var all := loose + multiset{Ref(t, Bit(w))};
    LooseCounts(st, all, None, t, Bit(w));
    DecTasks(st, t, w);
    LooseDecBalanced(st, t, w, loose);
    hide Homed, Local, Positive, Anchored, Scheduled, Uniform, Acyclic, HeldOrCleaned, LinksShape, Registered, Wired, Pointing, Listed,
         Counted, Held, Settled, Balanced, Dec;
    CountsNonneg(st, all, None, t);
    if Held(st.collector, st.cs, None, t) {
      HeldCounted(st, all, None, t);
    }
    DecKeeps(st, t, w, AtRest);
  }

  lemma LooseDecBalanced(st: State, t: Oid, w: bool, loose: multiset<Ref>)
    requires Registered(st.cs) && Balanced(st, loose + multiset{Ref(t, Bit(w))}, None)
    ensures Balanced(Dec(st, t, w), loose, None)
  {
    hide Balance, Dec, Registered;
    forall p, cls | p in st.g.objs ensures Balance(Dec(st, t, w), p, cls) == loose[Ref(p, cls)] {
      DecBalance(st, t, w, p, cls);
      assert Balance(st, p, cls) == (loose + multiset{Ref(t, Bit(w))})[Ref(p, cls)];
    }
  }

  lemma DecTasks(st: State, t: Oid, w: bool)
    ensures st.tasks <= Dec(st, t, w).tasks
  {
    hide SetColl, Append, Root;
  }

  lemma {:induction false} PlainDecsKeep(st: State, ls: seq<Link>)
    requires Sane(st, AtRest) && Balanced(st, LooseOf(ls), None)
    requires forall l :: l in ls ==> !l.phantomized && l.target in st.g.objs
    ensures var r := LinkDecs(st, ls);
      Sane(r, AtRest) && Balanced(r, multiset{}, None) && r.g == st.g && st.tasks <= r.tasks
    decreases |ls|
  {
    hide Sane, Balanced, Dec;
    if ls != [] {
      var l := ls[0];
      assert l in ls;
      var loose := LooseOf(ls[1..]);
      assert LooseOf(ls) == loose + multiset{Ref(l.target, Bit(l.which))};
      LooseDecKeeps(st, l.target, l.which, loose);
      PlainDecsKeep(LinkDec(st, l), ls[1..]);
    }
  }

  // ---- The task ----

  /** object_remove_links on an object about to be deleted. */
  lemma RemoveLinksKeeps(st: State, o: Oid)
    requires Inv(st) && Doomed(st.tasks, o)
    ensures var r := RemoveLinks(st, o);
      Sane(r, AtRest) && Balanced(r, multiset{}, None) && r.g == Detach(st, o).g && st.tasks <= r.tasks && o in st.g.objs
  {
    var ls := Picked(st.g.links, o, st.g.Keys(o));
    DoomedIn(st, o);
    StripLinks(st, o, AtRest);
    DetachKeeps(st, o, AtRest);
    DoomedPlain(st, o);
    hide Sane, Balanced, LinkDecs, Picked, Detach;
    DetachObjs(st, o);
    PlainDecsKeep(Detach(st, o), ls);
  }

  lemma DetachObjs(st: State, o: Oid)
    ensures Detach(st, o).g.objs == st.g.objs && Detach(st, o).tasks == st.tasks
    ensures Detach(st, o).g.Keys(o) == [] && Detach(st, o).g.claims == st.g.claims
  {
  }

  lemma DoomedIn(st: State, o: Oid)
    requires Sane(st, AtRest) && Doomed(st.tasks, o)
    ensures o in st.g.objs && o in st.count && st.count[o].Idle() && st.tasks[DeleteObject(o)] == 1
    ensures st.g.Ph(o) ==> st.g.Keys(o) == []
  {
    hide Homed, Local, Positive, Anchored, Uniform, Acyclic, HeldOrCleaned, LinksShape, Registered, Wired, Pointing, Listed, Counted, Settled;
  }

  lemma DoomedPlain(st: State, o: Oid)
    requires Sane(st, AtRest) && Balanced(st, multiset{}, None) && Doomed(st.tasks, o) && o in st.g.objs
    ensures forall l :: l in Picked(st.g.links, o, st.g.Keys(o)) ==> !l.phantomized && l.target in st.g.objs
  {
    StripLinks(st, o, AtRest);
    DoomedIn(st, o);
    hide Sane, Balanced;
  }

  /** The memory of an object without links, in-links and entries is released. */
  lemma ReleaseKeeps(st: State, o: Oid)
    requires Inv(st) && Doomed(st.tasks, o) && st.g.Keys(o) == []
    ensures Inv(Release(st, o))
  {
    DoomedIn(st, o);
    IdleAlone(st, o);
    hide LinksShape, Registered, Wired, Pointing, Listed, Counted, Acyclic, Positive, Anchored, Uniform, Homed, Local, Scheduled,
         HeldOrCleaned, Balanced, Release, Unlisted;
    ReleaseStruct(st, o);
    ReleaseBalanced(st, o);
    ReleaseGroups(st, o);
    ReleaseGraph(st, o);
    ReleaseCounts(st, o);
    ReleaseFrame(st, o);
  }

  lemma ReleaseFrame(st: State, o: Oid)
    ensures var r := Release(st, o);
      r.g.objs == st.g.objs - {o} && r.g.claims == st.g.claims && r.g.links == st.g.links && r.cs.lists == st.cs.lists &&
      r.cs.forward == st.cs.forward && r.tasks == st.tasks - multiset{DeleteObject(o)}
  {
    hide SetColl;
  }

  lemma ReleaseStruct(st: State, o: Oid)
    requires Struct(st) && o in st.g.objs && st.g.Keys(o) == [] && Unlisted(st.cs.lists, o) && Settled(st.cs.lists, {})
    requires forall s :: s in st.g.links ==> st.g.links[s].target != o
    ensures Struct(Release(st, o))
  {
    SetCollStruct(st, o, None);
    var s1 := SetColl(st, o, None);
    var r := Release(st, o);
    assert s1.collector[o] == None;
    hide SetColl;
    ReleaseShape(st, o);
    ReleaseCounted(s1, o);
    ReleaseListed(st, o);
    hide LinksShape, Listed, Counted, Unlisted, Settled;
    assert Registered(r.cs) by {
      RegisteredFrame(s1.cs, r.cs);
    }
    hide Registered;
  }

  lemma ReleaseListed(st: State, o: Oid)
    requires Listed(st.g.objs, st.cs.lists) && Unlisted(st.cs.lists, o) && Settled(st.cs.lists, {})
    ensures Listed(st.g.objs - {o}, st.cs.lists)
  {
  }

  lemma ReleaseShape(st: State, o: Oid)
    requires LinksShape(st.g) && st.g.Keys(o) == [] && forall s :: s in st.g.links ==> st.g.links[s].target != o
    ensures LinksShape(Release(st, o).g)
  {
    hide SetColl;
  }

  lemma ReleaseCounted(st: State, o: Oid)
    requires Counted(st.collector, st.cs) && o in st.collector && st.collector[o].None?
    ensures Counted(st.collector - {o}, st.cs)
  {
    hide StoreBalance;
    forall x | x in st.cs.forward ensures RefBalance(st.collector - {o}, st.cs, x) == RefBalance(st.collector, st.cs, x) {
      SumRemove(st.collector, PointsTo(x), o);
    }
    hide RefBalance;
  }

  lemma ReleaseBalanced(st: State, o: Oid)
    requires Balanced(st, multiset{}, None)
    ensures Balanced(Release(st, o), multiset{}, None)
  {
    hide InLinks, Entries, SetColl;
    var r := Release(st, o);
    forall p, cls | p in r.g.objs ensures Balance(r, p, cls) == 0 {
      assert Balance(st, p, cls) == 0;
      assert r.Num(p) == st.Num(p) && r.Which(p) == st.Which(p);
    }
  }

  lemma ReleaseGroups(st: State, o: Oid)
    requires Unlisted(st.cs.lists, o) && Struct(st) && o in st.g.objs && st.g.Keys(o) == []
    requires forall s :: s in st.g.links ==> st.g.links[s].target != o
    requires Homed(st.collector, st.cs.forward, st.cs.lists) && Local(st.g.links, st.collector, st.cs.forward)
    requires HeldOrCleaned(st.g, st.collector, st.cs, st.tasks, AtRest)
    ensures var r := Release(st, o);
      Homed(r.collector, r.cs.forward, r.cs.lists) && Local(r.g.links, r.collector, r.cs.forward) &&
      HeldOrCleaned(r.g, r.collector, r.cs, r.tasks, AtRest)
  {
    var r := Release(st, o);
    ReleaseFrame(st, o);
    hide Registered, Wired, Pointing, Listed, Counted, SetColl;
    forall p ensures p != o ==> Group(r.collector, r.cs.forward, p) == Group(st.collector, st.cs.forward, p) {}
    forall p ensures p in r.g.objs ==> p != o && r.g.Ph(p) == st.g.Ph(p) && Doomed(r.tasks, p) == Doomed(st.tasks, p) {}
    assert forall s :: s in r.g.links ==> s.src != o && r.g.links[s].target != o;
    hide Group, Domains, LinksShape, Release, Doomed;
  }

  lemma ReleaseGraph(st: State, o: Oid)
    requires LinksShape(st.g) && Acyclic(st.g) && Uniform(st.g, None) && st.g.Keys(o) == [] && o in st.g.objs
    requires forall s :: s in st.g.links ==> st.g.links[s].target != o
    ensures Acyclic(Release(st, o).g) && Uniform(Release(st, o).g, None)
  {
    hide SetColl;
    var r := Release(st, o);
    assert forall s :: s in st.g.links ==> s.src != o;
    hide LinksShape;
    var rank: map<Oid, nat>, bound: nat :| StrongRank(st.g, rank, bound);
    forall s | StrongEdge(r.g, s) ensures StrongEdge(st.g, s) {}
    assert StrongRank(r.g, rank, bound);
  }

  lemma ReleaseCounts(st: State, o: Oid)
    requires Positive(st.g, st.count, st.tasks) && Anchored(st.count, st.collector, st.tasks, multiset{})
    requires Scheduled(st.g, st.count, st.cs.forward, st.tasks) && Doomed(st.tasks, o) && o in st.collector
    ensures var r := Release(st, o);
      Positive(r.g, r.count, r.tasks) && Anchored(r.count, r.collector, r.tasks, multiset{}) &&
      Scheduled(r.g, r.count, r.cs.forward, r.tasks)
  {
    var r := Release(st, o);
    hide SetColl;
    forall p ensures p != o ==> Doomed(r.tasks, p) == Doomed(st.tasks, p) {}
    assert !Doomed(r.tasks, o);
    assert forall p :: p != o ==> r.Which(p) == st.Which(p) && r.g.Ph(p) == st.g.Ph(p) && r.g.Keys(p) == st.g.Keys(p);
  }

  lemma DeleteTaskKeeps(st: State, o: Oid)
    requires Inv(st) && Doomed(st.tasks, o)
    ensures var r := DeleteTask(st, o);
      Inv(r) && Spared(st.g, r.g) && r.g.objs == st.g.objs - {o} && o in st.g.objs && !Reachable(st.g, o)
  {
    var s1 := RemoveLinks(st, o);
    DoomedUnreachable(st, AtRest, o);
    RemoveLinksKeeps(st, o);
    DetachObjs(st, o);
    hide Sane, Balanced, Release, RemoveLinks, Detach, Spared, Reachable;
    ReleaseKeeps(s1, o);
    ReleaseFrame(s1, o);
    DeleteSpared(st, DeleteTask(st, o), o);
  }

  lemma DeleteSpared(st: State, r: State, o: Oid)
    requires !Reachable(st.g, o) && r.g.claims == st.g.claims && r.g.objs == st.g.objs - {o} && r.g.links == Detach(st, o).g.links
    ensures Spared(st.g, r.g)
  {
    hide Reachable;
  }
}

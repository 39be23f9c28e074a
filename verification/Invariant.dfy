/** The invariants of the heap. Each predicate looks only at the components it
    speaks about, so that an operation which leaves those components alone
    keeps the predicate for free. */
module Invariant {
  import opened Sequences
  import opened Wrappers
  import opened Forwarding
  import opened Model
  import opened Conservation

  // ---- Well-formedness of the pointer structure ----

  ghost predicate Domains(st: State)
  {
    && st.g.which.Keys == st.g.objs
    && st.g.phantomized.Keys == st.g.objs
    && st.g.fields.Keys == st.g.objs
    && st.count.Keys == st.g.objs
    && st.collector.Keys == st.g.objs
  }

  /** The links table of an object holds exactly the links of its fields. */
  ghost predicate LinksShape(g: Graph)
  {
    && (forall s :: s in g.links <==> s.src in g.objs && s.field in g.Keys(s.src))
    && (forall s :: s in g.links ==> g.links[s].target in g.objs)
    && (forall o :: o in g.objs ==> NoDup(g.Keys(o)))
  }

  /** The lists of a collector are forwarded exactly when the collector is, and
      a forwarded list is empty. */
  ghost predicate Wired(cs: Collecting)
  {
    && cs.counter.Keys == cs.forward.Keys
    && (forall lid :: lid in cs.lists && lid.coll in cs.forward ==>
          cs.lists[lid].forward ==
            (if cs.forward[lid.coll].None? then None
             else Some(Lid(cs.forward[lid.coll].value, ForwardKind(lid.kind)))))
    && (forall lid :: lid in cs.lists && lid.coll in cs.forward && cs.forward[lid.coll].Some? ==> cs.lists[lid].data == [])
  }

  ghost predicate Pointing(collector: Collectors, forward: Forwards)
  {
    forall o :: o in collector && collector[o].Some? ==> collector[o].value in forward
  }

  ghost predicate Listed(objs: set<Oid>, lists: Lists)
  {
    forall lid, o :: lid in lists && o in lists[lid].data ==> o in objs
  }

  ghost predicate Struct(st: State)
  {
    && Domains(st)
    && LinksShape(st.g)
    && Registered(st.cs)
    && Wired(st.cs)
    && Pointing(st.collector, st.cs.forward)
    && Listed(st.g.objs, st.cs.lists)
    && Counted(st.collector, st.cs)
  }

  // ---- Groups ----

  /** The collector group of an object: the end of its collector's chain. */
  ghost function Group(collector: Collectors, f: Forwards, o: Oid): Option<Cid>
  {
    if o in collector && collector[o].Some? then Some(Root(f, collector[o].value)) else None
  }

  /** Whoever is listed for recovery, merging or cleaning belongs to that collector. */
  ghost predicate Homed(collector: Collectors, f: Forwards, lists: Lists)
  {
    forall lid, o :: lid in lists && lid.kind != Rebuild && o in lists[lid].data ==>
      Group(collector, f, o) == Some(lid.coll)
  }

  /** A phantom link stays within one group. */
  ghost predicate Local(links: Links, collector: Collectors, f: Forwards)
  {
    forall s :: s in links && links[s].phantomized ==>
      Group(collector, f, s.src).Some? &&
      Group(collector, f, s.src) == Group(collector, f, links[s].target)
  }

  ghost function Data(lists: Lists, c: Cid, k: Kind): seq<Oid>
  {
    ListAt(lists, Lid(c, k)).data
  }

  /** `o` waits in the merged, recovery or clean list of its group, or is in the
      hands of the running collector. */
  ghost predicate Held(collector: Collectors, cs: Collecting, hand: Option<Oid>, o: Oid)
  {
    var c := Group(collector, cs.forward, o);
    c.Some? && (hand == Some(o) || o in Data(cs.lists, c.value, Merged)
                || o in Data(cs.lists, c.value, Recovery) || o in Data(cs.lists, c.value, Clean))
  }

  // ---- Counts ----

  ghost predicate Doomed(tasks: multiset<Task>, o: Oid)
  {
    tasks[DeleteObject(o)] > 0
  }

  ghost predicate PositiveAt(w: bool, ph: bool, n: Count)
  {
    (!ph ==> n.Plain(w) > 0) && (n.Plain(!w) > 0 ==> n.Plain(w) > 0)
  }

  /** Every object that is neither phantomized nor about to be deleted has a
      positive strong count, and nobody has weak references only. */
  ghost predicate Positive(g: Graph, count: map<Oid, Count>, tasks: multiset<Task>)
  {
    forall o :: o in count && !Doomed(tasks, o) ==> PositiveAt(g.Which(o), g.Ph(o), count[o])
  }

  /** An object has a collector exactly when it has phantom references; the
      detached phantom references in `lp` do not count as such. */
  ghost predicate Anchored(count: map<Oid, Count>, collector: Collectors, tasks: multiset<Task>, lp: multiset<Oid>)
  {
    forall o :: o in count && o in collector ==>
      (count[o].n2 > lp[o] ==> collector[o].Some?) &&
      (collector[o].Some? && !Doomed(tasks, o) ==> count[o].n2 > 0)
  }

  /** Every collector has its task; every object about to be deleted has one
      delete task, no references left, and if phantomized no links either. */
  ghost predicate Scheduled(g: Graph, count: map<Oid, Count>, forward: Forwards, tasks: multiset<Task>)
  {
    && (forall c :: tasks[RunCollector(c)] == if c in forward then 1 else 0)
    && (forall o :: Doomed(tasks, o) ==>
          tasks[DeleteObject(o)] == 1 && o in count && count[o].Idle() && (g.Ph(o) ==> g.Keys(o) == []))
  }

  // ---- Phantoms and strong links ----

  /** An object is phantomized exactly when its links are; `busy` is being changed. */
  ghost predicate Uniform(g: Graph, busy: Option<Oid>)
  {
    forall s :: s in g.links && busy != Some(s.src) ==> g.links[s].phantomized == g.Ph(s.src)
  }

  ghost predicate StrongEdge(g: Graph, s: Slot)
  {
    s in g.links && !g.links[s].phantomized && !g.Ph(s.src) && g.links[s].which == g.Which(g.links[s].target)
  }

  ghost predicate StrongRank(g: Graph, rank: map<Oid, nat>, bound: nat)
  {
    && g.objs <= rank.Keys
    && (forall o :: o in rank ==> rank[o] <= bound)
    && (forall s :: StrongEdge(g, s) && s.src in rank && g.links[s].target in rank ==> rank[s.src] < rank[g.links[s].target])
  }

  /** Strong links form no cycle. */
  ghost predicate Acyclic(g: Graph)
  {
    exists rank: map<Oid, nat>, bound: nat :: StrongRank(g, rank, bound)
  }

  // ---- The invariant ----

  /** What is allowed to be unfinished: detached phantom references, the entry
      in the hands of a running collector, the object whose links are being
      rewritten, the collector whose clean phase is under way, and the recovery,
      rebuild and clean lists in use. */
  datatype Mode = Mode(lp: multiset<Oid>, hand: Option<Oid>, busy: Option<Oid>, lax: Option<Cid>, active: set<Lid>)

  const AtRest := Mode(multiset{}, None, None, None, {})

  /** Recovery, rebuild and clean lists are empty unless they are in use. */
  ghost predicate Settled(lists: Lists, active: set<Lid>)
  {
    forall lid :: lid in lists && lid.kind != Collect && lid.kind != Merged && lid !in active ==> lists[lid].data == []
  }

  /** A phantomized object is held by its collector until it has been cleaned. */
  ghost predicate HeldOrCleaned(g: Graph, collector: Collectors, cs: Collecting, tasks: multiset<Task>, m: Mode)
  {
    forall o :: o in g.objs && g.Ph(o) && !Doomed(tasks, o) ==>
      Held(collector, cs, m.hand, o) ||
      (m.lax.Some? && Group(collector, cs.forward, o) == m.lax && g.Keys(o) == [])
  }

  ghost predicate Sane(st: State, m: Mode)
  {
    && Struct(st)
    && Homed(st.collector, st.cs.forward, st.cs.lists)
    && Local(st.g.links, st.collector, st.cs.forward)
    && Positive(st.g, st.count, st.tasks)
    && Anchored(st.count, st.collector, st.tasks, m.lp)
    && Scheduled(st.g, st.count, st.cs.forward, st.tasks)
    && Uniform(st.g, m.busy)
    && Acyclic(st.g)
    && HeldOrCleaned(st.g, st.collector, st.cs, st.tasks, m)
    && Settled(st.cs.lists, m.active)
  }
}

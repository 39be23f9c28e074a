/** The recovery and rebuild phases of collector_run: reachable phantoms come
    back to life, link by link. */
module RecoverPhase {
  import opened Wrappers
  import opened Forwarding
  import opened Sums
  import opened Model
  import opened Conservation
  import opened Invariant
  import opened Keeping
  import opened Phantomizing
  import opened CollectPhase

  // ---- Rebuilding one link ----

  /** What object_rebuild_link does before it queues the target. */
  ghost function Rebuilt(st: State, s: Slot): State
    requires s in st.g.links
  {
    var t := st.g.links[s].target;
    var w := RebuiltWhich(st.g, s, t);
    var n := st.Num(t).AddPlain(w, 1).AddPhantom(-1);
    var s1 := PutCount(st, t, n);
    PutLink(if n.n2 == 0 then SetColl(s1, t, None) else s1, s, Link(t, w, false))
  }

  /** The link `s` of the busy object, which has just stopped being a phantom, is
      still a phantom and is about to be rebuilt. */
  ghost predicate Rebuilding(st: State, s: Slot, m: Mode)
  {
    && Sane(st, m) && Balanced(st, multiset{}, m.hand)
    && s in st.g.links && st.g.links[s].phantomized && m.busy == Some(s.src)
    && m.lp == multiset{} && m.lax.None?
    && !st.g.Ph(s.src) && Held(st.collector, st.cs, m.hand, s.src)
  }

  /** The target of a phantom link has a phantom count, is not about to be
      deleted and belongs to the group of the source. */
  lemma RebuildTarget(st: State, s: Slot, m: Mode)
    requires Rebuilding(st, s, m)
    ensures var t := st.g.links[s].target;
      s.src in st.g.objs && t in st.g.objs && t in st.count && t in st.collector && st.count[t].n2 >= 1 &&
      st.count[t].n0 >= 0 && st.count[t].n1 >= 0 &&
      !Doomed(st.tasks, t) && GroupOf(st, t).Some? && GroupOf(st, t) == GroupOf(st, s.src) &&
      !Doomed(st.tasks, s.src) && PositiveAt(st.Which(s.src), false, st.Num(s.src))
  {
    var t := st.g.links[s].target;
    hide Registered, Wired, Pointing, Listed, Counted, Homed, Acyclic, Uniform, HeldOrCleaned, Anchored, Balanced, Group;
    LinkCounted(st, multiset{}, m.hand, s);
    CountsNonneg(st, multiset{}, m.hand, t);
    HeldCounted(st, multiset{}, m.hand, s.src);
    assert GroupOf(st, s.src) == GroupOf(st, t);
  }

  /** A sum of one leaves room for one entry only. */
  lemma SoleEntry<K, V>(m: map<K, V>, f: (K, V) -> nat, k: K, j: K)
    requires Sum(m, f) == 1 && k in m && f(k, m[k]) == 1 && j in m && j != k
    ensures f(j, m[j]) == 0
  {
    SumSplit(m, f, k);
    SumZero(m - {k}, f);
    assert j in m - {k};
  }

  /** If the phantom count is used up, the link was the only phantom reference. */
  lemma LastPhantomCounts(st: State, s: Slot, hand: Option<Oid>)
    requires Balanced(st, multiset{}, hand) && s in st.g.links && st.g.links[s].phantomized
    requires st.g.links[s].target in st.g.objs && st.Num(st.g.links[s].target).n2 == 1
    ensures var t := st.g.links[s].target;
      hand != Some(t) && Entries(st.cs.lists, t, false) == 0 &&
      (forall x :: x in st.g.links && x != s && st.g.links[x].phantomized ==> st.g.links[x].target != t)
  {
    var t := st.g.links[s].target;
    SumAtLeast(st.g.links, LinkInto(t, Phantom), s);
    assert Balance(st, t, Phantom) == if hand == Some(t) then 1 else 0;
    hide Entries;
    forall x | x in st.g.links && x != s && st.g.links[x].phantomized
      ensures st.g.links[x].target != t
    {
      SoleEntry(st.g.links, LinkInto(t, Phantom), s, x);
    }
  }

  ghost predicate Unlisted(lists: Lists, o: Oid)
  {
    forall lid :: lid in lists && lid.kind != Rebuild ==> o !in lists[lid].data
  }

  lemma NoEntries(lists: Lists, o: Oid)
    requires Entries(lists, o, false) == 0
    ensures Unlisted(lists, o)
  {
    forall lid | lid in lists && lid.kind != Rebuild ensures o !in lists[lid].data {
      if o in lists[lid].data {
        EntryCounted(lists, lid, o);
      }
    }
  }

  lemma NotHeld(st: State, hand: Option<Oid>, o: Oid)
    requires Unlisted(st.cs.lists, o) && hand != Some(o)
    ensures !Held(st.collector, st.cs, hand, o)
  {
    hide Group;
  }

  /** No phantom link but `s` touches `o`. */
  ghost predicate OnlyPhantom(links: Links, s: Slot, o: Oid)
  {
    forall x :: x in links && x != s && links[x].phantomized ==> links[x].target != o && x.src != o
  }

  lemma LastPhantom(st: State, s: Slot, m: Mode)
    requires Rebuilding(st, s, m) && st.Num(st.g.links[s].target).n2 == 1
    ensures var t := st.g.links[s].target;
      t != s.src && !st.g.Ph(t) && m.hand != Some(t) && OnlyPhantom(st.g.links, s, t) && Unlisted(st.cs.lists, t)
  {
    var t := st.g.links[s].target;
    hide LinksShape, Registered, Wired, Pointing, Listed, Counted, Homed, Local, Acyclic, Scheduled, Positive, Anchored, Balanced, Held,
         Doomed, Unlisted, PositiveAt, GroupOf, Entries, Settled;
    RebuildTarget(st, s, m);
    LastPhantomCounts(st, s, m.hand);
    NoEntries(st.cs.lists, t);
    NotHeld(st, m.hand, t);
    assert !st.g.Ph(t);
  }

  lemma RebuiltBalanced(st: State, s: Slot, hand: Option<Oid>)
    requires Balanced(st, multiset{}, hand) && s in st.g.links && st.g.links[s].phantomized
    ensures Balanced(Rebuilt(st, s), multiset{}, hand)
  {
    hide Balance, SetColl, PutCount, RebuiltWhich;
    forall p, cls ensures Balance(Rebuilt(st, s), p, cls) == Balance(st, p, cls) {
      RebuiltBalance(st, s, p, cls);
    }
    assert Rebuilt(st, s).g.objs == st.g.objs;
  }

  lemma MovedGet(n: Count, w: bool, cls: Class)
    ensures Get(n.AddPlain(w, 1).AddPhantom(-1), cls) == Get(n, cls) + if cls == Bit(w) then 1 else if cls == Phantom then -1 else 0
  {
  }

  lemma RebuiltBalance(st: State, s: Slot, p: Oid, cls: Class)
    requires s in st.g.links && st.g.links[s].phantomized
    ensures Balance(Rebuilt(st, s), p, cls) == Balance(st, p, cls)
  {
    hide Balance, SetColl, PutLink, PutCount, RebuiltWhich, Get, st.Num;
    var t := st.g.links[s].target;
    var w := RebuiltWhich(st.g, s, t);
    MovedGet(st.Num(t), w, cls);
    var n := st.Num(t).AddPlain(w, 1).AddPhantom(-1);
    var s1 := PutCount(st, t, n);
    var s2 := if n.n2 == 0 then SetColl(s1, t, None) else s1;
    PutCountBalance(st, t, n, p, cls);
    SetCollBalance(s1, t, None, p, cls);
    PutLinkBalance(s2, s, Link(t, w, false), p, cls);
    assert s2.g == st.g;
  }

  /** The count that object_rebuild_link gives to the target is still positive
      where it has to be: only live objects get weak links. */
  lemma RebuiltPositive(st: State, s: Slot, m: Mode)
    requires Rebuilding(st, s, m)
    ensures var t := st.g.links[s].target;
      PositiveAt(st.Which(t), st.g.Ph(t), st.Num(t).AddPlain(RebuiltWhich(st.g, s, t), 1).AddPhantom(-1))
  {
    RebuildTarget(st, s, m);
    hide Struct, Homed, Local, Acyclic, Scheduled, Anchored, Balanced, Held, Uniform, HeldOrCleaned, GroupOf;
    assert st.g.links[s].target in st.count;
  }

  lemma AcyclicRebuilt(g: Graph, s: Slot, m: Mode)
    requires Acyclic(g) && LinksShape(g) && s in g.links && g.links[s].phantomized
    ensures var t := g.links[s].target;
      Acyclic(g.(links := g.links[s := Link(t, RebuiltWhich(g, s, t), false)]))
  {
    var t := g.links[s].target;
    var g' := g.(links := g.links[s := Link(t, RebuiltWhich(g, s, t), false)]);
    var rank: map<Oid, nat>, bound: nat :| StrongRank(g, rank, bound);
    if StrongEdge(g', s) {
      assert t != s.src && (g.Ph(t) || g.Keys(t) == []);
      var rank' := rank[t := bound + 1];
      forall x | StrongEdge(g', x) && x.src in rank' && g'.links[x].target in rank'
        ensures rank'[x.src] < rank'[g'.links[x].target]
      {
        assert x.src != t;
        if g'.links[x].target != t {
          assert StrongEdge(g, x);
        } else {
          assert x.src in g.objs && x.src in rank;
        }
      }
      assert StrongRank(g', rank', bound + 1);
    } else {
      forall x | StrongEdge(g', x) ensures StrongEdge(g, x) && g'.links[x].target == g.links[x].target {
      }
      assert StrongRank(g', rank, bound);
    }
  }

  /** object_rebuild_link without the queueing keeps the invariant. */
  lemma RebuiltKeeps(st: State, s: Slot, m: Mode)
    requires Rebuilding(st, s, m)
    ensures var r := Rebuilt(st, s);
      Sane(r, m) && Balanced(r, multiset{}, m.hand) && r.cs.lists == st.cs.lists && r.cs.forward == st.cs.forward &&
      Held(r.collector, r.cs, m.hand, s.src) && GroupOf(r, s.src) == GroupOf(st, s.src)
  {
    hide LinksShape, Registered, Wired, Pointing, Listed, Counted, Homed, Local, Acyclic, Scheduled, Positive, Anchored, Balanced, Held,
         Doomed, Unlisted, PositiveAt, GroupOf, Entries, Settled, RebuiltWhich, HeldOrCleaned, Uniform, SetColl, OnlyPhantom;
    var t := st.g.links[s].target;
    var w := RebuiltWhich(st.g, s, t);
    var n := st.Num(t).AddPlain(w, 1).AddPhantom(-1);
    var l := Link(t, w, false);
    RebuildTarget(st, s, m);
    RebuiltBalanced(st, s, m.hand);
    RebuiltPositive(st, s, m);
    AcyclicRebuilt(st.g, s, m);
    PutCountStruct(st, t, n);
    var s1 := PutCount(st, t, n);
    if n.n2 == 0 {
      LastPhantom(st, s, m);
      SetCollStruct(s1, t, None);
      PutLinkStruct(SetColl(s1, t, None), s, l);
      LastRebuilt(st, s, n, l, m);
      SourceStays(st, Rebuilt(st, s), m.hand, s.src, t);
    } else {
      PutLinkStruct(s1, s, l);
      OtherRebuilt(st, s, n, l, m);
      SourceStays(st, Rebuilt(st, s), m.hand, s.src, t);
    }
  }

  lemma SourceStays(st: State, r: State, hand: Option<Oid>, o: Oid, t: Oid)
    requires r.cs.lists == st.cs.lists && r.cs.forward == st.cs.forward && Held(st.collector, st.cs, hand, o)
    requires r.collector == st.collector || (t != o && r.collector == st.collector[t := None])
    ensures Held(r.collector, r.cs, hand, o) && GroupOf(r, o) == GroupOf(st, o)
  {
    hide Root;
  }

  /** The target keeps its collector as long as it has phantom references. */
  lemma OtherRebuilt(st: State, s: Slot, n: Count, l: Link, m: Mode)
    requires s in st.g.links && st.g.links[s].target == l.target && l.target in st.count && !l.phantomized
    requires !Doomed(st.tasks, l.target) && !st.count[l.target].Idle() && st.count[l.target].n2 == n.n2 + 1 && n.n2 > 0
    requires PositiveAt(st.Which(l.target), st.g.Ph(l.target), n)
    requires Sane(st, m) && m.busy == Some(s.src) && m.lp == multiset{}
    ensures var r := PutLink(PutCount(st, l.target, n), s, l); RebuiltRest(r, m)
  {
    hide Struct, Acyclic, Held, Group;
    ScheduledPut(st, l.target, n);
  }

  /** The parts of the invariant that a rebuilt link touches, besides structure and acyclicity. */
  ghost predicate RebuiltRest(r: State, m: Mode)
  {
    && Homed(r.collector, r.cs.forward, r.cs.lists) && Local(r.g.links, r.collector, r.cs.forward)
    && Positive(r.g, r.count, r.tasks) && Anchored(r.count, r.collector, r.tasks, m.lp)
    && Scheduled(r.g, r.count, r.cs.forward, r.tasks) && Uniform(r.g, m.busy)
    && HeldOrCleaned(r.g, r.collector, r.cs, r.tasks, m) && Settled(r.cs.lists, m.active)
  }

  /** `t` has left its group, everyone else is where they were. */
  ghost predicate Left(st: State, r: State, t: Oid)
  {
    && GroupOf(r, t).None?
    && (forall p :: p != t ==> GroupOf(r, p) == GroupOf(st, p))
    && r.cs.lists == st.cs.lists && r.cs.forward == st.cs.forward
  }

  lemma SetCollLeft(st: State, t: Oid)
    requires t in st.collector
    ensures Left(st, SetColl(st, t, None), t)
  {
  }

  lemma LeftHomed(st: State, r: State, t: Oid)
    requires Left(st, r, t) && Unlisted(st.cs.lists, t) && Homed(st.collector, st.cs.forward, st.cs.lists)
    ensures Homed(r.collector, r.cs.forward, r.cs.lists)
  {
    hide Group;
    forall lid, p | lid in r.cs.lists && lid.kind != Rebuild && p in r.cs.lists[lid].data
      ensures Group(r.collector, r.cs.forward, p) == Some(lid.coll)
    {
      assert Group(st.collector, st.cs.forward, p) == Some(lid.coll);
      assert GroupOf(r, p) == GroupOf(st, p);
    }
  }

  lemma LeftHeld(st: State, r: State, t: Oid, m: Mode)
    requires Left(st, r, t) && !st.g.Ph(t) && r.g.phantomized == st.g.phantomized && r.g.objs == st.g.objs && r.g.fields == st.g.fields
    requires r.tasks == st.tasks && HeldOrCleaned(st.g, st.collector, st.cs, st.tasks, m)
    ensures HeldOrCleaned(r.g, r.collector, r.cs, r.tasks, m)
  {
    hide Group;
    forall p | p in r.g.objs && r.g.Ph(p) && !Doomed(r.tasks, p)
      ensures Held(r.collector, r.cs, m.hand, p) ||
        (m.lax.Some? && Group(r.collector, r.cs.forward, p) == m.lax && r.g.Keys(p) == [])
    {
      assert GroupOf(r, p) == GroupOf(st, p);
    }
  }

  /** The phantom links of `b` are phantom links of `a` that do not touch `t`. */
  ghost predicate Apart(a: Links, b: Links, t: Oid)
  {
    forall x :: x in b && b[x].phantomized ==> x in a && a[x] == b[x] && b[x].target != t && x.src != t
  }

  lemma LeftLocal(st: State, r: State, t: Oid)
    requires Left(st, r, t) && Apart(st.g.links, r.g.links, t)
    requires Local(st.g.links, st.collector, st.cs.forward)
    ensures Local(r.g.links, r.collector, r.cs.forward)
  {
    hide Group;
    forall x | x in r.g.links && r.g.links[x].phantomized
      ensures Group(r.collector, r.cs.forward, x.src).Some? &&
        Group(r.collector, r.cs.forward, x.src) == Group(r.collector, r.cs.forward, r.g.links[x].target)
    {
      assert Group(st.collector, st.cs.forward, x.src).Some? &&
        Group(st.collector, st.cs.forward, x.src) == Group(st.collector, st.cs.forward, st.g.links[x].target);
      assert GroupOf(r, x.src) == GroupOf(st, x.src);
      assert GroupOf(r, r.g.links[x].target) == GroupOf(st, r.g.links[x].target);
    }
  }

  /** The target loses its collector together with its last phantom reference. */
  lemma LastRebuilt(st: State, s: Slot, n: Count, l: Link, m: Mode)
    requires s in st.g.links && st.g.links[s].target == l.target && l.target in st.count && l.target in st.collector && !l.phantomized
    requires !Doomed(st.tasks, l.target) && !st.count[l.target].Idle() && n.n2 == 0
    requires PositiveAt(st.Which(l.target), st.g.Ph(l.target), n)
    requires l.target != s.src && !st.g.Ph(l.target) && OnlyPhantom(st.g.links, s, l.target) && Unlisted(st.cs.lists, l.target)
    requires Sane(st, m) && m.busy == Some(s.src) && m.lp == multiset{}
    ensures var r := PutLink(SetColl(PutCount(st, l.target, n), l.target, None), s, l); RebuiltRest(r, m)
  {
    hide Struct, Acyclic, Held, Group, Homed, Local, HeldOrCleaned, Left, Unlisted, OnlyPhantom, Positive, Anchored, Scheduled, Uniform,
         Apart, PositiveAt;
    var t := l.target;
    var s1 := PutCount(st, t, n);
    var r := PutLink(SetColl(s1, t, None), s, l);
    LeftFrame(st, s1, SetColl(s1, t, None), r, t);
    LeftHomed(st, r, t);
    LeftHeld(st, r, t, m);
    ApartPut(st.g.links, s, t, l);
    LeftLocal(st, r, t);
    LastCounts(st, s, n, l);
  }

  lemma ApartPut(links: Links, s: Slot, t: Oid, l: Link)
    requires OnlyPhantom(links, s, t) && !l.phantomized
    ensures Apart(links, links[s := l], t)
  {
  }

  lemma LastCounts(st: State, s: Slot, n: Count, l: Link)
    requires s in st.g.links && l.target in st.count && l.target in st.collector && !l.phantomized
    requires !Doomed(st.tasks, l.target) && !st.count[l.target].Idle() && n.n2 == 0
    requires PositiveAt(st.Which(l.target), st.g.Ph(l.target), n)
    requires Positive(st.g, st.count, st.tasks) && Anchored(st.count, st.collector, st.tasks, multiset{})
    requires Scheduled(st.g, st.count, st.cs.forward, st.tasks) && Uniform(st.g, Some(s.src))
    ensures var r := PutLink(SetColl(PutCount(st, l.target, n), l.target, None), s, l);
      Positive(r.g, r.count, r.tasks) && Anchored(r.count, r.collector, r.tasks, multiset{}) &&
      Scheduled(r.g, r.count, r.cs.forward, r.tasks) && Uniform(r.g, Some(s.src))
  {
    hide SetColl;
    ScheduledPut(st, l.target, n);
  }

  lemma LeftFrame(st: State, s1: State, s2: State, r: State, t: Oid)
    requires s1.collector == st.collector && s1.cs == st.cs && t in st.collector && s2 == SetColl(s1, t, None)
    requires r.collector == s2.collector && r.cs == s2.cs
    ensures Left(st, r, t)
  {
    SetCollLeft(s1, t);
    hide Group, SetColl;
    forall p ensures GroupOf(st, p) == GroupOf(s1, p) && GroupOf(s2, p) == GroupOf(r, p) {
    }
  }

  // ---- Queueing the target, and all links of a node ----

  /** The recovery, rebuild and clean lists of `c` are in use. */
  ghost function RecoverMode(c: Cid, hand: Option<Oid>, busy: Option<Oid>): Mode
  {
    Mode(multiset{}, hand, busy, None, {Lid(c, Recovery), Lid(c, Rebuild), Lid(c, Clean)})
  }

  /** Nothing but the rebuild list of `c` has changed, and that has grown. */
  ghost predicate OnlyRebuild(a: Collecting, b: Collecting, c: Cid)
  {
    && b.forward == a.forward
    && (forall d, k :: Lid(d, k) != Lid(c, Rebuild) ==> Data(b.lists, d, k) == Data(a.lists, d, k))
    && (forall p :: p in Data(a.lists, c, Rebuild) ==> p in Data(b.lists, c, Rebuild))
  }

  /** No collector has been forwarded, and only the lists of `c` have changed. */
  ghost predicate OnlyOwn(a: Collecting, b: Collecting, c: Cid)
  {
    b.forward == a.forward && forall d, k :: d != c ==> Data(b.lists, d, k) == Data(a.lists, d, k)
  }

  lemma OnlyOwnTrans(a: Collecting, b: Collecting, d: Collecting, c: Cid)
    requires OnlyOwn(a, b, c) && OnlyOwn(b, d, c)
    ensures OnlyOwn(a, d, c)
  {
  }

  ghost predicate IsRoot(f: Forwards, c: Cid)
  {
    c in f && f[c].None?
  }

  lemma QueueStep(st: State, c: Cid, t: Oid)
    requires IsRoot(st.cs.forward, c)
    ensures var r := ListAdd(st, Lid(c, Rebuild), t);
      r == Append(st, Lid(c, Rebuild), t) && OnlyRebuild(st.cs, r.cs, c) && t in Data(r.cs.lists, c, Rebuild) &&
      Grown(st.cs.lists, r.cs.lists) && r.cs.lists == st.cs.lists[Lid(c, Rebuild) := r.cs.lists[Lid(c, Rebuild)]]
  {
  }

  lemma QueueKeeps(st: State, c: Cid, t: Oid, m: Mode)
    requires Sane(st, m) && Balanced(st, multiset{}, m.hand) && t in st.g.objs && IsRoot(st.cs.forward, c) && Lid(c, Rebuild) in m.active
    ensures var r := ListAdd(st, Lid(c, Rebuild), t); Sane(r, m) && Balanced(r, multiset{}, m.hand)
  {
    hide LinksShape, Wired, Pointing, Listed, Counted, Homed, Local, Acyclic, Uniform, HeldOrCleaned, Scheduled,
         Positive, Anchored, Balanced, ListAdd, Append, Grown, Registered, Moved, OnlyRebuild, Settled;
    var r := ListAdd(st, Lid(c, Rebuild), t);
    QueueStep(st, c, t);
    QueueBalanced(st, c, t, m.hand);
    QueueSettled(st, c, t, m.active);
    HasList(st.cs, c, Rebuild);
    AppendStruct(st, Lid(c, Rebuild), t);
    MovedSame(st, r);
    HeldGrown(st, r, m);
    QueueHomed(st, c, t);
  }

  lemma QueueSettled(st: State, c: Cid, t: Oid, active: set<Lid>)
    requires Settled(st.cs.lists, active) && Lid(c, Rebuild) in active
    ensures Settled(Append(st, Lid(c, Rebuild), t).cs.lists, active)
  {
  }

  lemma QueueHomed(st: State, c: Cid, t: Oid)
    requires Homed(st.collector, st.cs.forward, st.cs.lists)
    ensures var r := Append(st, Lid(c, Rebuild), t); Homed(r.collector, r.cs.forward, r.cs.lists)
  {
    hide Group;
  }

  lemma QueueBalanced(st: State, c: Cid, t: Oid, hand: Option<Oid>)
    requires Balanced(st, multiset{}, hand)
    ensures Balanced(Append(st, Lid(c, Rebuild), t), multiset{}, hand)
  {
    hide Balance;
    forall p, cls ensures Balance(Append(st, Lid(c, Rebuild), t), p, cls) == Balance(st, p, cls) {
      AppendBalance(st, Lid(c, Rebuild), t, p, cls);
    }
  }

  /** Every phantomized object of the group of `c` that has a strong count waits
      for recovery or rebuilding; `o` is being recovered. Nobody who waits for
      rebuilding is about to be deleted. */
  ghost predicate Awaited(st: State, c: Cid, o: Option<Oid>)
  {
    && (forall p :: p in Data(st.cs.lists, c, Rebuild) ==> !Doomed(st.tasks, p))
    && (forall p :: p in st.g.objs && o != Some(p) && st.g.Ph(p) && !Doomed(st.tasks, p) && GroupOf(st, p) == Some(c) ==>
          st.Num(p).Plain(st.Which(p)) > 0 ==> p in Data(st.cs.lists, c, Recovery) || p in Data(st.cs.lists, c, Rebuild))
  }

  /** The links of `o` are being rebuilt. */
  ghost predicate RebuildInv(st: State, c: Cid, o: Oid, m: Mode)
  {
    && Sane(st, m) && Balanced(st, multiset{}, m.hand)
    && m.busy == Some(o) && m.lp == multiset{} && m.lax.None?
    && !st.g.Ph(o) && Held(st.collector, st.cs, m.hand, o)
    && IsRoot(st.cs.forward, c) && Lid(c, Rebuild) in m.active
    && Awaited(st, c, None)
  }

  /** The links of `o` with a key in `ks` are phantoms no longer; no target and no other link has changed. */
  ghost predicate Restored(a: Links, b: Links, o: Oid, ks: seq<Field>)
  {
    forall s :: (s in b <==> s in a) &&
      (s in a ==> b[s].target == a[s].target &&
                  (if s.src == o && s.field in ks then !b[s].phantomized && (!a[s].phantomized ==> b[s] == a[s]) else b[s] == a[s]))
  }

  lemma RebuildLinkKeeps(st: State, c: Cid, s: Slot, m: Mode)
    requires RebuildInv(st, c, s.src, m) && s in st.g.links
    ensures var r := RebuildLink(st, c, s);
      RebuildInv(r, c, s.src, m) && OnlyRebuild(st.cs, r.cs, c) && GroupOf(r, s.src) == GroupOf(st, s.src) &&
      r.g == st.g.(links := r.g.links) && Restored(st.g.links, r.g.links, s.src, [s.field]) && r.tasks == st.tasks
  {
    var t := st.g.links[s].target;
    hide Sane, Balanced, Held, GroupOf, OnlyRebuild, Doomed, Awaited, Rebuilt, RebuildLink, ListAdd, Restored;
    RebuildLinkShape(st, c, s);
    RestoredOne(st, c, s);
    if !st.g.links[s].phantomized {
      OnlyRebuildSame(st.cs, st.cs, c);
      return;
    }
    assert Rebuilding(st, s, m);
    RebuildTarget(st, s, m);
    RebuiltKeeps(st, s, m);
    RebuiltFrame(st, s);
    var s3 := Rebuilt(st, s);
    OnlyRebuildSame(st.cs, s3.cs, c);
    AwaitedRebuilt(st, c, s);
    if s3.Coll(t).Some? {
      var r := ListAdd(s3, Lid(c, Rebuild), t);
      QueueKeeps(s3, c, t, m);
      QueueFrame(st, s3, c, t, m.hand, s.src);
    }
  }

  lemma RestoredOne(st: State, c: Cid, s: Slot)
    requires s in st.g.links
    ensures var r := RebuildLink(st, c, s);
      r.g == st.g.(links := r.g.links) && Restored(st.g.links, r.g.links, s.src, [s.field]) && r.tasks == st.tasks
  {
    RebuildLinkShape(st, c, s);
    RebuiltFrame(st, s);
    ListAddFrame(Rebuilt(st, s), Lid(c, Rebuild), st.g.links[s].target);
    hide Rebuilt, RebuildLink, ListAdd;
  }

  lemma ListAddFrame(st: State, lid: Lid, o: Oid)
    ensures var r := ListAdd(st, lid, o); r.g == st.g && r.tasks == st.tasks
  {
  }

  lemma QueueFrame(st: State, s3: State, c: Cid, t: Oid, hand: Option<Oid>, o: Oid)
    requires OnlyRebuild(st.cs, s3.cs, c) && IsRoot(s3.cs.forward, c) && Held(s3.collector, s3.cs, hand, o)
    ensures var r := ListAdd(s3, Lid(c, Rebuild), t);
      OnlyRebuild(st.cs, r.cs, c) && Held(r.collector, r.cs, hand, o) && IsRoot(r.cs.forward, c) &&
      r.g == s3.g && r.tasks == s3.tasks && GroupOf(r, o) == GroupOf(s3, o)
  {
    var r := ListAdd(s3, Lid(c, Rebuild), t);
    QueueStep(s3, c, t);
    hide Held, ListAdd, Group;
    QueueHeld(s3, r, c, hand, o);
    OnlyRebuildTrans(st.cs, s3.cs, r.cs, c);
  }

  lemma RebuildLinkShape(st: State, c: Cid, s: Slot)
    requires s in st.g.links
    ensures RebuildLink(st, c, s) ==
      if !st.g.links[s].phantomized then st
      else if Rebuilt(st, s).Coll(st.g.links[s].target).Some? then ListAdd(Rebuilt(st, s), Lid(c, Rebuild), st.g.links[s].target)
      else Rebuilt(st, s)
  {
    hide ListAdd, SetColl, RebuiltWhich;
  }

  lemma OnlyRebuildSame(a: Collecting, b: Collecting, c: Cid)
    requires b.forward == a.forward && b.lists == a.lists
    ensures OnlyRebuild(a, b, c)
  {
  }

  lemma OnlyRebuildTrans(a: Collecting, b: Collecting, d: Collecting, c: Cid)
    requires OnlyRebuild(a, b, c) && OnlyRebuild(b, d, c)
    ensures OnlyRebuild(a, d, c)
  {
  }

  lemma QueueHeld(a: State, b: State, c: Cid, hand: Option<Oid>, o: Oid)
    requires OnlyRebuild(a.cs, b.cs, c) && b.collector == a.collector && Held(a.collector, a.cs, hand, o)
    ensures Held(b.collector, b.cs, hand, o)
  {
    hide Group;
    assert Group(a.collector, a.cs.forward, o) == Group(b.collector, b.cs.forward, o);
  }

  lemma RebuiltFrame(st: State, s: Slot)
    requires s in st.g.links
    ensures var r, t := Rebuilt(st, s), st.g.links[s].target;
      r.g == st.g.(links := st.g.links[s := r.g.links[s]]) && r.g.links[s].target == t && !r.g.links[s].phantomized &&
      r.tasks == st.tasks && r.cs.forward == st.cs.forward && r.cs.lists == st.cs.lists &&
      (forall p :: p != t ==> r.Num(p) == st.Num(p) && r.Coll(p) == st.Coll(p)) && r.collector.Keys <= st.collector.Keys + {t}
    ensures forall p :: GroupOf(Rebuilt(st, s), p).Some? ==> GroupOf(Rebuilt(st, s), p) == GroupOf(st, p)
  {
  }

  lemma AwaitedRebuilt(st: State, c: Cid, s: Slot)
    requires Awaited(st, c, None) && s in st.g.links && st.g.links[s].phantomized && IsRoot(st.cs.forward, c)
    requires !Doomed(st.tasks, st.g.links[s].target)
    ensures Awaited(RebuildLink(st, c, s), c, None)
  {
    var s3 := Rebuilt(st, s);
    var t := st.g.links[s].target;
    RebuiltFrame(st, s);
    RebuildLinkIs(st, c, s);
    assert s3.cs.forward == st.cs.forward;
    hide ListAdd, RebuiltWhich, GroupOf, Rebuilt, RebuildLink;
    if s3.Coll(t).Some? {
      QueueStep(s3, c, t);
      QueuedAwaited(st, s3, ListAdd(s3, Lid(c, Rebuild), t), c, t);
    } else {
      UngroupedAwaited(st, s3, c, t);
    }
  }

  lemma RebuildLinkIs(st: State, c: Cid, s: Slot)
    requires s in st.g.links && st.g.links[s].phantomized
    ensures var s3, t := Rebuilt(st, s), st.g.links[s].target;
      RebuildLink(st, c, s) == if s3.Coll(t).Some? then ListAdd(s3, Lid(c, Rebuild), t) else s3
  {
    hide ListAdd, RebuiltWhich, SetColl;
  }

  /** Everybody but `t` is as before, and nobody has joined a group. */
  ghost predicate OthersSame(a: State, b: State, t: Oid)
  {
    && b.g.objs == a.g.objs && b.g.which == a.g.which && b.g.phantomized == a.g.phantomized && b.tasks == a.tasks
    && b.cs.lists == a.cs.lists && b.cs.forward == a.cs.forward
    && (forall p :: p != t ==> b.Num(p) == a.Num(p))
    && (forall p :: GroupOf(b, p).Some? ==> GroupOf(b, p) == GroupOf(a, p))
  }

  lemma QueuedAwaited(st: State, s3: State, r: State, c: Cid, t: Oid)
    requires Awaited(st, c, None) && OthersSame(st, s3, t) && r == Append(s3, Lid(c, Rebuild), t) && OnlyRebuild(s3.cs, r.cs, c)
    requires t in Data(r.cs.lists, c, Rebuild) && !Doomed(st.tasks, t)
    ensures Awaited(r, c, None)
  {
    hide Root;
    forall p ensures GroupOf(r, p) == GroupOf(s3, p) && r.Num(p) == s3.Num(p) {}
    assert forall p :: p in Data(r.cs.lists, c, Rebuild) ==> p in Data(s3.cs.lists, c, Rebuild) || p == t;
    hide GroupOf, Append;
    forall p | p in r.g.objs && r.g.Ph(p) && !Doomed(r.tasks, p) && GroupOf(r, p) == Some(c) && p != t && r.Num(p).Plain(r.Which(p)) > 0
      ensures p in Data(r.cs.lists, c, Recovery) || p in Data(r.cs.lists, c, Rebuild)
    {
      assert GroupOf(st, p) == Some(c) && r.Num(p) == st.Num(p);
    }
  }

  lemma UngroupedAwaited(st: State, s3: State, c: Cid, t: Oid)
    requires Awaited(st, c, None) && OthersSame(st, s3, t) && s3.Coll(t).None?
    ensures Awaited(s3, c, None)
  {
    assert GroupOf(s3, t).None?;
    hide GroupOf;
  }

  lemma {:induction false} RebuildLinksKeeps(st: State, c: Cid, o: Oid, ks: seq<Field>, m: Mode)
    requires RebuildInv(st, c, o, m) && forall k :: k in ks ==> Slot(o, k) in st.g.links
    ensures var r := RebuildLinks(st, c, o, ks);
      RebuildInv(r, c, o, m) && OnlyRebuild(st.cs, r.cs, c) && GroupOf(r, o) == GroupOf(st, o) &&
      r.g == st.g.(links := r.g.links) && Restored(st.g.links, r.g.links, o, ks) && r.tasks == st.tasks
    decreases |ks|
  {
    hide RebuildInv, OnlyRebuild, GroupOf, RebuildLink;
    if ks == [] {
      OnlyRebuildSame(st.cs, st.cs, c);
    } else {
      var s := Slot(o, ks[0]);
      assert s in st.g.links;
      RebuildLinkKeeps(st, c, s, m);
      var s1 := RebuildLink(st, c, s);
      RebuildLinksKeeps(s1, c, o, ks[1..], m);
      var r := RebuildLinks(st, c, o, ks);
      OnlyRebuildTrans(st.cs, s1.cs, r.cs, c);
      RestoredTrans(st.g.links, s1.g.links, r.g.links, o, ks);
    }
  }

  lemma RestoredTrans(a: Links, b: Links, d: Links, o: Oid, ks: seq<Field>)
    requires ks != [] && Restored(a, b, o, [ks[0]]) && Restored(b, d, o, ks[1..])
    ensures Restored(a, d, o, ks)
  {
  }

  // ---- A whole node ----

  ghost function Marks(): (Slot, Link) -> nat
  {
    (s: Slot, l: Link) => if l.phantomized then 1 else 0
  }

  /** The number of phantom links. */
  ghost function PhantomLinks(g: Graph): nat
  {
    Sum(g.links, Marks())
  }

  lemma RestoredFewer(a: Graph, b: Graph, o: Oid, ks: seq<Field>)
    requires Restored(a.links, b.links, o, ks)
    ensures PhantomLinks(b) <= PhantomLinks(a)
    ensures (exists k :: k in ks && Slot(o, k) in a.links && a.links[Slot(o, k)].phantomized) ==> PhantomLinks(b) < PhantomLinks(a)
  {
    assert b.links.Keys == a.links.Keys;
    SumMonotone(b.links, a.links, Marks());
    if k :| k in ks && Slot(o, k) in a.links && a.links[Slot(o, k)].phantomized {
      assert Slot(o, k) in b.links && Marks()(Slot(o, k), b.links[Slot(o, k)]) < Marks()(Slot(o, k), a.links[Slot(o, k)]);
    }
  }

  lemma {:induction false} RebuildLinksIdle(st: State, c: Cid, o: Oid, ks: seq<Field>)
    requires forall k :: k in ks && Slot(o, k) in st.g.links ==> !st.g.links[Slot(o, k)].phantomized
    ensures RebuildLinks(st, c, o, ks) == st
    decreases |ks|
  {
    if ks != [] {
      assert ks[0] in ks;
      RebuildLinksIdle(st, c, o, ks[1..]);
    }
  }

  lemma RestoredTargets(a: Graph, b: Graph, o: Oid, ks: seq<Field>)
    requires b.objs == a.objs && b.fields == a.fields && b.claims == a.claims && Restored(a.links, b.links, o, ks)
    ensures SameTargets(a, b)
  {
  }

  /** Taking back the phantom flag of an object with a strong count: its links are
      still phantoms, so no strong link appears. */
  lemma RecoverHeadKeeps(st: State, o: Oid, m: Mode)
    requires Sane(st, m) && m.busy.None? && o in st.g.objs && st.g.Ph(o) && st.Num(o).Plain(st.Which(o)) > 0
    ensures Sane(PutFlags(st, o, st.Which(o), false), m.(busy := Some(o)))
  {
    hide LinksShape, Registered, Wired, Pointing, Listed, Counted, Homed, Local, Acyclic, Uniform, HeldOrCleaned, Scheduled,
         Positive, Anchored, Settled;
    FlagsStruct(st, o, st.Which(o), false);
    NotIdleNotDoomed(st, o);
    RecoverHeadGraph(st, o, m);
  }

  lemma RecoverHeadGraph(st: State, o: Oid, m: Mode)
    requires Domains(st) && Acyclic(st.g) && Uniform(st.g, None) && HeldOrCleaned(st.g, st.collector, st.cs, st.tasks, m)
    requires Scheduled(st.g, st.count, st.cs.forward, st.tasks) && Positive(st.g, st.count, st.tasks)
    requires m.busy.None? && o in st.g.objs && st.g.Ph(o) && st.Num(o).Plain(st.Which(o)) > 0 && !Doomed(st.tasks, o)
    ensures var r := PutFlags(st, o, st.Which(o), false);
      Acyclic(r.g) && Uniform(r.g, Some(o)) && HeldOrCleaned(r.g, r.collector, r.cs, r.tasks, m.(busy := Some(o))) &&
      Scheduled(r.g, r.count, r.cs.forward, r.tasks) && Positive(r.g, r.count, r.tasks)
  {
    RecoverHeadHeld(st, o, m);
    AcyclicFewer(st.g, PutFlags(st, o, st.Which(o), false).g);
    hide Acyclic, HeldOrCleaned;
  }

  lemma RecoverHeadHeld(st: State, o: Oid, m: Mode)
    requires HeldOrCleaned(st.g, st.collector, st.cs, st.tasks, m)
    ensures var r := PutFlags(st, o, st.Which(o), false);
      HeldOrCleaned(r.g, r.collector, r.cs, r.tasks, m.(busy := Some(o)))
  {
    hide Held, Group;
  }

  lemma UpdateCollGroups(st: State, o: Oid)
    requires Struct(st) && o in st.g.objs
    ensures forall p :: GroupOf(UpdateColl(st, o), p) == GroupOf(st, p)
    ensures forall c :: Awaited(st, c, Some(o)) ==> Awaited(UpdateColl(st, o), c, Some(o))
  {
    hide LinksShape, Wired, Listed, Counted;
    if st.Coll(o).Some? {
      RootRoot(st.cs.forward, st.Coll(o).value);
    }
  }

  lemma UpdateCollSane(st: State, o: Oid, m: Mode)
    requires Sane(st, m) && o in st.g.objs && m.lax.None? && Balanced(st, multiset{}, m.hand)
    ensures Sane(UpdateColl(st, o), m) && Balanced(UpdateColl(st, o), multiset{}, m.hand)
  {
    UpdateCollBalanced(st, o, multiset{}, m.hand);
    hide Sane, Balanced;
    if st.Coll(o).Some? {
      UpdateCollKeeps(st, o, m);
    }
  }

  ghost predicate RecoverInv(st: State, c: Cid, hand: Option<Oid>, o: Option<Oid>)
  {
    Sane(st, RecoverMode(c, hand, None)) && Balanced(st, multiset{}, hand) && IsRoot(st.cs.forward, c) && Awaited(st, c, o)
  }

  /** object_recover_node. Either some phantom link is restored, or no link and no
      list changes. */
  lemma RecoverNodeKeeps(st: State, c: Cid, hand: Option<Oid>, o: Oid)
    requires RecoverInv(st, c, hand, Some(o)) && o in st.g.objs
    ensures var r := RecoverNode(st, c, o);
      RecoverInv(r, c, hand, None) && OnlyRebuild(st.cs, r.cs, c) && GroupOf(r, o) == GroupOf(st, o) &&
      SameTargets(st.g, r.g) && r.tasks == st.tasks &&
      (PhantomLinks(r.g) < PhantomLinks(st.g) || (r.g.links == st.g.links && r.cs.lists == st.cs.lists))
  {
    hide Sane, Balanced, OnlyRebuild, GroupOf, UpdateColl, PhantomLinks, RebuildLinks, Awaited, SameTargets, RecoverNode;
    var s1 := UpdateColl(st, o);
    UpdateCollInv(st, c, hand, o);
    RecoverNodeShape(st, c, o);
    SameTargetsRefl(st.g);
    OnlyRebuildSame(st.cs, s1.cs, c);
    if s1.Num(o).Plain(s1.Which(o)) <= 0 {
      AwaitedDead(s1, c, o);
    } else if st.g.Ph(o) {
      RecoverPhantomKeeps(s1, c, hand, o);
      OnlyRebuildTrans(st.cs, s1.cs, RecoverNode(st, c, o).cs, c);
    } else {
      RecoverLiveKeeps(s1, c, hand, o);
    }
  }

  lemma UpdateCollInv(st: State, c: Cid, hand: Option<Oid>, o: Oid)
    requires RecoverInv(st, c, hand, Some(o)) && o in st.g.objs
    ensures RecoverInv(UpdateColl(st, o), c, hand, Some(o)) && GroupOf(UpdateColl(st, o), o) == GroupOf(st, o)
  {
    UpdateCollSane(st, o, RecoverMode(c, hand, None));
    UpdateCollGroups(st, o);
    hide Sane, Balanced, GroupOf, UpdateColl, Awaited;
  }

  lemma RecoverNodeShape(st: State, c: Cid, o: Oid)
    ensures var s1 := UpdateColl(st, o);
      RecoverNode(st, c, o) ==
        if s1.Num(o).Plain(s1.Which(o)) > 0 then RebuildLinks(PutFlags(s1, o, s1.Which(o), false), c, o, s1.g.Keys(o)) else s1
  {
    hide UpdateColl, PutFlags, RebuildLinks;
  }

  lemma AwaitedDead(st: State, c: Cid, o: Oid)
    requires Awaited(st, c, Some(o)) && (st.g.Ph(o) ==> st.Num(o).Plain(st.Which(o)) <= 0)
    ensures Awaited(st, c, None)
  {
    hide GroupOf;
  }

  /** Recovering an object that is alive changes nothing. */
  lemma RecoverLiveKeeps(st: State, c: Cid, hand: Option<Oid>, o: Oid)
    requires Sane(st, RecoverMode(c, hand, None)) && o in st.g.objs && !st.g.Ph(o)
    requires Awaited(st, c, Some(o))
    ensures RebuildLinks(PutFlags(st, o, st.Which(o), false), c, o, st.g.Keys(o)) == st && Awaited(st, c, None)
  {
    AwaitedDead(st, c, o);
    hide LinksShape, Registered, Wired, Pointing, Listed, Counted, Homed, Local, Acyclic, HeldOrCleaned, Scheduled,
         Positive, Anchored, Settled, Awaited, RebuildLinks;
    var s1 := PutFlags(st, o, st.Which(o), false);
    assert s1.g.which == st.g.which && s1.g.phantomized == st.g.phantomized;
    RebuildLinksIdle(st, c, o, st.g.Keys(o));
  }

  lemma RecoverPhantomKeeps(st: State, c: Cid, hand: Option<Oid>, o: Oid)
    requires RecoverInv(st, c, hand, Some(o)) && o in st.g.objs && st.g.Ph(o) && st.Num(o).Plain(st.Which(o)) > 0
    ensures var r := RebuildLinks(PutFlags(st, o, st.Which(o), false), c, o, st.g.Keys(o));
      RecoverInv(r, c, hand, None) && OnlyRebuild(st.cs, r.cs, c) && GroupOf(r, o) == GroupOf(st, o) &&
      SameTargets(st.g, r.g) && r.tasks == st.tasks &&
      (PhantomLinks(r.g) < PhantomLinks(st.g) || (r.g.links == st.g.links && r.cs.lists == st.cs.lists))
  {
    var m, m' := RecoverMode(c, hand, None), RecoverMode(c, hand, Some(o));
    var s1 := PutFlags(st, o, st.Which(o), false);
    var ks := st.g.Keys(o);
    var r := RebuildLinks(s1, c, o, ks);
    RecoverHeadKeeps(st, o, m);
    assert m.(busy := Some(o)) == m';
    RecoverHeadFrame(st, c, hand, o);
    KeysInLinks(s1, m');
    hide Sane, Balanced, OnlyRebuild, GroupOf, PhantomLinks, RebuildLinks, Awaited, Held, SameTargets, Restored;
    RebuildLinksKeeps(s1, c, o, ks, m');
    RestoredDone(s1, r, o, m');
    assert m'.(busy := None) == m;
    RestoredTargets(st.g, r.g, o, ks);
    RebuildProgress(s1, c, o, ks);
    PhantomSame(st.g, s1.g);
  }

  lemma RebuildProgress(st: State, c: Cid, o: Oid, ks: seq<Field>)
    requires Restored(st.g.links, RebuildLinks(st, c, o, ks).g.links, o, ks)
    ensures PhantomLinks(RebuildLinks(st, c, o, ks).g) < PhantomLinks(st.g) || RebuildLinks(st, c, o, ks) == st
  {
    hide PhantomLinks, RebuildLinks, Restored;
    RestoredFewer(st.g, RebuildLinks(st, c, o, ks).g, o, ks);
    if forall k :: k in ks && Slot(o, k) in st.g.links ==> !st.g.links[Slot(o, k)].phantomized {
      RebuildLinksIdle(st, c, o, ks);
    }
  }

  lemma SameTargetsRefl(a: Graph)
    ensures SameTargets(a, a)
  {
  }

  lemma PhantomSame(a: Graph, b: Graph)
    requires a.links == b.links
    ensures PhantomLinks(a) == PhantomLinks(b)
  {
  }

  lemma RecoverHeadFrame(st: State, c: Cid, hand: Option<Oid>, o: Oid)
    requires RecoverInv(st, c, hand, Some(o)) && o in st.g.objs && st.g.Ph(o) && st.Num(o).Plain(st.Which(o)) > 0
    ensures var r := PutFlags(st, o, st.Which(o), false);
      Held(r.collector, r.cs, hand, o) && Balanced(r, multiset{}, hand) && Awaited(r, c, None) && GroupOf(r, o) == GroupOf(st, o)
  {
    hide LinksShape, Registered, Wired, Pointing, Listed, Counted, Homed, Local, Acyclic, Uniform, Positive, Anchored, Settled,
         Held, Group;
    var r := PutFlags(st, o, st.Which(o), false);
    NotIdleNotDoomed(st, o);
    FlagsBalanced(st, o, hand);
  }

  lemma FlagsBalanced(st: State, o: Oid, hand: Option<Oid>)
    requires Balanced(st, multiset{}, hand)
    ensures Balanced(PutFlags(st, o, st.Which(o), false), multiset{}, hand)
  {
    hide InLinks, Entries;
    var r := PutFlags(st, o, st.Which(o), false);
    forall p, cls ensures Balance(r, p, cls) == Balance(st, p, cls) {
    }
    hide Balance;
  }

  lemma RestoredDone(st: State, r: State, o: Oid, m: Mode)
    requires Sane(st, m) && r.g == st.g.(links := r.g.links) && Restored(st.g.links, r.g.links, o, st.g.Keys(o))
    requires Sane(r, m) && m.busy == Some(o) && !st.g.Ph(o)
    ensures Sane(r, m.(busy := None))
  {
    hide Registered, Wired, Pointing, Listed, Counted, Homed, Local, Acyclic, HeldOrCleaned, Scheduled, Positive, Anchored, Settled;
    AllRestored(st.g, r.g, o);
    HeldMode(r, m, m.(busy := None));
  }

  lemma AllRestored(g: Graph, g': Graph, o: Oid)
    requires LinksShape(g) && g' == g.(links := g'.links) && Restored(g.links, g'.links, o, g.Keys(o))
    requires Uniform(g', Some(o)) && !g.Ph(o)
    ensures Uniform(g', None)
  {
  }

  // ---- The recovery loop ----

  /** What the collect loop leaves behind, and the recovery loop keeps. */
  ghost predicate RecoveryInv(st: State, c: Cid)
  {
    && Sane(st, RecoverMode(c, None, None)) && Balanced(st, multiset{}, None)
    && c in st.cs.forward && Awaited(st, c, None)
    && Data(st.cs.lists, c, Merged) == [] && Data(st.cs.lists, c, Collect) == []
  }

  lemma RecoveryStart(st: State, c: Cid)
    requires CollectInv(st, c) && Data(st.cs.lists, c, Collect) == []
    ensures RecoveryInv(st, c)
  {
    StartAwaited(st, c);
    hide Struct, Homed, Local, Positive, Anchored, Scheduled, Uniform, Acyclic, HeldOrCleaned, Awaited, Balanced;
    HeldMode(st, CollectMode(c, None, None), RecoverMode(c, None, None));
  }

  lemma StartAwaited(st: State, c: Cid)
    requires CollectInv(st, c)
    ensures Awaited(st, c, None)
  {
    hide LinksShape, Wired, Pointing, Listed, Counted, Homed, Local, Positive, Anchored, Scheduled, Uniform, Acyclic, Group, Balanced;
    HasList(st.cs, c, Clean);
    forall p | p in st.g.objs && st.g.Ph(p) && !Doomed(st.tasks, p) && GroupOf(st, p) == Some(c)
      ensures p in Data(st.cs.lists, c, Recovery)
    {
      assert Held(st.collector, st.cs, None, p);
    }
  }

  ghost function RecoverStep(st: State, c: Cid): State
    requires Data(st.cs.lists, c, Recovery) != []
  {
    var o := Head(st, c, Recovery);
    ListAdd(RecoverNode(Poll(st, Lid(c, Recovery)), c, o), Lid(c, Clean), o)
  }

  lemma PollAwaited(st: State, c: Cid, k: Kind)
    requires Awaited(st, c, None) && Data(st.cs.lists, c, k) != []
    ensures Awaited(Poll(st, Lid(c, k)), c, Some(Head(st, c, k)))
  {
    hide Group;
    var r, o := Poll(st, Lid(c, k)), Head(st, c, k);
    assert Data(st.cs.lists, c, k) == [o] + Data(r.cs.lists, c, k);
    forall p ensures GroupOf(r, p) == GroupOf(st, p) && r.Num(p) == st.Num(p) {}
  }

  lemma RecoverStepKeeps(st: State, c: Cid)
    requires RecoveryInv(st, c) && Data(st.cs.lists, c, Recovery) != []
    ensures var r := RecoverStep(st, c);
      RecoveryInv(r, c) && SameTargets(st.g, r.g) && r.tasks == st.tasks && OnlyOwn(st.cs, r.cs, c) &&
      |Data(r.cs.lists, c, Recovery)| < |Data(st.cs.lists, c, Recovery)|
  {
    hide Sane, Balanced, RecoverNode, Poll, ListAdd, Joined, ListEnd, GroupOf, Awaited, SameTargets, PhantomLinks;
    var o := Head(st, c, Recovery);
    var lid := Lid(c, Recovery);
    var s1 := Poll(st, lid);
    PollKeeps(st, lid, RecoverMode(c, None, None));
    PollBalanced(st, lid);
    PollJoined(st, lid, o);
    PollAwaited(st, c, Recovery);
    PollShorter(st, c, Recovery);
    PollGroup(st, lid, o);
    RecoverNodeKeeps(s1, c, Some(o), o);
    var s2 := RecoverNode(s1, c, o);
    JoinedRoot(s2, o, c);
    SameObjs(st.g, s2.g);
    ListAddKeeps(s2, Lid(c, Clean), o, RecoverMode(c, Some(o), None));
    ListAddBalanced(s2, Lid(c, Clean), o);
    AddClean(s2, c, o);
  }

  lemma SameObjs(a: Graph, b: Graph)
    requires SameTargets(a, b)
    ensures a.objs == b.objs
  {
  }

  lemma PollGroup(st: State, lid: Lid, o: Oid)
    requires ListAt(st.cs.lists, lid).data != []
    ensures GroupOf(Poll(st, lid), o) == GroupOf(st, o)
  {
  }

  lemma JoinedRoot(st: State, o: Oid, c: Cid)
    requires GroupOf(st, o) == Some(c) && IsRoot(st.cs.forward, c)
    ensures Joined(st, o, c)
  {
  }

  lemma AddClean(st: State, c: Cid, o: Oid)
    requires IsRoot(st.cs.forward, c) && Awaited(st, c, None)
    ensures var r := ListAdd(st, Lid(c, Clean), o);
      Awaited(r, c, None) && r.g == st.g && r.tasks == st.tasks && r.cs.forward == st.cs.forward &&
      ListEnd(st.cs.forward, Lid(c, Clean)) == Lid(c, Clean) &&
      forall d, k :: Lid(d, k) != Lid(c, Clean) ==> Data(r.cs.lists, d, k) == Data(st.cs.lists, d, k)
  {
    hide Group;
    var r := ListAdd(st, Lid(c, Clean), o);
    forall p ensures GroupOf(r, p) == GroupOf(st, p) && r.Num(p) == st.Num(p) {}
  }

  ghost function RecoverLoop(st: State, c: Cid): (r: State)
    requires RecoveryInv(st, c)
    ensures RecoveryInv(r, c) && Data(r.cs.lists, c, Recovery) == [] && SameTargets(st.g, r.g) && r.tasks == st.tasks
    ensures OnlyOwn(st.cs, r.cs, c)
    decreases |Data(st.cs.lists, c, Recovery)|
  {
    if Data(st.cs.lists, c, Recovery) == [] then st
    else
      RecoverStepKeeps(st, c);
      RecoverLoop(RecoverStep(st, c), c)
  }

  // ---- The rebuild loop ----

  ghost function RebuildStep(st: State, c: Cid): State
    requires Data(st.cs.lists, c, Rebuild) != []
  {
    RecoverNode(Poll(st, Lid(c, Rebuild)), c, Head(st, c, Rebuild))
  }

  ghost predicate RebuildingInv(st: State, c: Cid)
  {
    RecoveryInv(st, c) && Data(st.cs.lists, c, Recovery) == []
  }

  /** A rebuild entry holds nothing, so polling it leaves nobody unheld. */
  lemma PollRebuildKeeps(st: State, c: Cid, m: Mode)
    requires Sane(st, m) && Balanced(st, multiset{}, m.hand) && Data(st.cs.lists, c, Rebuild) != []
    ensures var r := Poll(st, Lid(c, Rebuild)); Sane(r, m) && Balanced(r, multiset{}, m.hand)
    ensures Head(st, c, Rebuild) in st.g.objs && IsRoot(st.cs.forward, c)
  {
    hide LinksShape, Registered, Wired, Pointing, Listed, Counted, Homed, Local, Acyclic, Uniform, HeldOrCleaned, Scheduled,
         Positive, Anchored, Balanced, Settled, Poll;
    var lid := Lid(c, Rebuild);
    ListedOwner(st, lid);
    PollRebuildBalanced(st, c, m.hand);
    PollStruct(st, lid);
    PollFrame(st, lid, m.active);
    PollHomed(st, lid);
    PollRebuildHeld(st, c, m);
  }

  lemma PollRebuildHeld(st: State, c: Cid, m: Mode)
    requires Data(st.cs.lists, c, Rebuild) != [] && HeldOrCleaned(st.g, st.collector, st.cs, st.tasks, m)
    ensures var r := Poll(st, Lid(c, Rebuild)); HeldOrCleaned(r.g, r.collector, r.cs, r.tasks, m)
  {
    hide Group;
  }

  lemma PollRebuildBalanced(st: State, c: Cid, hand: Option<Oid>)
    requires Balanced(st, multiset{}, hand) && Data(st.cs.lists, c, Rebuild) != []
    ensures Balanced(Poll(st, Lid(c, Rebuild)), multiset{}, hand)
  {
    hide Balance;
    forall p, cls ensures Balance(Poll(st, Lid(c, Rebuild)), p, cls) == Balance(st, p, cls) {
      PollBalance(st, Lid(c, Rebuild), p, cls);
    }
  }

  lemma RebuildStepKeeps(st: State, c: Cid)
    requires RebuildingInv(st, c) && Data(st.cs.lists, c, Rebuild) != []
    ensures var r := RebuildStep(st, c);
      RebuildingInv(r, c) && SameTargets(st.g, r.g) && r.tasks == st.tasks && OnlyOwn(st.cs, r.cs, c) &&
      (PhantomLinks(r.g) < PhantomLinks(st.g) ||
       (PhantomLinks(r.g) == PhantomLinks(st.g) && |Data(r.cs.lists, c, Rebuild)| < |Data(st.cs.lists, c, Rebuild)|))
  {
    hide Sane, Balanced, RecoverNode, Poll, GroupOf, Awaited, SameTargets, PhantomLinks;
    var o := Head(st, c, Rebuild);
    var lid := Lid(c, Rebuild);
    var s1 := Poll(st, lid);
    PollRebuildKeeps(st, c, RecoverMode(c, None, None));
    PollJoined(st, lid, o);
    PollAwaited(st, c, Rebuild);
    PollShorter(st, c, Rebuild);
    RecoverNodeKeeps(s1, c, None, o);
    if RebuildStep(st, c).g.links == s1.g.links {
      PhantomSame(s1.g, RebuildStep(st, c).g);
    }
  }

  ghost function RebuildLoop(st: State, c: Cid): (r: State)
    requires RebuildingInv(st, c)
    ensures RebuildingInv(r, c) && Data(r.cs.lists, c, Rebuild) == [] && SameTargets(st.g, r.g) && r.tasks == st.tasks
    ensures OnlyOwn(st.cs, r.cs, c)
    decreases PhantomLinks(st.g), |Data(st.cs.lists, c, Rebuild)|
  {
    if Data(st.cs.lists, c, Rebuild) == [] then st
    else
      RebuildStepKeeps(st, c);
      RebuildLoop(RebuildStep(st, c), c)
  }

  // ---- The fixpoint ----

  /** When the rebuild loop has run dry, an object of the group is still a phantom
      exactly when it has no strong and no weak references left, and every phantom
      link of the group comes from such an object. */
  lemma RecoveryFixpoint(st: State, c: Cid)
    requires RebuildingInv(st, c) && Data(st.cs.lists, c, Rebuild) == []
    ensures forall o :: o in st.g.objs && !Doomed(st.tasks, o) && GroupOf(st, o) == Some(c) ==>
      (st.g.Ph(o) <==> st.Num(o).Unused())
    ensures forall s :: s in st.g.links && st.g.links[s].phantomized && GroupOf(st, s.src) == Some(c) ==>
      st.g.Ph(s.src) && st.Num(s.src).Unused()
  {
    hide Registered, Wired, Pointing, Listed, Counted, Homed, Local, Anchored, Acyclic, HeldOrCleaned, Group, Settled;
    forall o | o in st.g.objs && !Doomed(st.tasks, o) && GroupOf(st, o) == Some(c)
      ensures st.g.Ph(o) <==> st.Num(o).Unused()
    {
      CountsNonneg(st, multiset{}, None, o);
    }
  }
}

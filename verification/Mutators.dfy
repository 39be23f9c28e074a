/** What the client may do: claim objects, give up claims, and set fields. */
module Mutators {
  import opened Sequences
  import opened Wrappers
  import opened Forwarding
  import opened Sums
  import opened Model
  import opened Conservation
  import opened Invariant
  import opened Keeping
  import opened Phantomizing
  import opened CollectPhase
  import opened RecoverPhase
  import opened CleanPhase
  import opened Reach
  import opened Runs
  import opened Deletion

  // ---- Reachable objects are alive ----

  lemma ReachableAlive(st: State, o: Oid)
    requires Inv(st) && Reachable(st.g, o)
    ensures o in st.g.objs && o in st.count && !Doomed(st.tasks, o)
  {
    if Doomed(st.tasks, o) {
      DoomedUnreachable(st, AtRest, o);
    }
    var p :| Path(st.g, p) && p[|p| - 1] == o;
    if |p| > 1 {
      assert Edge(st.g, p[|p| - 2], p[|p| - 2 + 1]);
      var s :| s in st.g.links && st.g.links[s].target == o;
      LinkEnds(st, s);
    }
    hide Balanced, Homed, Local, Positive, Anchored, Scheduled, Uniform, Acyclic, HeldOrCleaned, LinksShape, Registered, Wired, Pointing,
         Listed, Counted;
  }

  /** Every claim is in the strong count. */
  lemma ClaimCounted(st: State, loose: multiset<Ref>, o: Oid)
    requires Balanced(st, loose, None) && o in st.g.objs && st.g.claims[o] > 0
    ensures st.Num(o).Plain(st.Which(o)) >= 1
  {
    hide InLinks, Entries;
    assert Balance(st, o, Bit(st.Which(o))) >= 0;
  }

  // ---- acid_malloc ----

  lemma MallocKeeps(st: State, o: Oid)
    requires Inv(st) && o !in st.g.objs
    ensures Inv(Malloc(st, o))
  {
    hide LinksShape, Registered, Wired, Pointing, Listed, Counted, Homed, Local, Positive, Anchored, Scheduled, Uniform, Acyclic,
         HeldOrCleaned, Balanced;
    MallocStruct(st, o);
    MallocBalanced(st, o);
    MallocGroups(st, o);
    MallocCounts(st, o);
    MallocGraph(st, o);
  }

  lemma MallocStruct(st: State, o: Oid)
    requires Struct(st) && o !in st.g.objs
    ensures Struct(Malloc(st, o))
  {
    var r := Malloc(st, o);
    hide Registered, Wired, RefBalance, StoreBalance;
    forall x | x in r.cs.forward ensures RefBalance(r.collector, r.cs, x) == 0 && StoreBalance(r.cs, x) == 0 {
      MallocCounted(st, o, x);
    }
  }

  lemma MallocCounted(st: State, o: Oid, x: Cid)
    requires o !in st.collector
    ensures RefBalance(st.collector[o := None], st.cs, x) == RefBalance(st.collector, st.cs, x)
  {
    SumUpdate(st.collector, PointsTo(x), o, None);
  }

  lemma MallocBalanced(st: State, o: Oid)
    requires Balanced(st, multiset{}, None) && o !in st.g.objs && LinksShape(st.g) && Listed(st.g.objs, st.cs.lists) && st.g.claims[o] == 0
    ensures Balanced(Malloc(st, o), multiset{}, None)
  {
    var r := Malloc(st, o);
    forall p, cls | p in r.g.objs ensures Balance(r, p, cls) == 0 {
      if p == o {
        SumZero(st.g.links, LinkInto(o, cls));
        SumZero(st.cs.lists, Entry(o, true));
        SumZero(st.cs.lists, Entry(o, false));
      } else {
        hide InLinks, Entries, LinksShape, Listed;
        assert Balance(st, p, cls) == 0;
      }
    }
  }

  lemma MallocGroups(st: State, o: Oid)
    requires Domains(st) && LinksShape(st.g) && Listed(st.g.objs, st.cs.lists) && o !in st.g.objs
    requires Homed(st.collector, st.cs.forward, st.cs.lists) && Local(st.g.links, st.collector, st.cs.forward)
    requires HeldOrCleaned(st.g, st.collector, st.cs, st.tasks, AtRest)
    ensures var r := Malloc(st, o);
      Homed(r.collector, r.cs.forward, r.cs.lists) && Local(r.g.links, r.collector, r.cs.forward) &&
      HeldOrCleaned(r.g, r.collector, r.cs, r.tasks, AtRest)
  {
    var r := Malloc(st, o);
    forall p ensures Group(r.collector, r.cs.forward, p) == Group(st.collector, st.cs.forward, p) {}
    hide Group;
  }

  lemma MallocCounts(st: State, o: Oid)
    requires Domains(st) && o !in st.g.objs
    requires Positive(st.g, st.count, st.tasks) && Anchored(st.count, st.collector, st.tasks, multiset{})
    requires Scheduled(st.g, st.count, st.cs.forward, st.tasks)
    ensures var r := Malloc(st, o);
      Positive(r.g, r.count, r.tasks) && Anchored(r.count, r.collector, r.tasks, multiset{}) &&
      Scheduled(r.g, r.count, r.cs.forward, r.tasks)
  {
  }

  lemma MallocGraph(st: State, o: Oid)
    requires Domains(st) && LinksShape(st.g) && Acyclic(st.g) && Uniform(st.g, None) && o !in st.g.objs
    ensures Acyclic(Malloc(st, o).g) && Uniform(Malloc(st, o).g, None)
  {
    var r := Malloc(st, o);
    var rank: map<Oid, nat>, bound: nat :| StrongRank(st.g, rank, bound);
    forall s | s in st.g.links ensures s.src != o && st.g.links[s].target != o && s.src in rank && st.g.links[s].target in rank {}
    forall s | StrongEdge(r.g, s) ensures StrongEdge(st.g, s) {}
    assert StrongRank(r.g, rank[o := 0], bound);
  }

  // ---- acid_harden and acid_dissolve ----

  lemma HardenKeeps(st: State, o: Oid)
    requires Inv(st) && Reachable(st.g, o)
    ensures Inv(Harden(st, o))
  {
    ReachableAlive(st, o);
    var n := st.Num(o).AddPlain(st.Which(o), 1);
    var s1 := PutCount(st, o, n);
    hide LinksShape, Registered, Wired, Pointing, Listed, Counted, Homed, Local, Positive, Anchored, Scheduled, Uniform, Acyclic,
         HeldOrCleaned, Balanced, Reachable, Doomed;
    PutCountStruct(st, o, n);
    HardenBalanced(st, o);
    HardenCounts(st, o, n);
    ClaimsFrame(s1, st.g.claims + multiset{o});
  }

  lemma HardenCounts(st: State, o: Oid, n: Count)
    requires o in st.count && !Doomed(st.tasks, o) && n == st.Num(o).AddPlain(st.Which(o), 1)
    requires Balanced(st, multiset{}, None) && o in st.g.objs
    requires Positive(st.g, st.count, st.tasks) && Anchored(st.count, st.collector, st.tasks, multiset{})
    requires Scheduled(st.g, st.count, st.cs.forward, st.tasks)
    ensures var r := PutCount(st, o, n);
      Positive(r.g, r.count, r.tasks) && Anchored(r.count, r.collector, r.tasks, multiset{}) &&
      Scheduled(r.g, r.count, r.cs.forward, r.tasks)
  {
    CountsNonneg(st, multiset{}, None, o);
    hide Balanced;
  }

  /** Claims matter to conservation only. */
  lemma ClaimsFrame(st: State, claims: multiset<Oid>)
    requires Sane(st, AtRest)
    ensures Sane(Claims(st, claims), AtRest)
  {
    hide Registered, Wired, Pointing, Listed, Counted, Homed, Local, Anchored, Held, Group, Acyclic;
    AcyclicFewer(st.g, Claims(st, claims).g);
  }

  lemma HardenBalanced(st: State, o: Oid)
    requires Balanced(st, multiset{}, None) && o in st.g.objs
    ensures Balanced(Harden(st, o), multiset{}, None)
  {
    var r := Harden(st, o);
    hide InLinks, Entries;
    forall p, cls | p in r.g.objs ensures Balance(r, p, cls) == 0 {
      assert Balance(st, p, cls) == 0;
    }
  }

  lemma DissolveKeeps(st: State, o: Oid)
    requires Inv(st) && st.g.claims[o] > 0
    ensures Inv(Dissolve(st, o))
  {
    var s1 := Claims(st, st.g.claims - multiset{o});
    hide Sane, Balanced, Dec;
    ClaimsFrame(st, st.g.claims - multiset{o});
    UnclaimBalanced(st, o);
    LooseDecKeeps(s1, o, st.Which(o), multiset{});
  }

  lemma UnclaimBalanced(st: State, o: Oid)
    requires Balanced(st, multiset{}, None) && st.g.claims[o] > 0
    ensures Balanced(Claims(st, st.g.claims - multiset{o}), multiset{} + multiset{Ref(o, Bit(st.Which(o)))}, None)
  {
    var r := Claims(st, st.g.claims - multiset{o});
    hide InLinks, Entries;
    forall p, cls | p in r.g.objs ensures Balance(r, p, cls) == (multiset{} + multiset{Ref(o, Bit(st.Which(o)))})[Ref(p, cls)] {
      assert Balance(st, p, cls) == 0;
    }
  }

  lemma SetRawKeeps(st: State, prior: Option<Oid>, val: Oid)
    requires Inv(st) && Reachable(st.g, val) && (prior.Some? ==> st.g.claims[prior.value] > 0)
    ensures Inv(SetRaw(st, prior, val))
  {
    HardenKeeps(st, val);
    hide Inv, Reachable, PutCount;
    if prior.Some? {
      DissolveKeeps(Harden(st, val), prior.value);
    }
  }

  // ---- object_set ----

  /** A possible iteration order of the links table of `s.src` once the key
      `s.field` is there, or is not there. */
  ghost predicate Order(g: Graph, s: Slot, order: seq<Field>, present: bool)
  {
    NoDup(order) && forall k :: k in order <==> if k == s.field then present else k in g.Keys(s.src)
  }

  /** What the client guarantees when it sets a field: it can reach the object,
      and it holds a claim on the new referent. */
  ghost predicate MaySet(st: State, s: Slot, ref: Option<Oid>, order: seq<Field>)
  {
    Reachable(st.g, s.src) && (ref.Some? ==> st.g.claims[ref.value] > 0) && Order(st.g, s, order, ref.Some?)
  }

  /** The new link points to an object that is alive, is a phantom exactly when
      its source is one, stays within a group if so, and is strong only if its
      target is another object without links. */
  ghost predicate Fits(st: State, s: Slot, l: Link)
  {
    && s.src in st.g.objs && l.target in st.g.objs && !Doomed(st.tasks, s.src)
    && l.phantomized == st.g.Ph(s.src)
    && (l.phantomized ==> GroupOf(st, s.src).Some? && GroupOf(st, s.src) == GroupOf(st, l.target))
    && (!l.phantomized && l.which == st.Which(l.target) ==> l.target != s.src && st.g.Keys(l.target) == [])
  }

  lemma PutFieldKeeps(st: State, s: Slot, order: seq<Field>, l: Link, lp: multiset<Oid>)
    requires Sane(st, AtRest.(lp := lp)) && Fits(st, s, l) && Order(st.g, s, order, true)
    requires lp == if l.phantomized then multiset{l.target} else multiset{}
    ensures Sane(PutField(st, s, order, Some(l)), AtRest)
  {
    hide Registered, Wired, Pointing, Listed, Counted, LinksShape, Homed, Local, Anchored, Acyclic, Positive, Uniform, Scheduled, HeldOrCleaned, NoDup;
    var r := PutField(st, s, order, Some(l));
    PutFieldShape(st.g, s, order, l);
    PutFieldAcyclic(st, s, order, l);
    PutFieldRest(st, s, order, l, lp);
  }

  lemma PutFieldShape(g: Graph, s: Slot, order: seq<Field>, l: Link)
    requires LinksShape(g) && s.src in g.objs && l.target in g.objs && Order(g, s, order, true)
    ensures LinksShape(g.(fields := g.fields[s.src := order], links := g.links[s := l]))
  {
    hide NoDup;
    var h := g.(fields := g.fields[s.src := order], links := g.links[s := l]);
    forall o | o in h.objs ensures NoDup(h.Keys(o)) {
      assert NoDup(g.Keys(o));
    }
    forall x: Slot ensures x in h.links <==> x.src in h.objs && x.field in h.Keys(x.src) {
      if x.src == s.src && x.field == s.field {
        assert x == s;
      }
    }
  }

  lemma PutFieldAcyclic(st: State, s: Slot, order: seq<Field>, l: Link)
    requires Acyclic(st.g) && LinksShape(st.g) && Fits(st, s, l)
    ensures Acyclic(PutField(st, s, order, Some(l)).g)
  {
    hide Group;
    var g, h := st.g, PutField(st, s, order, Some(l)).g;
    var t := l.target;
    if StrongEdge(h, s) {
      var rank: map<Oid, nat>, bound: nat :| StrongRank(g, rank, bound);
      var rank' := rank[t := bound + 1];
      forall x | StrongEdge(h, x) && x.src in rank' && h.links[x].target in rank'
        ensures rank'[x.src] < rank'[h.links[x].target]
      {
        assert x.src != t;
        if h.links[x].target != t {
          assert StrongEdge(g, x);
        } else {
          assert x.src in g.objs && x.src in rank;
        }
      }
      assert StrongRank(h, rank', bound + 1);
    } else {
      AcyclicFewer(g, h);
    }
  }

  lemma PutFieldRest(st: State, s: Slot, order: seq<Field>, l: Link, lp: multiset<Oid>)
    requires Fits(st, s, l) && Domains(st) && lp == if l.phantomized then multiset{l.target} else multiset{}
    requires Local(st.g.links, st.collector, st.cs.forward) && HeldOrCleaned(st.g, st.collector, st.cs, st.tasks, AtRest.(lp := lp))
    requires Positive(st.g, st.count, st.tasks) && Anchored(st.count, st.collector, st.tasks, lp)
    requires Scheduled(st.g, st.count, st.cs.forward, st.tasks) && Uniform(st.g, None)
    ensures var r := PutField(st, s, order, Some(l));
      Local(r.g.links, r.collector, r.cs.forward) && HeldOrCleaned(r.g, r.collector, r.cs, r.tasks, AtRest) &&
      Positive(r.g, r.count, r.tasks) && Anchored(r.count, r.collector, r.tasks, multiset{}) &&
      Scheduled(r.g, r.count, r.cs.forward, r.tasks) && Uniform(r.g, None)
  {
    PutFieldKeys(st, s, order, l, lp);
    PutFieldCounts(st, s, order, l, lp);
    PutFieldLinks(st, s, order, l);
    hide *;
  }

  lemma PutFieldLinks(st: State, s: Slot, order: seq<Field>, l: Link)
    requires Fits(st, s, l) && Local(st.g.links, st.collector, st.cs.forward) && Uniform(st.g, None)
    ensures var r := PutField(st, s, order, Some(l)); Local(r.g.links, r.collector, r.cs.forward) && Uniform(r.g, None)
  {
    hide Group;
  }

  lemma PutFieldCounts(st: State, s: Slot, order: seq<Field>, l: Link, lp: multiset<Oid>)
    requires Fits(st, s, l) && Domains(st) && lp == if l.phantomized then multiset{l.target} else multiset{}
    requires Positive(st.g, st.count, st.tasks) && Anchored(st.count, st.collector, st.tasks, lp)
    ensures var r := PutField(st, s, order, Some(l));
      Positive(r.g, r.count, r.tasks) && Anchored(r.count, r.collector, r.tasks, multiset{})
  {
    if l.phantomized {
      GroupSome(st, l.target);
    }
    hide Group;
  }

  lemma PutFieldKeys(st: State, s: Slot, order: seq<Field>, l: Link, lp: multiset<Oid>)
    requires !Doomed(st.tasks, s.src)
    requires HeldOrCleaned(st.g, st.collector, st.cs, st.tasks, AtRest.(lp := lp)) && Scheduled(st.g, st.count, st.cs.forward, st.tasks)
    ensures var r := PutField(st, s, order, Some(l));
      HeldOrCleaned(r.g, r.collector, r.cs, r.tasks, AtRest) && Scheduled(r.g, r.count, r.cs.forward, r.tasks)
  {
    hide Held, Group;
  }

  /** The surplus that setting a field leaves to be given up: the old link. */
  ghost function OldRef(links: Links, s: Slot): multiset<Ref>
  {
    if s in links then multiset{Ref(links[s].target, ClassOf(links[s]))} else multiset{}
  }

  lemma PutFieldBalanced(st: State, s: Slot, order: seq<Field>, l: Link)
    requires Balanced(st, multiset{Ref(l.target, ClassOf(l))}, None)
    ensures Balanced(PutField(st, s, order, Some(l)), OldRef(st.g.links, s), None)
  {
    hide Balance, OldRef;
    var r := PutField(st, s, order, Some(l));
    forall p, cls | p in r.g.objs ensures Balance(r, p, cls) == OldRef(st.g.links, s)[Ref(p, cls)] {
      PutFieldBalance(st, s, order, l, p, cls);
      assert Balance(st, p, cls) == multiset{Ref(l.target, ClassOf(l))}[Ref(p, cls)];
    }
  }

  lemma PutFieldBalance(st: State, s: Slot, order: seq<Field>, l: Link, p: Oid, cls: Class)
    ensures Balance(PutField(st, s, order, Some(l)), p, cls) - OldRef(st.g.links, s)[Ref(p, cls)]
         == Balance(st, p, cls) - multiset{Ref(l.target, ClassOf(l))}[Ref(p, cls)]
  {
    hide Entries;
    SumUpdate(st.g.links, LinkInto(p, cls), s, l);
  }

  lemma PutCountLoose(st: State, o: Oid, n: Count, cls: Class)
    requires Balanced(st, multiset{}, None) && forall x :: Get(n, x) == Get(st.Num(o), x) + if x == cls then 1 else 0
    ensures Balanced(PutCount(st, o, n), multiset{Ref(o, cls)}, None)
  {
    hide Balance;
    forall p, x | p in st.g.objs ensures Balance(PutCount(st, o, n), p, x) == multiset{Ref(o, cls)}[Ref(p, x)] {
      PutCountBalance(st, o, n, p, x);
      assert Balance(st, p, x) == 0;
    }
  }

  /** object_set on an object that is no phantom: the new reference is strong if
      its target has no links, else weak. */
  lemma NewPlainKeeps(st: State, s: Slot, t: Oid, order: seq<Field>)
    requires Inv(st) && MaySet(st, s, Some(t), order) && !st.g.Ph(s.src)
    ensures var r := NewLink(st, s, t, order); Sane(r, AtRest) && Balanced(r, OldRef(st.g.links, s), None)
  {
    hide Struct, Positive, Uniform, Acyclic, Homed, Local, Anchored, Scheduled, HeldOrCleaned, Balanced, Reachable, OldRef;
    ReachableAlive(st, s.src);
    ClaimReach(st.g, t);
    ReachableAlive(st, t);
    ClaimCounted(st, multiset{}, t);
    CountsNonneg(st, multiset{}, None, t);
    var w := if t != s.src && st.g.Keys(t) == [] then st.Which(t) else !st.Which(t);
    var n := st.Num(t).AddPlain(w, 1);
    var l := Link(t, w, false);
    DecPlainKeeps(st, t, n, AtRest);
    PutCountLoose(st, t, n, Bit(w));
    var s1 := PutCount(st, t, n);
    PutFieldKeeps(s1, s, order, l, multiset{});
    PutFieldBalanced(s1, s, order, l);
  }

  /** What object_merge_collectors does depends on the collectors alone. */
  lemma MergeObjsSame(a: State, b: State, o: Oid, t: Oid)
    requires a.collector == b.collector && a.cs == b.cs
    ensures MergeObjs(a, o, t).collector == MergeObjs(b, o, t).collector && MergeObjs(a, o, t).cs == MergeObjs(b, o, t).cs
  {
    hide Join, Root, AddCounter;
  }

  lemma MergePutCommute(st: State, o: Oid, t: Oid, n: Count)
    ensures MergeObjs(PutCount(st, t, n), o, t) == PutCount(MergeObjs(st, o, t), t, n)
  {
    MergeObjsSame(PutCount(st, t, n), st, o, t);
    hide MergeObjs;
  }

  lemma PhantomGrouped(st: State, o: Oid)
    requires Inv(st) && o in st.g.objs && st.g.Ph(o) && !Doomed(st.tasks, o)
    ensures GroupOf(st, o).Some?
  {
    hide Struct, Positive, Uniform, Acyclic, Homed, Local, Anchored, Scheduled, Balanced, Group;
    assert Held(st.collector, st.cs, None, o);
  }

  /** object_set on a phantom: the new reference is a phantom too, and its target
      joins the group. */
  lemma NewPhantomKeeps(st: State, s: Slot, t: Oid, order: seq<Field>)
    requires Inv(st) && MaySet(st, s, Some(t), order) && st.g.Ph(s.src)
    ensures var r := NewLink(st, s, t, order); Sane(r, AtRest) && Balanced(r, OldRef(st.g.links, s), None)
  {
    hide Sane, Balanced, Reachable, GroupOf, OldRef, MergeObjs, Doomed;
    ReachableAlive(st, s.src);
    ClaimReach(st.g, t);
    ReachableAlive(st, t);
    ClaimCounted(st, multiset{}, t);
    CountsNonneg(st, multiset{}, None, t);
    PhantomGrouped(st, s.src);
    var n := st.Num(t).AddPhantom(1);
    var m := AtRest.(lp := multiset{t});
    BumpPhantomKeeps(st, t, AtRest);
    assert multiset{} + multiset{t} == multiset{t};
    PutCountLoose(st, t, n, Phantom);
    var s1 := PutCount(st, t, n);
    SameGroups(st, s1);
    MergeObjsKeeps(s1, s.src, t, m);
    MergePutCommute(st, s.src, t, n);
    var s2 := MergeObjs(s1, s.src, t);
    MergeObjsBalanced(s1, s.src, t, m, multiset{Ref(t, Phantom)});
    PutFieldKeeps(s2, s, order, Link(t, false, true), multiset{t});
    PutFieldBalanced(s2, s, order, Link(t, false, true));
    assert NewLink(st, s, t, order) == PutField(s2, s, order, Some(Link(t, false, true)));
  }

  lemma SameGroups(a: State, b: State)
    requires a.collector == b.collector && a.cs.forward == b.cs.forward
    ensures forall o :: GroupOf(a, o) == GroupOf(b, o)
  {
    hide Group;
  }

  lemma MergeObjsBalanced(st: State, o: Oid, t: Oid, m: Mode, loose: multiset<Ref>)
    requires Sane(st, m) && o in st.g.objs && t in st.g.objs && Balanced(st, loose, None)
    ensures Balanced(MergeObjs(st, o, t), loose, None)
  {
    hide Homed, Local, Positive, Anchored, Scheduled, Uniform, Acyclic, HeldOrCleaned, LinksShape, Registered, Wired, Listed, Counted, Settled,
         Balance, MergeObjs;
    forall p, cls ensures Balance(MergeObjs(st, o, t), p, cls) == Balance(st, p, cls) {
      MergeObjsBalance(st, o, t, p, cls);
    }
  }

  lemma TakeFieldKeeps(st: State, s: Slot, order: seq<Field>)
    requires Inv(st) && s in st.g.links && Order(st.g, s, order, false)
    ensures var r := PutField(st, s, order, None); Sane(r, AtRest) && Balanced(r, OldRef(st.g.links, s), None)
  {
    hide Registered, Wired, Pointing, Listed, Counted, LinksShape, Homed, Local, Anchored, Acyclic, Positive, Uniform, Scheduled, HeldOrCleaned,
         NoDup, Balanced, OldRef, Order;
    TakeFieldShape(st.g, s, order);
    TakeFieldRest(st, s, order);
    TakeFieldBalanced(st, s, order);
  }

  lemma TakeFieldShape(g: Graph, s: Slot, order: seq<Field>)
    requires LinksShape(g) && Acyclic(g) && s in g.links && Order(g, s, order, false)
    ensures var h := g.(fields := g.fields[s.src := order], links := g.links - {s});
      LinksShape(h) && Acyclic(h) && s.src in g.objs
  {
    hide NoDup;
    var h := g.(fields := g.fields[s.src := order], links := g.links - {s});
    forall o | o in h.objs ensures NoDup(h.Keys(o)) {
      assert NoDup(g.Keys(o));
    }
    forall x: Slot ensures x in h.links <==> x.src in h.objs && x.field in h.Keys(x.src) {
      if x.src == s.src && x.field == s.field {
        assert x == s;
      }
    }
    AcyclicFewer(g, h);
  }

  lemma TakeFieldRest(st: State, s: Slot, order: seq<Field>)
    requires LinksShape(st.g) && s in st.g.links && Order(st.g, s, order, false)
    requires Local(st.g.links, st.collector, st.cs.forward) && HeldOrCleaned(st.g, st.collector, st.cs, st.tasks, AtRest)
    requires Positive(st.g, st.count, st.tasks) && Scheduled(st.g, st.count, st.cs.forward, st.tasks) && Uniform(st.g, None)
    ensures var r := PutField(st, s, order, None);
      Local(r.g.links, r.collector, r.cs.forward) && HeldOrCleaned(r.g, r.collector, r.cs, r.tasks, AtRest) &&
      Positive(r.g, r.count, r.tasks) && Scheduled(r.g, r.count, r.cs.forward, r.tasks) && Uniform(r.g, None)
  {
    hide Held, Group, NoDup;
  }

  lemma TakeFieldBalanced(st: State, s: Slot, order: seq<Field>)
    requires Balanced(st, multiset{}, None) && s in st.g.links
    ensures Balanced(PutField(st, s, order, None), OldRef(st.g.links, s), None)
  {
    var r := PutField(st, s, order, None);
    forall p, cls | p in r.g.objs ensures Balance(r, p, cls) == OldRef(st.g.links, s)[Ref(p, cls)] {
      SumRemove(st.g.links, LinkInto(p, cls), s);
      hide InLinks, Entries;
      assert Balance(st, p, cls) == 0;
    }
  }

  lemma LinkDecKeeps(st: State, l: Link)
    requires Sane(st, AtRest) && Balanced(st, multiset{Ref(l.target, ClassOf(l))}, None) && l.target in st.g.objs
    ensures Sane(LinkDec(st, l), AtRest) && Balanced(LinkDec(st, l), multiset{}, None)
  {
    hide Sane, Balanced, Dec, DecPhantom;
    assert multiset{} + multiset{Ref(l.target, ClassOf(l))} == multiset{Ref(l.target, ClassOf(l))};
    if l.phantomized {
      DecPhantomKeeps(st, l.target, multiset{}, AtRest);
    } else {
      LooseDecKeeps(st, l.target, l.which, multiset{});
    }
  }

  lemma SetFieldKeeps(st: State, s: Slot, ref: Option<Oid>, order: seq<Field>)
    requires Inv(st) && MaySet(st, s, ref, order)
    ensures Inv(SetField(st, s, ref, order))
  {
    hide Sane, Balanced, Reachable, NewLink, PutField, LinkDec, Order;
    if s in st.g.links && ref == Some(st.g.links[s].target) {
      return;
    }
    if s in st.g.links {
      OldTarget(st, s);
    }
    if ref.Some? {
      if st.g.Ph(s.src) {
        NewPhantomKeeps(st, s, ref.value, order);
      } else {
        NewPlainKeeps(st, s, ref.value, order);
      }
      NewLinkFrame(st, s, ref.value, order);
    } else if s in st.g.links {
      TakeFieldKeeps(st, s, order);
      TakeFrame(st, s, order);
    }
    if s in st.g.links {
      var s1 := if ref.Some? then NewLink(st, s, ref.value, order) else PutField(st, s, order, None);
      LinkDecKeeps(s1, st.g.links[s]);
      LinkDecGraph(s1, st.g.links[s]);
    }
  }

  lemma LinkDecGraph(st: State, l: Link)
    ensures LinkDec(st, l).g == st.g
  {
  }

  lemma OldTarget(st: State, s: Slot)
    requires Inv(st) && s in st.g.links
    ensures st.g.links[s].target in st.g.objs
  {
    hide Registered, Wired, Pointing, Listed, Counted, Homed, Local, Anchored, Acyclic, Positive, Uniform, Scheduled, HeldOrCleaned, Balanced;
  }

  lemma NewLinkFrame(st: State, s: Slot, t: Oid, order: seq<Field>)
    ensures var r := NewLink(st, s, t, order);
      r.g.objs == st.g.objs && r.g.claims == st.g.claims && s in r.g.links && r.g.links[s].target == t &&
      (forall x :: x != s ==> (x in r.g.links <==> x in st.g.links)) &&
      (forall x :: x != s && x in st.g.links ==> r.g.links[x] == st.g.links[x])
  {
    hide MergeObjs;
  }

  lemma TakeFrame(st: State, s: Slot, order: seq<Field>)
    ensures var r := PutField(st, s, order, None);
      r.g.objs == st.g.objs && r.g.claims == st.g.claims && r.g.links == st.g.links - {s}
  {
  }

  /** What a field holds after object_set, and that no other field has changed. */
  lemma GetAfterSet(st: State, s: Slot, ref: Option<Oid>, order: seq<Field>, x: Slot)
    ensures GetField(SetField(st, s, ref, order).g, x.src, x.field) == if x == s then ref else GetField(st.g, x.src, x.field)
  {
    if ref.Some? {
      NewLinkFrame(st, s, ref.value, order);
    }
    TakeFrame(st, s, order);
    hide NewLink, PutField, LinkDec;
    assert x == Slot(x.src, x.field);
  }
}

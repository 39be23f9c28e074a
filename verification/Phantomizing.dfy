/** Marking a node as a phantom keeps the invariant. */
module Phantomizing {
  import opened Wrappers
  import opened Forwarding
  import opened Sums
  import opened Model
  import opened Conservation
  import opened Invariant
  import opened Keeping

  // ---- What conservation says about single counts ----

  lemma CountsNonneg(st: State, loose: multiset<Ref>, hand: Option<Oid>, o: Oid)
    requires Balanced(st, loose, hand) && o in st.g.objs && o in st.count
    ensures st.count[o].n0 >= 0 && st.count[o].n1 >= 0 && st.count[o].n2 >= 0
  {
    hide InLinks, Entries;
    assert Balance(st, o, Bit(false)) >= 0 && Balance(st, o, Bit(true)) >= 0 && Balance(st, o, Phantom) >= 0;
  }

  /** A link in a table accounts for one of its target's counts. */
  lemma LinkCounted(st: State, loose: multiset<Ref>, hand: Option<Oid>, s: Slot)
    requires Balanced(st, loose, hand) && s in st.g.links && st.g.links[s].target in st.g.objs
    ensures var l := st.g.links[s]; Get(st.Num(l.target), ClassOf(l)) >= 1
  {
    var l := st.g.links[s];
    SumAtLeast(st.g.links, LinkInto(l.target, ClassOf(l)), s);
    hide Entries;
    assert Balance(st, l.target, ClassOf(l)) >= 0;
  }

  lemma EntryCounted(lists: Lists, lid: Lid, o: Oid)
    requires lid in lists && lid.kind != Rebuild && o in lists[lid].data
    ensures Entries(lists, o, false) >= 1
    ensures lid.kind == Collect ==> Entries(lists, o, true) >= 1
  {
    SumAtLeast(lists, Entry(o, false), lid);
    SumAtLeast(lists, Entry(o, true), lid);
  }

  /** Whoever is held has a phantom count. */
  lemma HeldCounted(st: State, loose: multiset<Ref>, hand: Option<Oid>, o: Oid)
    requires Balanced(st, loose, hand) && o in st.g.objs && Held(st.collector, st.cs, hand, o)
    ensures st.Num(o).n2 >= 1 + loose[Ref(o, Phantom)]
  {
    hide InLinks, Group;
    assert Balance(st, o, Phantom) == loose[Ref(o, Phantom)] + (if hand == Some(o) then 1 else 0);
    if hand != Some(o) {
      var c := Group(st.collector, st.cs.forward, o).value;
      var k := if o in Data(st.cs.lists, c, Merged) then Merged else if o in Data(st.cs.lists, c, Recovery) then Recovery else Clean;
      EntryCounted(st.cs.lists, Lid(c, k), o);
    }
    hide Entries;
  }

  // ---- One link ----

  lemma LinkEnds(st: State, s: Slot)
    requires Struct(st) && s in st.g.links
    ensures s.src in st.g.objs && s.src in st.count && s.src in st.collector
    ensures var t := st.g.links[s].target; t in st.g.objs && t in st.count && t in st.collector
  {
    hide Registered, Wired, Pointing, Listed, Counted;
  }

  lemma BumpPhantomKeeps(st: State, o: Oid, m: Mode)
    requires Sane(st, m) && o in st.g.objs && !st.count[o].Idle() && st.count[o].n2 >= 0
    ensures Sane(PutCount(st, o, st.count[o].AddPhantom(1)), m.(lp := m.lp + multiset{o}))
  {
    var n := st.count[o].AddPhantom(1);
    ScheduledPut(st, o, n);
    PutCountStruct(st, o, n);
    hide LinksShape, Registered, Wired, Pointing, Listed, Counted, Homed, Local, Acyclic, Uniform, HeldOrCleaned, Scheduled, Held;
    var m' := m.(lp := m.lp + multiset{o});
    assert HeldOrCleaned(st.g, st.collector, st.cs, st.tasks, m') by { HeldMode(st, m, m'); }
  }

  lemma HeldMode(st: State, m: Mode, m': Mode)
    requires HeldOrCleaned(st.g, st.collector, st.cs, st.tasks, m) && m'.hand == m.hand && m'.lax == m.lax
    ensures HeldOrCleaned(st.g, st.collector, st.cs, st.tasks, m')
  {
    hide Held, Group;
  }

  /** Changing links only, keeping keys and flags. */
  lemma LinksFrame(st: State, r: State, m: Mode)
    requires r == st.(g := st.g.(links := r.g.links))
    requires Positive(st.g, st.count, st.tasks)
    requires Scheduled(st.g, st.count, st.cs.forward, st.tasks)
    requires HeldOrCleaned(st.g, st.collector, st.cs, st.tasks, m)
    ensures Positive(r.g, r.count, r.tasks)
    ensures Scheduled(r.g, r.count, r.cs.forward, r.tasks)
    ensures HeldOrCleaned(r.g, r.collector, r.cs, r.tasks, m)
  {
    hide Held, Group;
  }

  lemma PutLinkStruct(st: State, s: Slot, l: Link)
    requires Struct(st) && s in st.g.links && l.target in st.g.objs
    ensures Struct(PutLink(st, s, l))
  {
    hide Registered, Wired, Pointing, Listed, Counted;
  }

  /** Flagging a link of the busy object once both ends share a group. */
  lemma FlagLinkKeeps(st: State, s: Slot, m: Mode, lp: multiset<Oid>)
    requires Sane(st, m) && s in st.g.links && !st.g.links[s].phantomized && m.busy == Some(s.src)
    requires GroupOf(st, s.src).Some? && GroupOf(st, s.src) == GroupOf(st, st.g.links[s].target)
    requires m.lp == lp + multiset{st.g.links[s].target}
    ensures Sane(PutLink(st, s, st.g.links[s].(phantomized := true)), m.(lp := lp))
    ensures var r := PutLink(st, s, st.g.links[s].(phantomized := true));
      GroupOf(r, s.src) == GroupOf(st, s.src) && forall c :: Joined(st, s.src, c) ==> Joined(r, s.src, c)
  {
    hide LinksShape, Registered, Wired, Pointing, Listed, Counted, Homed, Local, Acyclic, Uniform, HeldOrCleaned, Scheduled,
         Positive, Anchored, Group;
    var l := st.g.links[s];
    var l' := l.(phantomized := true);
    var r := PutLink(st, s, l');
    var m' := m.(lp := lp);
    LinkEnds(st, s);
    GroupSome(st, l.target);
    FlagLinkGraph(st.g, s, m.busy);
    PutLinkStruct(st, s, l');
    LinksFrame(st, r, m);
    HeldMode(r, m, m');
    AnchoredDrop(st.count, st.collector, st.tasks, lp, l.target);
    LocalPut(st, s, l');
  }

  lemma GroupSome(st: State, o: Oid)
    requires GroupOf(st, o).Some?
    ensures o in st.collector && st.collector[o].Some?
  {
  }

  lemma FlagLinkGraph(g: Graph, s: Slot, busy: Option<Oid>)
    requires s in g.links && !g.links[s].phantomized && busy == Some(s.src) && Uniform(g, busy) && Acyclic(g)
    ensures var g' := g.(links := g.links[s := g.links[s].(phantomized := true)]);
      Uniform(g', busy) && Acyclic(g')
  {
    var g' := g.(links := g.links[s := g.links[s].(phantomized := true)]);
    AcyclicFewer(g, g');
    hide Acyclic;
  }

  lemma AnchoredDrop(count: map<Oid, Count>, collector: Collectors, tasks: multiset<Task>, lp: multiset<Oid>, o: Oid)
    requires Anchored(count, collector, tasks, lp + multiset{o}) && o in collector && collector[o].Some?
    ensures Anchored(count, collector, tasks, lp)
  {
  }

  lemma LocalPut(st: State, s: Slot, l: Link)
    requires Local(st.g.links, st.collector, st.cs.forward)
    requires l.phantomized ==> GroupOf(st, s.src).Some? && GroupOf(st, s.src) == GroupOf(st, l.target)
    ensures Local(st.g.links[s := l], st.collector, st.cs.forward)
  {
    hide Group;
  }

  lemma AcyclicFewer(g: Graph, g': Graph)
    requires Acyclic(g) && g'.objs == g.objs
    requires forall s :: StrongEdge(g', s) ==> StrongEdge(g, s) && g'.links[s].target == g.links[s].target
    ensures Acyclic(g')
  {
    var rank: map<Oid, nat>, bound: nat :| StrongRank(g, rank, bound);
    assert StrongRank(g', rank, bound);
  }

  /** link_phantomize moves one reference from a plain count to the phantom
      count, and brings both ends into one group. */
  lemma PhantomizeLinkKeeps(st: State, s: Slot, m: Mode)
    requires Sane(st, m) && Balanced(st, multiset{}, m.hand)
    requires s in st.g.links && m.lp == multiset{} && m.busy == Some(s.src) && m.lax.None?
    requires forall lid :: lid in m.active ==> lid.kind == Recovery
    requires GroupOf(st, s.src).Some?
    ensures var r := PhantomizeLink(st, s);
      Sane(r, m) && Balanced(r, multiset{}, m.hand) && GroupOf(r, s.src).Some? &&
      r.g == st.g.(links := st.g.links[s := st.g.links[s].(phantomized := true)])
    ensures forall c :: Joined(st, s.src, c) ==> Joined(PhantomizeLink(st, s), s.src, c)
  {
    hide LinksShape, Registered, Wired, Pointing, Listed, Counted, Homed, Local, Acyclic, Uniform, HeldOrCleaned, Scheduled,
         Positive, Anchored, GroupOf, Balanced, Dec, MergeObjs, Joined, Moved;
    var l := st.g.links[s];
    if l.phantomized {
      assert PhantomizeLink(st, s) == st;
      assert st.g.links == st.g.links[s := l];
      return;
    }
    var t := l.target;
    var m1 := m.(lp := multiset{t});
    LinkEnds(st, s);
    LinkCounted(st, multiset{}, m.hand, s);
    CountsNonneg(st, multiset{}, m.hand, t);
    BumpPhantomKeeps(st, t, m);
    assert m.lp + multiset{t} == multiset{t};
    var s1 := PutCount(st, t, st.count[t].AddPhantom(1));
    var s2 := Dec(s1, t, l.which);
    var s3 := MergeObjs(s2, s.src, t);
    assert Struct(s1);
    hide Sane, Struct;
    DecKeeps(s1, t, l.which, m1);
    DecEffect(s1, t, l.which);
    MovedFrame(st, s1, s2);
    MovedAt(st, s2, 0, 0, s.src);
    JoinedAll(st, s2, 0, 0, s.src);
    MergeObjsKeeps(s2, s.src, t, m1);
    FlagLinkKeeps(s3, s, m1, multiset{});
    assert m1.(lp := multiset{}) == m;
    PhantomizeLinkBalanced(st, s, m);
  }

  /** object_dec leaves every group where it is, and the phantom count positive. */
  lemma DecEffect(st: State, o: Oid, w: bool)
    requires Struct(st) && o in st.g.objs
    ensures var r := Dec(st, o, w); Struct(r) && Moved(st, r, 0, 0)
    ensures st.count[o].n2 > 0 ==> o in Dec(st, o, w).count && Dec(st, o, w).count[o].n2 > 0
  {
    var n := st.count[o].AddPlain(w, -1);
    var s1 := PutCount(st, o, n);
    assert st.Num(o) == st.count[o] && n.n2 == st.count[o].n2;
    hide LinksShape, Registered, Wired, Pointing, Listed, Counted, Suspect, OneMore, Moved, GroupOf;
    PutCountStruct(st, o, n);
    if n.Plain(w) != 0 || w != st.Which(o) {
      MovedSame(st, s1);
    } else if n.Plain(!w) == 0 && n.n2 == 0 {
      MovedSame(st, Doom(s1, o));
    } else {
      SuspectQueued(s1, o);
      MovedFrame(st, s1, Suspect(s1, o));
    }
  }

  lemma MovedSame(a: State, b: State)
    requires b.collector == a.collector && b.cs.forward == a.cs.forward
    ensures Moved(a, b, 0, 0)
  {
    hide Group;
  }

  lemma PhantomizeLinkBalanced(st: State, s: Slot, m: Mode)
    requires Sane(st, m) && Balanced(st, multiset{}, m.hand)
    requires s in st.g.links && !st.g.links[s].phantomized && s.src in st.g.objs && st.g.links[s].target in st.g.objs
    requires st.g.links[s].target in st.count
    ensures Balanced(PhantomizeLink(st, s), multiset{}, m.hand)
  {
    hide LinksShape, Registered, Wired, Pointing, Listed, Counted, Homed, Local, Acyclic, Uniform, HeldOrCleaned, Scheduled,
         Positive, Anchored;
    var t := st.g.links[s].target;
    var n := st.count[t].AddPhantom(1);
    var s1 := PutCount(st, t, n);
    var s2 := Dec(s1, t, st.g.links[s].which);
    PutCountStruct(st, t, n);
    DecEffect(s1, t, st.g.links[s].which);
    hide Struct, Dec, Balance, PhantomizeLink, Sane;
    forall p, cls | p in st.g.objs ensures Balance(PhantomizeLink(st, s), p, cls) == Balance(st, p, cls) {
      PhantomizeLinkBalance(st, s, p, cls);
    }
    PhantomizeLinkObjs(st, s);
  }

  lemma PhantomizeLinkObjs(st: State, s: Slot)
    ensures PhantomizeLink(st, s).g.objs == st.g.objs
  {
  }

  lemma PhantomizeLinkBalance(st: State, s: Slot, p: Oid, cls: Class)
    requires Struct(st) && s in st.g.links && !st.g.links[s].phantomized && s.src in st.g.objs
    requires st.g.links[s].target in st.count
    requires Struct(PutCount(st, st.g.links[s].target, st.count[st.g.links[s].target].AddPhantom(1)))
    requires Struct(Dec(PutCount(st, st.g.links[s].target, st.count[st.g.links[s].target].AddPhantom(1)), st.g.links[s].target, st.g.links[s].which))
    ensures Balance(PhantomizeLink(st, s), p, cls) == Balance(st, p, cls)
  {
    hide LinksShape, Registered, Wired, Listed, Counted, Balance, Dec, MergeObjs, PutLink;
    var l := st.g.links[s];
    var n := st.count[l.target].AddPhantom(1);
    var s1 := PutCount(st, l.target, n);
    var s2 := Dec(s1, l.target, l.which);
    var s3 := MergeObjs(s2, s.src, l.target);
    assert st.Num(l.target) == st.count[l.target];
    assert Registered(s1.cs) && Registered(s2.cs) && Pointing(s2.collector, s2.cs.forward);
    hide Struct, Registered, Balance, Dec, MergeObjs, PutLink;
    PutCountBalance(st, l.target, n, p, cls);
    DecBalance(s1, l.target, l.which, p, cls);
    MergeObjsBalance(s2, s.src, l.target, p, cls);
    PutLinkBalance(s3, s, l.(phantomized := true), p, cls);
  }

  // ---- A whole node ----

  /** The links of `o` with a key in `ks` have become phantoms, no other link has changed. */
  ghost predicate Marked(a: Links, b: Links, o: Oid, ks: seq<Field>)
  {
    forall s :: (s in b <==> s in a) &&
      (s in a ==> b[s] == if s.src == o && s.field in ks then a[s].(phantomized := true) else a[s])
  }

  lemma {:induction false} PhantomizeLinksKeeps(st: State, o: Oid, ks: seq<Field>, m: Mode)
    requires Sane(st, m) && Balanced(st, multiset{}, m.hand)
    requires m.lp == multiset{} && m.busy == Some(o) && m.lax.None? && GroupOf(st, o).Some?
    requires forall lid :: lid in m.active ==> lid.kind == Recovery
    requires forall k :: k in ks ==> Slot(o, k) in st.g.links
    ensures var r := PhantomizeLinks(st, o, ks);
      Sane(r, m) && Balanced(r, multiset{}, m.hand) && GroupOf(r, o).Some? &&
      r.g == st.g.(links := r.g.links) && Marked(st.g.links, r.g.links, o, ks)
    ensures forall c :: Joined(st, o, c) ==> Joined(PhantomizeLinks(st, o, ks), o, c)
    decreases |ks|
  {
    hide Sane, Balanced, GroupOf, PhantomizeLink, Joined;
    if ks != [] {
      assert Slot(o, ks[0]) in st.g.links;
      PhantomizeLinkKeeps(st, Slot(o, ks[0]), m);
      PhantomizeLinksKeeps(PhantomizeLink(st, Slot(o, ks[0])), o, ks[1..], m);
    }
  }

  /** Once all links of the busy object are phantoms, nobody is busy any more. */
  lemma UniformDone(st: State, r: State, o: Oid, m: Mode)
    requires Sane(st, m) && r.g == st.g.(links := r.g.links) && Marked(st.g.links, r.g.links, o, st.g.Keys(o))
    requires Sane(r, m) && m.busy == Some(o) && st.g.Ph(o)
    ensures Sane(r, m.(busy := None))
  {
    hide Registered, Wired, Pointing, Listed, Counted, Homed, Local, Acyclic, HeldOrCleaned, Scheduled, Positive, Anchored;
    AllMarked(st.g, r.g, o);
    HeldMode(r, m, m.(busy := None));
  }

  lemma AllMarked(g: Graph, g': Graph, o: Oid)
    requires LinksShape(g) && g' == g.(links := g'.links) && Marked(g.links, g'.links, o, g.Keys(o))
    requires Uniform(g', Some(o)) && g.Ph(o)
    ensures Uniform(g', None)
  {
  }

  lemma UpdateCollKeeps(st: State, o: Oid, m: Mode)
    requires Sane(st, m) && o in st.g.objs && st.Coll(o).Some? && m.lax.None?
    ensures Sane(UpdateColl(st, o), m) && Moved(st, UpdateColl(st, o), 0, 0)
  {
    UpdateRoot(st, o);
    hide LinksShape, Registered, Wired, Pointing, Listed, Counted, Homed, Local, Acyclic, Uniform, HeldOrCleaned, Scheduled,
         Positive, GroupOf, Moved, SetColl;
    SetCollKeeps(st, o, Root(st.cs.forward, st.Coll(o).value), m);
  }

  lemma UpdateRoot(st: State, o: Oid)
    requires Struct(st) && o in st.g.objs && st.Coll(o).Some?
    ensures var c := Root(st.cs.forward, st.Coll(o).value);
      c in st.cs.forward && GroupOf(st, o) == Some(c) && Root(st.cs.forward, c) == c
  {
    hide LinksShape, Wired, Listed, Counted;
    RootRoot(st.cs.forward, st.Coll(o).value);
  }

  lemma UpdateCollBalanced(st: State, o: Oid, loose: multiset<Ref>, hand: Option<Oid>)
    requires Balanced(st, loose, hand)
    ensures Balanced(UpdateColl(st, o), loose, hand)
  {
    match st.Coll(o)
    case None =>
    case Some(c) =>
      forall p, cls ensures Balance(UpdateColl(st, o), p, cls) == Balance(st, p, cls) {
        SetCollBalance(st, o, Some(Root(st.cs.forward, c)), p, cls);
      }
      hide Balance, SetColl;
  }

  // ---- The head of a node ----

  /** Turning an object into a phantom keeps the strong links acyclic, whatever
      its which-bit becomes: its weak in-links may turn strong, but none of its
      own links counts any more. */
  lemma AcyclicPhantom(g: Graph, o: Oid, w: bool)
    requires Acyclic(g) && o in g.objs
    ensures Acyclic(g.(which := g.which[o := w], phantomized := g.phantomized[o := true]))
  {
    var rank: map<Oid, nat>, bound: nat :| StrongRank(g, rank, bound);
    var g' := g.(which := g.which[o := w], phantomized := g.phantomized[o := true]);
    var rank' := rank[o := bound + 1];
    forall s | StrongEdge(g', s) && s.src in rank' && g'.links[s].target in rank'
      ensures rank'[s.src] < rank'[g'.links[s].target]
    {
      assert s.src != o;
      if g'.links[s].target != o {
        assert StrongEdge(g, s);
      }
    }
    assert StrongRank(g', rank', bound + 1);
  }

  lemma FlagsStruct(st: State, o: Oid, w: bool, ph: bool)
    requires Struct(st) && o in st.g.objs
    ensures Struct(PutFlags(st, o, w, ph))
  {
    hide Registered, Wired, Pointing, Listed, Counted;
  }

  /** The invariant after object_phantomize_node has run out of strong counts. */
  lemma PhantomHeadKeeps(st: State, o: Oid, n: Count, w: bool, m: Mode)
    requires Sane(st, m) && o in st.g.objs && m.hand == Some(o) && m.busy.None? && GroupOf(st, o).Some?
    requires n.n2 == st.count[o].n2 && n.n2 > 0
    requires n.Plain(!w) == 0
    ensures Sane(PutFlags(PutCount(st, o, n), o, w, true), m.(busy := if st.g.Ph(o) then None else Some(o)))
  {
    hide LinksShape, Registered, Wired, Pointing, Listed, Counted, Homed, Local, Acyclic, Uniform, HeldOrCleaned, Scheduled,
         Positive, Anchored, GroupOf;
    var s1 := PutCount(st, o, n);
    var r := PutFlags(s1, o, w, true);
    var m' := m.(busy := if st.g.Ph(o) then None else Some(o));
    PutCountStruct(st, o, n);
    FlagsStruct(s1, o, w, true);
    AcyclicPhantom(st.g, o, w);
    PhantomHeadCounts(st, o, n, w, m.lp);
    PhantomHeadFlags(st, o, n, w, m);
  }

  lemma PhantomHeadCounts(st: State, o: Oid, n: Count, w: bool, lp: multiset<Oid>)
    requires o in st.count && o in st.collector
    requires Positive(st.g, st.count, st.tasks) && Anchored(st.count, st.collector, st.tasks, lp)
    requires Scheduled(st.g, st.count, st.cs.forward, st.tasks)
    requires n.n2 == st.count[o].n2 && n.n2 > 0 && n.Plain(!w) == 0
    ensures var r := PutFlags(PutCount(st, o, n), o, w, true);
      Positive(r.g, r.count, r.tasks) && Anchored(r.count, r.collector, r.tasks, lp) &&
      Scheduled(r.g, r.count, r.cs.forward, r.tasks)
  {
    NotIdleNotDoomed(st, o);
  }

  lemma PhantomHeadFlags(st: State, o: Oid, n: Count, w: bool, m: Mode)
    requires o in st.g.objs && m.hand == Some(o) && m.busy.None? && GroupOf(st, o).Some?
    requires Uniform(st.g, None)
    requires HeldOrCleaned(st.g, st.collector, st.cs, st.tasks, m)
    ensures var r, busy := PutFlags(PutCount(st, o, n), o, w, true), if st.g.Ph(o) then None else Some(o);
      Uniform(r.g, busy) && HeldOrCleaned(r.g, r.collector, r.cs, r.tasks, m.(busy := busy))
  {
    var r := PutFlags(PutCount(st, o, n), o, w, true);
    assert Held(st.collector, st.cs, m.hand, o);
    hide Group, Held;
  }

  // ---- object_phantomize_node ----

  /** The bit a node has after object_phantomize_node has used up its strong count. */
  ghost function HeadWhich(st: State, o: Oid): bool
  {
    if st.Num(o).Plain(!st.Which(o)) > 0 then !st.Which(o) else st.Which(o)
  }

  lemma PhantomizeHeadBalanced(st: State, o: Oid)
    requires Balanced(st, multiset{Ref(o, Bit(st.Which(o)))}, Some(o)) && o in st.g.objs
    ensures Balanced(PhantomizeHead(st, o), multiset{}, Some(o))
    ensures st.Num(o).Plain(st.Which(o)) >= 1 && st.Num(o).Plain(!st.Which(o)) >= 0 && st.Num(o).n2 >= 1
  {
    var w := st.Which(o);
    var n := st.Num(o).AddPlain(w, -1);
    var r := PhantomizeHead(st, o);
    hide InLinks, Entries;
    assert Balance(st, o, Bit(w)) == 1 && Balance(st, o, Bit(!w)) == 0 && Balance(st, o, Phantom) == 1;
    forall p, cls | p in r.g.objs
      ensures Balance(r, p, cls) == if cls == Phantom && p == o then 1 else 0
    {
      assert Balance(st, p, cls) == (if p == o && cls == Bit(w) then 1 else 0) + (if cls == Phantom && p == o then 1 else 0);
      PhantomizeHeadBalance(st, o, p, cls);
    }
  }

  lemma PhantomizeHeadBalance(st: State, o: Oid, p: Oid, cls: Class)
    requires st.Num(o).Plain(st.Which(o)) >= 1
    requires Balance(st, o, Bit(st.Which(o))) == 1
    ensures Balance(PhantomizeHead(st, o), p, cls) ==
      Balance(st, p, cls) - if p == o && cls == Bit(st.Which(o)) then 1 else 0
  {
    hide InLinks, Entries;
  }
}

/** The collect phase of collector_run: every suspect is marked as a phantom and
    moves on to the recovery list. */
module CollectPhase {
  import opened Wrappers
  import opened Forwarding
  import opened Sums
  import opened Model
  import opened Conservation
  import opened Invariant
  import opened Keeping
  import opened Phantomizing

  ghost function Head(st: State, c: Cid, k: Kind): Oid
    requires Data(st.cs.lists, c, k) != []
  {
    Data(st.cs.lists, c, k)[0]
  }

  /** One round of the loop over the collect list. */
  ghost function CollectStep(st: State, c: Cid): State
    requires Data(st.cs.lists, c, Collect) != []
  {
    var o := Head(st, c, Collect);
    ListAdd(PhantomizeNode(Poll(st, Lid(c, Collect)), o), Lid(c, Recovery), o)
  }

  ghost function CollectMode(c: Cid, hand: Option<Oid>, busy: Option<Oid>): Mode
  {
    Mode(multiset{}, hand, busy, None, {Lid(c, Recovery)})
  }

  // ---- Polling ----

  lemma PollHomed(st: State, lid: Lid)
    requires ListAt(st.cs.lists, lid).data != []
    requires Homed(st.collector, st.cs.forward, st.cs.lists)
    ensures var r := Poll(st, lid); Homed(r.collector, r.cs.forward, r.cs.lists)
  {
    var r := Poll(st, lid);
    assert forall x, p :: x in r.cs.lists && p in r.cs.lists[x].data ==> x in st.cs.lists && p in st.cs.lists[x].data;
    hide Group;
  }

  /** Polling one entry leaves its owner held: it is now in the hands of the collector. */
  lemma PollHeld(st: State, lid: Lid, m: Mode)
    requires ListAt(st.cs.lists, lid).data != [] && m.hand.None?
    requires HeldOrCleaned(st.g, st.collector, st.cs, st.tasks, m)
    ensures var r := Poll(st, lid);
      HeldOrCleaned(r.g, r.collector, r.cs, r.tasks, m.(hand := Some(st.cs.lists[lid].data[0])))
  {
    var r := Poll(st, lid);
    var o := st.cs.lists[lid].data[0];
    forall p, c, k | p in Data(st.cs.lists, c, k) && p != o ensures p in Data(r.cs.lists, c, k) {
      assert st.cs.lists[lid].data == [o] + r.cs.lists[lid].data;
    }
    hide Group, Data;
  }

  lemma PollKeeps(st: State, lid: Lid, m: Mode)
    requires Sane(st, m) && m.hand.None? && ListAt(st.cs.lists, lid).data != []
    ensures Sane(Poll(st, lid), m.(hand := Some(st.cs.lists[lid].data[0])))
    ensures st.cs.lists[lid].data[0] in st.g.objs && lid.coll in st.cs.forward && st.cs.forward[lid.coll].None?
    ensures lid.kind != Rebuild ==> GroupOf(st, st.cs.lists[lid].data[0]) == Some(lid.coll)
  {
    hide LinksShape, Registered, Wired, Pointing, Listed, Counted, Homed, Local, Acyclic, Uniform, HeldOrCleaned, Scheduled,
         Positive, Anchored, Settled, Poll;
    ListedOwner(st, lid);
    PollStruct(st, lid);
    PollHomed(st, lid);
    PollHeld(st, lid, m);
    PollFrame(st, lid, m.active);
  }

  lemma PollFrame(st: State, lid: Lid, active: set<Lid>)
    requires ListAt(st.cs.lists, lid).data != [] && Settled(st.cs.lists, active)
    ensures var r := Poll(st, lid);
      r.g == st.g && r.count == st.count && r.collector == st.collector && r.tasks == st.tasks && r.cs.forward == st.cs.forward &&
      Settled(r.cs.lists, active)
  {
  }

  lemma ListedOwner(st: State, lid: Lid)
    requires Struct(st) && ListAt(st.cs.lists, lid).data != []
    requires Homed(st.collector, st.cs.forward, st.cs.lists)
    ensures lid in st.cs.lists && st.cs.lists[lid].data[0] in st.g.objs && lid.coll in st.cs.forward && st.cs.forward[lid.coll].None?
    ensures lid.kind != Rebuild ==> GroupOf(st, st.cs.lists[lid].data[0]) == Some(lid.coll)
  {
    hide LinksShape, Pointing, Counted, Group;
    assert lid in st.cs.lists;
    var o := st.cs.lists[lid].data[0];
    assert o in st.cs.lists[lid].data;
  }

  /** Polling turns the two counts of a collect entry into loose references. */
  lemma PollCollectBalanced(st: State, c: Cid)
    requires Balanced(st, multiset{}, None) && Data(st.cs.lists, c, Collect) != []
    ensures var o := Head(st, c, Collect);
      Balanced(Poll(st, Lid(c, Collect)), multiset{Ref(o, Bit(st.Which(o)))}, Some(o))
  {
    var o := Head(st, c, Collect);
    hide Balance;
    forall p, cls | p in st.g.objs
      ensures Balance(Poll(st, Lid(c, Collect)), p, cls) ==
        multiset{Ref(o, Bit(st.Which(o)))}[Ref(p, cls)] + (if cls == Phantom && p == o then 1 else 0)
    {
      PollBalance(st, Lid(c, Collect), p, cls);
      assert Balance(st, p, cls) == 0;
    }
  }

  // ---- Putting an entry back ----

  lemma ListAddKeeps(st: State, lid: Lid, o: Oid, m: Mode)
    requires Sane(st, m) && m.hand == Some(o) && m.lax.None? && o in st.g.objs
    requires lid.kind == Recovery || lid.kind == Clean || lid.kind == Merged
    requires Joined(st, o, lid.coll) && lid in m.active
    ensures Sane(ListAdd(st, lid, o), m.(hand := None))
    ensures ListEnd(st.cs.forward, lid).kind != Rebuild && ListEnd(st.cs.forward, lid).kind != Collect
  {
    var e := ListEnd(st.cs.forward, lid);
    JoinedEnd(st, lid, o);
    hide LinksShape, Registered, Wired, Pointing, Listed, Counted, Homed, Local, Acyclic, Uniform, HeldOrCleaned, Scheduled,
         Positive, Anchored, ListEnd, Joined, GroupOf, Settled;
    AppendStruct(st, e, o);
    AppendHomed(st, e, o);
    AppendHeld(st, e, o, m);
    AppendSettled(st, e, o, m.active);
  }

  lemma JoinedEnd(st: State, lid: Lid, o: Oid)
    requires Struct(st) && Joined(st, o, lid.coll) && (lid.kind == Recovery || lid.kind == Clean || lid.kind == Merged)
    ensures var e := ListEnd(st.cs.forward, lid);
      e in st.cs.lists && e.coll in st.cs.forward && st.cs.forward[e.coll].None? && GroupOf(st, o) == Some(e.coll) &&
      (e == lid || e.kind == Merged)
  {
    RootRoot(st.cs.forward, lid.coll);
    var e := ListEnd(st.cs.forward, lid);
    hide LinksShape, Wired, Pointing, Listed, Counted, Group;
    HasList(st.cs, e.coll, e.kind);
  }

  lemma AppendHomed(st: State, lid: Lid, o: Oid)
    requires Homed(st.collector, st.cs.forward, st.cs.lists) && GroupOf(st, o) == Some(lid.coll)
    ensures var r := Append(st, lid, o); Homed(r.collector, r.cs.forward, r.cs.lists)
  {
    hide Group;
    assert Group(st.collector, st.cs.forward, o) == Some(lid.coll);
  }

  lemma AppendHeld(st: State, lid: Lid, o: Oid, m: Mode)
    requires m.hand == Some(o) && m.lax.None? && GroupOf(st, o) == Some(lid.coll)
    requires lid.kind == Recovery || lid.kind == Clean || lid.kind == Merged
    requires HeldOrCleaned(st.g, st.collector, st.cs, st.tasks, m)
    ensures var r := Append(st, lid, o); HeldOrCleaned(r.g, r.collector, r.cs, r.tasks, m.(hand := None))
  {
    var r := Append(st, lid, o);
    assert o in Data(r.cs.lists, lid.coll, lid.kind);
    forall p, c, k | p in Data(st.cs.lists, c, k) ensures p in Data(r.cs.lists, c, k) {
    }
    hide Group, Data;
    assert Group(st.collector, st.cs.forward, o) == Some(lid.coll);
  }

  lemma AppendSettled(st: State, lid: Lid, o: Oid, active: set<Lid>)
    requires Settled(st.cs.lists, active) && (lid in active || lid.kind == Merged)
    ensures Settled(Append(st, lid, o).cs.lists, active)
  {
  }

  /** The entry that was in hand is now counted as an entry of the list. */
  lemma ListAddBalanced(st: State, lid: Lid, o: Oid)
    requires Balanced(st, multiset{}, Some(o))
    requires ListEnd(st.cs.forward, lid).kind != Rebuild && ListEnd(st.cs.forward, lid).kind != Collect
    ensures Balanced(ListAdd(st, lid, o), multiset{}, None)
  {
    hide Balance, ListEnd;
    forall p, cls | p in st.g.objs ensures Balance(ListAdd(st, lid, o), p, cls) == 0 {
      AppendBalance(st, ListEnd(st.cs.forward, lid), o, p, cls);
      assert Balance(st, p, cls) == if cls == Phantom && p == o then 1 else 0;
    }
  }

  // ---- One node ----

  /** The object graph up to flags: same objects, fields, claims and link targets. */
  ghost predicate SameTargets(a: Graph, b: Graph)
  {
    && b.objs == a.objs && b.fields == a.fields && b.claims == a.claims
    && (forall s :: s in b.links <==> s in a.links)
    && (forall s :: s in a.links ==> b.links[s].target == a.links[s].target)
  }

  lemma MarkedTargets(a: Graph, b: Graph, o: Oid, ks: seq<Field>)
    requires b.objs == a.objs && b.fields == a.fields && b.claims == a.claims && Marked(a.links, b.links, o, ks)
    ensures SameTargets(a, b)
  {
  }

  ghost function Unmarked(): (Slot, Link) -> nat
  {
    (s: Slot, l: Link) => if l.phantomized then 0 else 1
  }

  /** The number of links that are not phantoms. */
  ghost function PlainLinks(g: Graph): nat
  {
    Sum(g.links, Unmarked())
  }

  lemma MarkedFewer(a: Graph, b: Graph, o: Oid, ks: seq<Field>)
    requires Marked(a.links, b.links, o, ks)
    ensures PlainLinks(b) <= PlainLinks(a)
    ensures (exists k :: k in ks && Slot(o, k) in a.links && !a.links[Slot(o, k)].phantomized) ==> PlainLinks(b) < PlainLinks(a)
  {
    assert b.links.Keys == a.links.Keys;
    SumMonotone(b.links, a.links, Unmarked());
    if k :| k in ks && Slot(o, k) in a.links && !a.links[Slot(o, k)].phantomized {
      assert Slot(o, k) in b.links && Unmarked()(Slot(o, k), b.links[Slot(o, k)]) < Unmarked()(Slot(o, k), a.links[Slot(o, k)]);
    }
  }

  lemma {:induction false} PhantomizeLinksIdle(st: State, o: Oid, ks: seq<Field>)
    requires forall k :: k in ks && Slot(o, k) in st.g.links ==> st.g.links[Slot(o, k)].phantomized
    ensures PhantomizeLinks(st, o, ks) == st
    decreases |ks|
  {
    if ks != [] {
      assert ks[0] in ks;
      PhantomizeLinksIdle(st, o, ks[1..]);
    }
  }

  /** The state in which object_phantomize_node starts on the links, if it does. */
  ghost function NodeHead(st: State, o: Oid): State
  {
    PhantomizeHead(UpdateColl(st, o), o)
  }

  lemma NodeHeadKeeps(st: State, c: Cid, o: Oid)
    requires Sane(st, CollectMode(c, Some(o), None))
    requires Balanced(st, multiset{Ref(o, Bit(st.Which(o)))}, Some(o))
    requires o in st.g.objs && Joined(st, o, c)
    ensures var r := NodeHead(st, o);
      Sane(r, CollectMode(c, Some(o), if r.g.Ph(o) && !st.g.Ph(o) then Some(o) else None)) &&
      Balanced(r, multiset{}, Some(o)) && Joined(r, o, c) && r.cs.lists == st.cs.lists &&
      r.g.links == st.g.links && r.g.objs == st.g.objs && r.g.fields == st.g.fields && r.g.claims == st.g.claims
  {
    hide LinksShape, Registered, Wired, Pointing, Listed, Counted, Homed, Local, Acyclic, Uniform, HeldOrCleaned, Scheduled,
         Positive, Anchored, Settled, Joined, GroupOf, Balanced, UpdateColl, Moved;
    var m := CollectMode(c, Some(o), None);
    var s0 := UpdateColl(st, o);
    JoinedGroup(st, o, c);
    UpdateCollKeeps(st, o, m);
    JoinedAll(st, s0, 0, 0, o);
    UpdateCollBalanced(st, o, multiset{Ref(o, Bit(st.Which(o)))}, Some(o));
    PhantomizeHeadBalanced(s0, o);
    JoinedGroup(s0, o, c);
    var w := s0.Which(o);
    var n := s0.Num(o).AddPlain(w, -1);
    JoinedSame(s0, PhantomizeHead(s0, o), o);
    if n.Plain(w) > 0 {
      DecPlainKeeps(s0, o, n, m);
    } else {
      PhantomHeadKeeps(s0, o, n, HeadWhich(s0, o), m);
    }
  }

  /** object_phantomize_node on an entry just polled from the collect list. Either
      some link becomes a phantom, or no link and no list changes. */
  lemma PhantomizeNodeKeeps(st: State, c: Cid, o: Oid)
    requires Sane(st, CollectMode(c, Some(o), None))
    requires Balanced(st, multiset{Ref(o, Bit(st.Which(o)))}, Some(o))
    requires o in st.g.objs && Joined(st, o, c)
    ensures var r := PhantomizeNode(st, o);
      Sane(r, CollectMode(c, Some(o), None)) && Balanced(r, multiset{}, Some(o)) && Joined(r, o, c) && SameTargets(st.g, r.g) &&
      (PlainLinks(r.g) < PlainLinks(st.g) || (r.g.links == st.g.links && r.cs.lists == st.cs.lists))
  {
    hide Sane, Joined, GroupOf, Balanced, PhantomizeLinks, NodeHead, PlainLinks;
    NodeHeadKeeps(st, c, o);
    var s1 := NodeHead(st, o);
    PhantomizeNodeHead(st, o);
    if s1.g.Ph(o) && !st.g.Ph(o) {
      var ks := st.g.Keys(o);
      var m := CollectMode(c, Some(o), Some(o));
      JoinedGroup(s1, o, c);
      KeysInLinks(s1, m);
      PhantomizeLinksKeeps(s1, o, ks, m);
      var r := PhantomizeLinks(s1, o, ks);
      UniformDone(s1, r, o, m);
      MarkedTargets(s1.g, r.g, o, ks);
      MarkedFewer(s1.g, r.g, o, ks);
      PlainSame(st.g, s1.g);
      if forall k :: k in ks && Slot(o, k) in s1.g.links ==> s1.g.links[Slot(o, k)].phantomized {
        PhantomizeLinksIdle(s1, o, ks);
      }
    }
  }

  lemma PlainSame(a: Graph, b: Graph)
    requires a.links == b.links
    ensures PlainLinks(a) == PlainLinks(b)
  {
  }

  lemma PhantomizeNodeHead(st: State, o: Oid)
    ensures var s1 := NodeHead(st, o);
      PhantomizeNode(st, o) == if st.g.Ph(o) || !s1.g.Ph(o) then s1 else PhantomizeLinks(s1, o, st.g.Keys(o))
  {
    hide UpdateColl, PhantomizeHead, PhantomizeLinks;
  }

  lemma JoinedGroup(st: State, o: Oid, c: Cid)
    requires Joined(st, o, c)
    ensures GroupOf(st, o).Some? && st.Coll(o).Some?
  {
  }

  lemma JoinedSame(a: State, b: State, o: Oid)
    requires b.collector == a.collector && b.cs.forward == a.cs.forward
    ensures forall c :: Joined(a, o, c) ==> Joined(b, o, c)
  {
    hide Group, Root;
  }

  lemma KeysInLinks(st: State, m: Mode)
    requires Sane(st, m)
    ensures forall o, k :: o in st.g.objs && k in st.g.Keys(o) ==> Slot(o, k) in st.g.links
  {
    hide Registered, Wired, Pointing, Listed, Counted, Homed, Local, Acyclic, Uniform, HeldOrCleaned, Scheduled, Positive, Anchored;
  }

  // ---- The merged list stays empty ----

  /** As long as `c` is not forwarded, nobody has touched its merged list. */
  ghost predicate Kept(a: Collecting, b: Collecting, c: Cid)
  {
    c in a.forward ==>
      c in b.forward && (b.forward[c].None? ==> a.forward[c].None? && Data(b.lists, c, Merged) == Data(a.lists, c, Merged))
  }

  lemma KeptSame(a: Collecting, b: Collecting, c: Cid)
    requires b.forward == a.forward && b.lists == a.lists
    ensures Kept(a, b, c)
  {
  }

  lemma AppendKept(st: State, lid: Lid, o: Oid, c: Cid)
    requires lid != Lid(c, Merged)
    ensures Kept(st.cs, Append(st, lid, o).cs, c)
  {
  }

  lemma NewCollKept(st: State, c: Cid)
    requires Registered(st.cs)
    ensures Kept(st.cs, NewColl(st).cs, c)
  {
    NewListsAt(st.cs.lists, st.cs.next);
    hide NewLists;
    if c in st.cs.forward {
      HasList(st.cs, c, Merged);
    }
  }

  lemma AddObjectKept(st: State, d: Cid, o: Oid, c: Cid)
    ensures Kept(st.cs, AddObject(st, d, o).cs, c)
  {
    var s1 := PutCount(st, o, st.Num(o).AddPlain(st.Which(o), 1).AddPhantom(1));
    var lid := Lid(Root(st.cs.forward, d), Collect);
    hide Append, SetColl, Root;
    AppendKept(s1, lid, o, c);
    KeptSame(Append(s1, lid, o).cs, AddObject(st, d, o).cs, c);
  }

  lemma DecKept(st: State, o: Oid, w: bool, c: Cid)
    requires Registered(st.cs)
    ensures Kept(st.cs, Dec(st, o, w).cs, c)
  {
    hide AddObject, NewColl, SetColl, Registered;
    var s1 := PutCount(st, o, st.Num(o).AddPlain(w, -1));
    if s1.Coll(o).Some? {
      AddObjectKept(s1, s1.Coll(o).value, o, c);
    } else {
      var n := NewColl(s1);
      var s2 := SetColl(n, o, Some(st.cs.next));
      NewCollKept(s1, c);
      KeptSame(n.cs, s2.cs, c);
      AddObjectKept(s2, st.cs.next, o, c);
    }
  }

  /** A merge on behalf of an object of `c` can only forward `c` away. */
  lemma MergeObjsKept(st: State, obj: Oid, target: Oid, c: Cid)
    requires Struct(st) && Joined(st, obj, c)
    ensures Kept(st.cs, MergeObjs(st, obj, target).cs, c)
  {
    hide LinksShape, Wired, Listed, Counted, SetColl, Join;
    var s, t := st.Coll(obj), st.Coll(target);
    var r := MergeObjs(st, obj, target);
    RootRoot(st.cs.forward, c);
    if s.Some? && t.Some? && s != t {
      RootRoot(st.cs.forward, s.value);
      var rt, rs := Root(st.cs.forward, t.value), Root(st.cs.forward, s.value);
      JoinForward(st.cs, rt, rs);
      if rt != rs {
        KeptSame(Join(st.cs, rt, rs), r.cs, c);
      }
    }
  }

  lemma PhantomizeLinkKept(st: State, s: Slot, c: Cid)
    requires Struct(st) && Joined(st, s.src, c)
    ensures Kept(st.cs, PhantomizeLink(st, s).cs, c)
  {
    hide Kept, Dec, MergeObjs, Joined, Moved, LinksShape, Registered, Wired, Pointing, Listed, Counted;
    if s !in st.g.links || st.g.links[s].phantomized {
      KeptSame(st.cs, st.cs, c);
      return;
    }
    var l := st.g.links[s];
    var n := st.Num(l.target).AddPhantom(1);
    var s1 := PutCount(st, l.target, n);
    var s2 := Dec(s1, l.target, l.which);
    var s3 := MergeObjs(s2, s.src, l.target);
    LinkEnds(st, s);
    PutCountStruct(st, l.target, n);
    DecEffect(s1, l.target, l.which);
    DecKept(s1, l.target, l.which, c);
    JoinedSame(st, s1, s.src);
    JoinedAll(s1, s2, 0, 0, s.src);
    MergeObjsKept(s2, s.src, l.target, c);
    KeptTrans(st.cs, s2.cs, s3.cs, c);
  }

  lemma KeptTrans(a: Collecting, b: Collecting, d: Collecting, c: Cid)
    requires Kept(a, b, c) && Kept(b, d, c)
    ensures Kept(a, d, c)
  {
  }

  lemma {:induction false} PhantomizeLinksKept(st: State, o: Oid, ks: seq<Field>, m: Mode, c: Cid)
    requires Sane(st, m) && Balanced(st, multiset{}, m.hand) && Joined(st, o, c)
    requires m.lp == multiset{} && m.busy == Some(o) && m.lax.None? && GroupOf(st, o).Some?
    requires forall lid :: lid in m.active ==> lid.kind == Recovery
    requires forall k :: k in ks ==> Slot(o, k) in st.g.links
    ensures Kept(st.cs, PhantomizeLinks(st, o, ks).cs, c)
    decreases |ks|
  {
    hide Balanced, GroupOf, PhantomizeLink, Joined, Struct, Homed, Local, Positive, Anchored, Scheduled, Uniform, Acyclic, HeldOrCleaned, Kept, Settled;
    if ks == [] {
      KeptSame(st.cs, st.cs, c);
    } else {
      var s := Slot(o, ks[0]);
      assert s in st.g.links;
      PhantomizeLinkKeeps(st, s, m);
      PhantomizeLinkKept(st, s, c);
      var s1 := PhantomizeLink(st, s);
      PhantomizeLinksKept(s1, o, ks[1..], m, c);
      KeptTrans(st.cs, s1.cs, PhantomizeLinks(st, o, ks).cs, c);
    }
  }

  lemma PhantomizeNodeKept(st: State, c: Cid, o: Oid)
    requires Sane(st, CollectMode(c, Some(o), None))
    requires Balanced(st, multiset{Ref(o, Bit(st.Which(o)))}, Some(o))
    requires o in st.g.objs && Joined(st, o, c)
    ensures Kept(st.cs, PhantomizeNode(st, o).cs, c)
  {
    hide Sane, Joined, GroupOf, Balanced, PhantomizeLinks, PhantomizeHead, UpdateColl, Kept;
    NodeHeadKeeps(st, c, o);
    var s1 := NodeHead(st, o);
    PhantomizeNodeHead(st, o);
    NodeHeadKept(st, o, c);
    if s1.g.Ph(o) && !st.g.Ph(o) {
      var m := CollectMode(c, Some(o), Some(o));
      JoinedGroup(s1, o, c);
      KeysInLinks(s1, m);
      PhantomizeLinksKept(s1, o, st.g.Keys(o), m, c);
      KeptTrans(st.cs, s1.cs, PhantomizeNode(st, o).cs, c);
    }
  }

  lemma NodeHeadKept(st: State, o: Oid, c: Cid)
    ensures Kept(st.cs, NodeHead(st, o).cs, c)
  {
    hide Kept, SetColl, UpdateColl;
    KeptSame(st.cs, NodeHead(st, o).cs, c);
  }

  // ---- The loop ----

  ghost predicate CollectInv(st: State, c: Cid)
  {
    && Sane(st, CollectMode(c, None, None)) && Balanced(st, multiset{}, None)
    && c in st.cs.forward && Data(st.cs.lists, c, Merged) == []
  }

  /** Every round keeps the invariant and comes closer to the end: either a link
      becomes a phantom or the collect list gets shorter. */
  lemma CollectStepKeeps(st: State, c: Cid)
    requires CollectInv(st, c) && Data(st.cs.lists, c, Collect) != []
    ensures var r := CollectStep(st, c);
      CollectInv(r, c) && SameTargets(st.g, r.g) &&
      (PlainLinks(r.g) < PlainLinks(st.g) ||
       (PlainLinks(r.g) == PlainLinks(st.g) && |Data(r.cs.lists, c, Collect)| < |Data(st.cs.lists, c, Collect)|))
  {
    hide Sane, Balanced, PhantomizeNode, Poll, ListAdd, Joined, ListEnd, PlainLinks, Kept;
    var o := Head(st, c, Collect);
    var s1 := Poll(st, Lid(c, Collect));
    PollKeeps(st, Lid(c, Collect), CollectMode(c, None, None));
    PollCollectBalanced(st, c);
    PollJoined(st, Lid(c, Collect), o);
    PhantomizeNodeKeeps(s1, c, o);
    PhantomizeNodeKept(s1, c, o);
    var s2 := PhantomizeNode(s1, o);
    var r := ListAdd(s2, Lid(c, Recovery), o);
    ListAddKeeps(s2, Lid(c, Recovery), o, CollectMode(c, Some(o), None));
    ListAddBalanced(s2, Lid(c, Recovery), o);
    AppendGraph(s2, Lid(c, Recovery), o, c);
    PollShorter(st, c, Collect);
    MergedStays(st, s1, s2, r, c, o);
    PlainSame(s2.g, r.g);
    if s2.g.links == s1.g.links {
      PlainSame(s2.g, s1.g);
    }
  }

  lemma MergedStays(st: State, s1: State, s2: State, r: State, c: Cid, o: Oid)
    requires Data(st.cs.lists, c, Collect) != [] && s1 == Poll(st, Lid(c, Collect)) && Kept(s1.cs, s2.cs, c)
    requires r == ListAdd(s2, Lid(c, Recovery), o) && c in st.cs.forward && Data(st.cs.lists, c, Merged) == []
    requires Sane(r, CollectMode(c, None, None))
    ensures Data(r.cs.lists, c, Merged) == []
  {
    hide Homed, Local, Positive, Anchored, Scheduled, Uniform, Acyclic, HeldOrCleaned, Settled, LinksShape, Pointing, Listed, Counted, Root;
    if r.cs.forward[c].Some? {
      HasList(r.cs, c, Merged);
    }
  }

  lemma PollShorter(st: State, c: Cid, k: Kind)
    requires Data(st.cs.lists, c, k) != []
    ensures |Data(Poll(st, Lid(c, k)).cs.lists, c, k)| == |Data(st.cs.lists, c, k)| - 1
  {
  }

  /** The loop over the collect list runs until the list is empty; it also ends
      when the collector is forwarded half-way, because then its list is empty. */
  ghost function CollectLoop(st: State, c: Cid): (r: State)
    requires CollectInv(st, c)
    ensures CollectInv(r, c) && Data(r.cs.lists, c, Collect) == [] && SameTargets(st.g, r.g)
    decreases PlainLinks(st.g), |Data(st.cs.lists, c, Collect)|
  {
    if Data(st.cs.lists, c, Collect) == [] then st
    else
      CollectStepKeeps(st, c);
      CollectLoop(CollectStep(st, c), c)
  }

  lemma PollJoined(st: State, lid: Lid, o: Oid)
    requires ListAt(st.cs.lists, lid).data != [] && lid.coll in st.cs.forward && st.cs.forward[lid.coll].None?
    ensures GroupOf(st, o) == Some(lid.coll) ==> Joined(Poll(st, lid), o, lid.coll)
    ensures Poll(st, lid).g == st.g && Poll(st, lid).tasks == st.tasks && Poll(st, lid).cs.forward == st.cs.forward
    ensures forall p :: st.Which(p) == Poll(st, lid).Which(p)
    ensures forall d, k :: Lid(d, k) != lid ==> Data(Poll(st, lid).cs.lists, d, k) == Data(st.cs.lists, d, k)
  {
  }

  lemma AppendGraph(st: State, lid: Lid, o: Oid, c: Cid)
    ensures ListAdd(st, lid, o).g == st.g && ListAdd(st, lid, o).cs.forward == st.cs.forward
    ensures ListEnd(st.cs.forward, lid).kind != Collect ==>
      forall d :: Data(ListAdd(st, lid, o).cs.lists, d, Collect) == Data(st.cs.lists, d, Collect)
    ensures Joined(st, o, c) ==> c in ListAdd(st, lid, o).cs.forward
  {
    hide ListEnd;
  }

  // ---- The loop that starts a run: merged entries become recovery entries ----

  /** Polling an entry of the merged, recovery or clean list: its phantom count is
      now held by the hand. */
  lemma PollBalanced(st: State, lid: Lid)
    requires Balanced(st, multiset{}, None) && ListAt(st.cs.lists, lid).data != [] && lid.kind != Collect && lid.kind != Rebuild
    ensures Balanced(Poll(st, lid), multiset{}, Some(st.cs.lists[lid].data[0]))
  {
    var o := st.cs.lists[lid].data[0];
    hide Balance;
    forall p, cls | p in st.g.objs
      ensures Balance(Poll(st, lid), p, cls) == if cls == Phantom && p == o then 1 else 0
    {
      PollBalance(st, lid, p, cls);
      assert Balance(st, p, cls) == 0;
    }
  }

  ghost function MergedStep(st: State, c: Cid): State
    requires Data(st.cs.lists, c, Merged) != []
  {
    ListAdd(Poll(st, Lid(c, Merged)), Lid(c, Recovery), Head(st, c, Merged))
  }

  ghost predicate MergedInv(st: State, c: Cid)
  {
    Sane(st, CollectMode(c, None, None)) && Balanced(st, multiset{}, None) && c in st.cs.forward
  }

  lemma MergedStepKeeps(st: State, c: Cid)
    requires MergedInv(st, c) && Data(st.cs.lists, c, Merged) != []
    ensures var r := MergedStep(st, c);
      MergedInv(r, c) && r.g == st.g && |Data(r.cs.lists, c, Merged)| < |Data(st.cs.lists, c, Merged)|
  {
    hide Sane, Balanced, Poll, Joined, ListEnd, ListAdd;
    var o := Head(st, c, Merged);
    var s1 := Poll(st, Lid(c, Merged));
    PollKeeps(st, Lid(c, Merged), CollectMode(c, None, None));
    PollBalanced(st, Lid(c, Merged));
    PollJoined(st, Lid(c, Merged), o);
    ListAddKeeps(s1, Lid(c, Recovery), o, CollectMode(c, Some(o), None));
    ListAddBalanced(s1, Lid(c, Recovery), o);
    AppendGraph(s1, Lid(c, Recovery), o, c);
    PollShorter(st, c, Merged);
    MergedShorter(s1, c, o);
  }

  lemma MergedShorter(st: State, c: Cid, o: Oid)
    requires c in st.cs.forward && st.cs.forward[c].None?
    ensures Data(ListAdd(st, Lid(c, Recovery), o).cs.lists, c, Merged) == Data(st.cs.lists, c, Merged)
  {
  }

  ghost function MergedLoop(st: State, c: Cid): (r: State)
    requires MergedInv(st, c)
    ensures CollectInv(r, c) && r.g == st.g
    decreases |Data(st.cs.lists, c, Merged)|
  {
    if Data(st.cs.lists, c, Merged) == [] then st
    else
      MergedStepKeeps(st, c);
      MergedLoop(MergedStep(st, c), c)
  }
}

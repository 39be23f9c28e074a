/** object.c, link.c and collector.c on the records of the heap. */
module Program {
  import opened Wrappers
  import opened Forwarding
  import opened Sums
  import opened Records
  import opened Invariant
  import opened Conservation
  import opened Keeping
  import opened Phantomizing
  import opened CollectPhase
  import opened RecoverPhase
  import opened CleanPhase
  import opened Reach
  import opened Runs
  import opened Deletion
  import opened Mutators
  import opened Heap
  import M = Model

  // ---- Counts ----

  /** object_dec_phantom */
  method ObjectDecPhantom(w: World, obj: ObjectRec)
    requires w.Valid() && w.Known(obj) && obj.count.n2 >= 1
    requires obj.collector != null ==> obj.collector.count.refs >= 1
    modifies w`tasks, obj`count, obj`collector, w.counters.Values`refs
    ensures w.Valid() && w.St() == M.DecPhantom(old(w.St()), obj.id)
  {
    hide w.Valid, w.St, M.SetColl;
    w.ObjectAt(obj);
    w.PutCount(obj, obj.count.AddPhantom(-1));
    assert obj.count.n2 >= 0;
    if obj.count.n2 == 0 {
      if obj.count.n0 == 0 && obj.count.n1 == 0 {
        w.RequestDelete(obj);
      } else {
        w.SetCollector(obj, null);
      }
    }
  }

  /** A link as a value. */
  ghost function LinkValue(l: LinkRec): M.Link
    reads l
  {
    M.Link(l.target.id, l.which, l.phantomized)
  }

  /** link_dec, on a link of a table or on one that has just left it. */
  method LinkDec(w: World, link: LinkRec)
    requires w.Valid() && w.Known(link.target) && Struct(w.St())
    requires if link.phantomized then link.target.count.n2 >= 1 else link.target.count.Plain(link.which) >= 1
    modifies w`collectors, w`lists, w`counters, w`next, w`tasks, w.objects.Values`count, w.objects.Values`collector, w.CollRepr()
    ensures w.Valid() && w.Extends() && w.St() == M.LinkDec(old(w.St()), old(LinkValue(link)))
  {
    hide w.Valid, w.St, Struct, M.Dec, M.DecPhantom;
    if link.phantomized {
      w.Referenced(link.target);
      ObjectDecPhantom(w, link.target);
      w.ExtendsSame();
    } else {
      w.ObjectDec(link.target, link.which);
    }
  }

  // ---- object_merge_collectors ----

  /** object_merge_collectors. The result tells whether one collector was merged
      into another. */
  method ObjectMergeCollectors(w: World, obj: ObjectRec, target: ObjectRec) returns (merged: bool)
    requires w.Valid() && w.Known(obj) && w.Known(target) && Struct(w.St())
    modifies w.objects.Values`collector, w.CollRepr()
    ensures w.Valid() && w.St() == M.MergeObjs(old(w.St()), obj.id, target.id)
    ensures merged <==> TwoRoots(old(w.St()), obj.id, target.id)
  {
    hide w.Valid, w.St, Struct, M.Registered, Wired, M.Root, M.SetColl, M.MergeColls, Forest;
    var s, t := obj.collector, target.collector;
    w.ObjectAt(obj);
    w.ObjectAt(target);
    if t == null && s != null {
      w.SetCollector(target, s);
    }
    if t != null && s == null {
      w.SetCollector(obj, t);
    }
    if t == s || t == null || s == null {
      return false;
    }
    merged := MergeWalk(w, obj, target, s, t);
  }

  /** The loop of object_merge_collectors walks both forwarding chains to their ends. */
  method MergeWalk(w: World, obj: ObjectRec, target: ObjectRec, objCollector: CollectorRec, targetCollector: CollectorRec)
    returns (merged: bool)
    requires w.Valid() && w.Known(obj) && w.Known(target) && Struct(w.St())
    requires obj.collector == objCollector && target.collector == targetCollector && objCollector != targetCollector
    modifies w.objects.Values`collector, w.CollRepr()
    ensures w.Valid() && w.St() == M.MergeObjs(old(w.St()), obj.id, target.id)
    ensures merged <==> TwoRoots(old(w.St()), obj.id, target.id)
  {
    hide w.Valid, w.St, Struct, M.Registered, Wired, M.Root, M.MergeObjs, Forest, TwoRoots;
    var s: CollectorRec, t: CollectorRec := objCollector, targetCollector;
    w.ObjectAt(obj);
    w.ObjectAt(target);
    w.StructParts(w.St());
    ghost var s0 := w.St();
    ghost var f := s0.cs.forward;
    RegisteredForest(s0.cs);
    MergeObjsRoots(s0, obj.id, target.id);
    while true
      invariant w.Valid() && w.St() == s0 && w.KnownColl(s) && w.KnownColl(t)
      invariant M.Root(f, s.id) == M.Root(f, objCollector.id) && M.Root(f, t.id) == M.Root(f, targetCollector.id)
      invariant s == t ==> s.forward != null
      decreases w.FuelOf(t), w.FuelOf(s)
    {
      w.CollectorAt(s);
      w.CollectorAt(t);
      RootNext(f, s.id);
      RootNext(f, t.id);
      if t.forward == s && s.forward == null {
        SetBoth(w, obj, target, s);
        return false;
      } else if s.forward == t && t.forward == null {
        SetBoth(w, obj, target, t);
        return false;
      } else if t.forward != null {
        t := t.forward;
        w.CollectorAt(t);
      } else if s.forward != null {
        s := s.forward;
        w.CollectorAt(s);
      } else if s == t {
        return false;
      } else {
        MergeRoots(w, obj, target, t, s);
        return true;
      }
    }
  }

  /** The last branch of that loop: both chains have ended, in different collectors. */
  method MergeRoots(w: World, obj: ObjectRec, target: ObjectRec, t: CollectorRec, s: CollectorRec)
    requires w.Valid() && w.Known(obj) && w.Known(target) && w.KnownColl(t) && w.KnownColl(s) && s != t
    requires Struct(w.St()) && s.forward == null && t.forward == null
    modifies w.objects.Values`collector, w.CollRepr()
    ensures w.Valid()
    ensures w.St() == M.SetColl(M.SetColl(M.MergeColls(old(w.St()), t.id, s.id), target.id, Some(t.id)), obj.id, Some(t.id))
  {
    hide w.Valid, w.St, M.Registered, Wired, M.MergeColls, M.SetColl, w.CollRepr;
    w.CollectorAt(t);
    w.CollectorAt(s);
    w.StructParts(w.St());
    StructPaid(w.St(), s.id);
    MergeCollsStruct(w.St(), t.id, s.id);
    w.CollectorMerge(t, s);
    assert s.forward == t;
    SetBoth(w, obj, target, t);
  }

  method SetBoth(w: World, obj: ObjectRec, target: ObjectRec, c: CollectorRec)
    requires w.Valid() && w.Known(obj) && w.Known(target) && w.KnownColl(c) && Struct(w.St())
    modifies obj`collector, target`collector, w.counters.Values`refs
    ensures w.Valid() && w.St() == M.SetColl(M.SetColl(old(w.St()), target.id, Some(c.id)), obj.id, Some(c.id))
  {
    hide w.Valid, w.St, M.SetColl, Struct;
    w.ObjectAt(target);
    w.CollectorAt(c);
    SetCollStruct(w.St(), target.id, Some(c.id));
    w.Referenced(target);
    w.SetCollector(target, c);
    w.Referenced(obj);
    w.SetCollector(obj, c);
  }

  lemma StructPaid(st: M.State, c: Cid)
    requires Struct(st) && c in st.cs.forward
    ensures StoreBalance(st.cs, c) == 0
  {
    hide LinksShape, M.Registered, Wired, Pointing, Listed, RefBalance, StoreBalance;
  }

  lemma RegisteredForest(cs: M.Collecting)
    requires M.Registered(cs)
    ensures Forest(cs.forward)
  {
  }

  /** object_merge_collectors in terms of the two representatives. */
  lemma MergeObjsRoots(st: M.State, obj: Oid, target: Oid)
    requires st.Coll(obj).Some? && st.Coll(target).Some? && st.Coll(obj) != st.Coll(target)
    ensures var rs, rt := M.Root(st.cs.forward, st.Coll(obj).value), M.Root(st.cs.forward, st.Coll(target).value);
      M.MergeObjs(st, obj, target) ==
        M.SetColl(M.SetColl(if rt == rs then st else M.MergeColls(st, rt, rs), target, Some(rt)), obj, Some(rt)) &&
      (TwoRoots(st, obj, target) <==> rs != rt)
  {
    hide M.SetColl, M.MergeColls, M.Root;
  }

  /** Both objects have collectors, in different groups. */
  ghost predicate TwoRoots(st: M.State, obj: Oid, target: Oid)
  {
    GroupOf(st, obj).Some? && GroupOf(st, target).Some? && GroupOf(st, obj) != GroupOf(st, target)
  }

  lemma RootNext(f: Forwards, c: Cid)
    requires Forest(f) && c in f
    ensures M.Root(f, c) == if f[c].None? then c else M.Root(f, f[c].value)
    ensures f[c].Some? ==> f[c].value in f && Fuel(f, f[c].value) < Fuel(f, c) && f[c].value != c
  {
  }

  /** With at least one collector around, both objects end up in one group, and a
      collector stops being a representative exactly if there were two. */
  lemma MergeObjsJoins(st: M.State, obj: Oid, target: Oid)
    requires Struct(st) && obj in st.g.objs && target in st.g.objs && (st.Coll(obj).Some? || st.Coll(target).Some?)
    ensures var r := M.MergeObjs(st, obj, target);
      GroupOf(r, obj).Some? && GroupOf(r, obj) == GroupOf(r, target) &&
      forall c :: IsRoot(r.cs.forward, c) <==> IsRoot(st.cs.forward, c) && !(TwoRoots(st, obj, target) && GroupOf(st, obj) == Some(c))
  {
    hide LinksShape, Wired, Listed, Counted, M.SetColl;
    var s, t := st.Coll(obj), st.Coll(target);
    if s.Some? { RootRoot(st.cs.forward, s.value); }
    if t.Some? { RootRoot(st.cs.forward, t.value); }
    if s.Some? && t.Some? && s != t {
      MergeObjsRoots(st, obj, target);
      var rs, rt := M.Root(st.cs.forward, s.value), M.Root(st.cs.forward, t.value);
      JoinForward(st.cs, rt, rs);
      hide M.Join, Forest, M.Registered;
    }
  }

  // ---- link_phantomize ----

  method LinkPhantomize(w: World, link: LinkRec)
    requires w.Valid() && InTable(w, link) && Struct(w.St())
    requires link.src.collector != null
    requires !link.phantomized ==> link.target.count.Plain(link.which) >= 1 && link.target.count.n2 >= 0
    modifies w`collectors, w`lists, w`counters, w`next, w`tasks, w.objects.Values`count, w.objects.Values`collector, w.CollRepr(), link`which, link`phantomized
    ensures w.Valid() && w.Extends() && w.St() == M.PhantomizeLink(old(w.St()), link.slot)
  {
    hide w.Valid, w.St, Struct, M.Dec, M.MergeObjs, GroupOf;
    w.LinkOf(link);
    if link.phantomized {
      w.ExtendsSame();
      return;
    }
    MoveToPhantom(w, link);
    JoinEnds(w, link);
    w.LinkOf(link);
    w.PutLink(link, link.which, true);
  }

  /** The reference of the link moves to the phantom count of its target. */
  method MoveToPhantom(w: World, link: LinkRec)
    requires w.Valid() && InTable(w, link) && Struct(w.St())
    requires link.src.collector != null && !link.phantomized
    requires link.target.count.Plain(link.which) >= 1 && link.target.count.n2 >= 0
    modifies w`collectors, w`lists, w`counters, w`next, w`tasks, w.objects.Values`count, w.objects.Values`collector, w.CollRepr()
    ensures w.Valid() && w.Extends() && Struct(w.St()) && w.St().Coll(link.src.id).Some?
    ensures var s0, t := old(w.St()), link.target.id;
      w.St() == M.Dec(M.PutCount(s0, t, s0.Num(t).AddPhantom(1)), t, link.which)
  {
    hide w.Valid, w.St, Struct, M.Dec, M.PutCount, GroupOf, Moved;
    ghost var s0 := w.St();
    w.LinkOf(link);
    w.ObjectAt(link.src);
    PhantomizeSteps(s0, link.slot);
    AddPhantomRef(w, link.target);
    LinkDec(w, link);
    StillGrouped(s0, w.St(), link.src.id);
  }

  method AddPhantomRef(w: World, target: ObjectRec)
    requires w.Valid() && w.Known(target)
    modifies target`count
    ensures w.Valid() && w.Extends() && w.CollRepr() == old(w.CollRepr())
    ensures w.St() == M.PutCount(old(w.St()), target.id, old(w.St()).Num(target.id).AddPhantom(1))
    ensures target.count == old(target.count).AddPhantom(1)
  {
    hide w.Valid, w.St, M.PutCount;
    w.ObjectAt(target);
    w.PutCount(target, target.count.AddPhantom(1));
    w.ExtendsSame();
  }

  lemma StillGrouped(st: M.State, r: M.State, o: Oid)
    requires Moved(st, r, 0, 0) && o in st.collector && st.Coll(o).Some?
    ensures r.Coll(o).Some?
  {
    assert GroupOf(st, o).Some?;
  }

  lemma SameRoots(st: M.State, a: Oid, b: Oid)
    requires GroupOf(st, a).Some? && GroupOf(st, a) == GroupOf(st, b)
    ensures st.Coll(a).Some? && st.Coll(b).Some? && M.Root(st.cs.forward, st.Coll(a).value) == M.Root(st.cs.forward, st.Coll(b).value)
  {
    hide M.Root;
  }

  lemma MergeObjsStruct(st: M.State, obj: Oid, target: Oid)
    requires Struct(st) && obj in st.g.objs && target in st.g.objs
    ensures Struct(M.MergeObjs(st, obj, target))
  {
    var s, t := st.Coll(obj), st.Coll(target);
    CollIn(st, obj);
    CollIn(st, target);
    hide Struct, M.SetColl, M.MergeColls;
    if t == s {
    } else if t.None? {
      SetCollStruct(st, target, s);
    } else if s.None? {
      SetCollStruct(st, obj, t);
    } else {
      MergeObjsRoots(st, obj, target);
      var rs, rt := M.Root(st.cs.forward, s.value), M.Root(st.cs.forward, t.value);
      if rs != rt {
        MergeCollsStruct(st, rt, rs);
        MergedRoot(st, rt, rs);
      }
      var s1 := if rt == rs then st else M.MergeColls(st, rt, rs);
      SetCollStruct(s1, target, Some(rt));
      SetCollStruct(M.SetColl(s1, target, Some(rt)), obj, Some(rt));
    }
  }

  lemma CollIn(st: M.State, o: Oid)
    requires Struct(st) && o in st.g.objs
    ensures st.Coll(o).Some? ==>
      st.Coll(o).value in st.cs.forward && M.Root(st.cs.forward, st.Coll(o).value) in st.cs.forward &&
      st.cs.forward[M.Root(st.cs.forward, st.Coll(o).value)].None?
  {
    hide LinksShape, Wired, Listed, Counted;
    if st.Coll(o).Some? {
      RootRoot(st.cs.forward, st.Coll(o).value);
    }
  }

  /** Merging the collectors of the ends of a link, between the two assertions of
      link_phantomize. */
  method JoinEnds(w: World, link: LinkRec)
    requires w.Valid() && InTable(w, link) && Struct(w.St())
    requires w.St().Coll(link.src.id).Some?
    modifies w.objects.Values`collector, w.CollRepr()
    ensures w.Valid() && w.St() == M.MergeObjs(old(w.St()), link.src.id, link.target.id)
  {
    hide w.Valid, w.St, Struct, M.MergeObjs, GroupOf;
    w.LinkOf(link);
    w.ObjectAt(link.src);
    w.ObjectAt(link.target);
    ghost var s0 := w.St();
    MergeObjsJoins(s0, link.src.id, link.target.id);
    MergeObjsStruct(s0, link.src.id, link.target.id);
    w.StructParts(M.MergeObjs(s0, link.src.id, link.target.id));
    SameRoots(M.MergeObjs(s0, link.src.id, link.target.id), link.src.id, link.target.id);
    assert link.target.collector != null || link.src.collector != null;
    var merged := ObjectMergeCollectors(w, link.src, link.target);
    w.ObjectAt(link.src);
    w.ObjectAt(link.target);
    var same := w.CollectorEquals(link.target.collector, link.src.collector);
    assert same;
  }

  /** The heap is well formed at each step of link_phantomize. */
  lemma PhantomizeSteps(st: M.State, s: M.Slot)
    requires Struct(st) && s in st.g.links
    ensures var l := st.g.links[s]; var s1 := M.PutCount(st, l.target, st.Num(l.target).AddPhantom(1));
      Struct(s1) && Struct(M.Dec(s1, l.target, l.which)) && Moved(st, M.Dec(s1, l.target, l.which), 0, 0)
  {
    hide LinksShape, M.Registered, Wired, Pointing, Listed, Counted, Moved, M.Dec;
    var l := st.g.links[s];
    LinkEnds(st, s);
    var n := st.Num(l.target).AddPhantom(1);
    PutCountStruct(st, l.target, n);
    var s1 := M.PutCount(st, l.target, n);
    DecEffect(s1, l.target, l.which);
    MovedFrame(st, s1, M.Dec(s1, l.target, l.which));
  }

  // ---- object_phantomize_node ----

  /** The links of an object in the order of its table. */
  method Gather(ghost w: World, obj: ObjectRec) returns (lks: seq<LinkRec>)
    requires w.Valid() && forall i :: 0 <= i < |obj.order| ==> obj.order[i] in obj.links
    ensures |lks| == |obj.order| && forall i :: 0 <= i < |lks| ==> lks[i] == obj.links[obj.order[i]]
    ensures w.Valid() && w.St() == old(w.St())
  {
    hide w.Valid, w.St;
    lks := [];
    var i := 0;
    while i < |obj.order|
      invariant 0 <= i <= |obj.order| && |lks| == i
      invariant forall j :: 0 <= j < i ==> lks[j] == obj.links[obj.order[j]]
    {
      lks := lks + [obj.links[obj.order[i]]];
      i := i + 1;
    }
  }

  /** The head of object_phantomize_node: the strong count of the collector is
      given back. The result tells whether the node has to become a phantom. */
  method PhantomizeHeadRec(w: World, obj: ObjectRec, ghost c: Cid) returns (phantomize: bool)
    requires w.Valid() && w.Known(obj) && w.St().Coll(obj.id).Some?
    requires Sane(w.St(), CollectMode(c, Some(obj.id), None))
    requires Balanced(w.St(), multiset{Ref(obj.id, Bit(obj.which))}, Some(obj.id))
    modifies obj`collector, obj`count, obj`which, obj`phantomized, w.counters.Values`refs
    ensures w.Valid() && w.St() == NodeHead(old(w.St()), obj.id)
    ensures phantomize <==> w.St().g.Ph(obj.id) && !old(w.St()).g.Ph(obj.id)
  {
    hide w.Valid, w.St, M.SetColl, M.Root, Sane, Balanced, Struct;
    ghost var s0 := w.St();
    w.ObjectAt(obj);
    w.CollectorAt(obj.collector);
    HeadCounts(s0, c, obj.id);
    w.Referenced(obj);
    var r := w.CollectorUpdate(obj.collector);
    w.SetCollector(obj, r);
    w.ObjectAt(obj);
    w.PutCount(obj, obj.count.AddPlain(obj.which, -1));
    w.ObjectAt(obj);
    assert obj.count.Plain(obj.which) >= 0;
    if obj.count.Plain(obj.which) > 0 {
      return false;
    }
    phantomize := !obj.phantomized;
    w.PutFlags(obj, if obj.count.Plain(!obj.which) > 0 then !obj.which else obj.which, true);
    w.ObjectAt(obj);
    assert obj.collector != null;
  }

  lemma HeadCounts(st: M.State, c: Cid, o: Oid)
    requires Sane(st, CollectMode(c, Some(o), None)) && o in st.g.objs
    requires Balanced(st, multiset{Ref(o, Bit(st.Which(o)))}, Some(o))
    ensures st.Num(o).Plain(st.Which(o)) >= 1 && M.Registered(st.cs) && Struct(st)
  {
    PhantomizeHeadBalanced(st, o);
    hide Balanced, Homed, Local, Positive, Anchored, Scheduled, Uniform, Acyclic, HeldOrCleaned, LinksShape, Wired, Pointing, Listed, Counted;
  }

  /** object_phantomize_node */
  method ObjectPhantomizeNode(w: World, obj: ObjectRec, ghost c: Cid)
    requires w.Valid() && w.Known(obj)
    requires Sane(w.St(), CollectMode(c, Some(obj.id), None)) && Joined(w.St(), obj.id, c)
    requires Balanced(w.St(), multiset{Ref(obj.id, Bit(obj.which))}, Some(obj.id))
    modifies w`collectors, w`lists, w`counters, w`next, w`tasks, w.objects.Values`count, w.objects.Values`collector,
      w.CollRepr(), w.links.Values`which, w.links.Values`phantomized, obj`which, obj`phantomized
    ensures w.Valid() && w.Extends() && w.St() == M.PhantomizeNode(old(w.St()), obj.id)
  {
    hide w.Valid, w.St, Sane, Balanced, Joined, NodeHead, M.PhantomizeNode;
    ghost var s0 := w.St();
    w.ObjectAt(obj);
    JoinedGroup(s0, obj.id, c);
    NodeHeadKeeps(s0, c, obj.id);
    PhantomizeNodeHead(s0, obj.id);
    var phantomize := PhantomizeHeadRec(w, obj, c);
    w.ExtendsSame();
    if phantomize {
      PhantomizeAll(w, obj, c);
    }
  }

  ghost predicate InTable(w: World, l: LinkRec)
    reads w`links
  {
    l.slot in w.links && w.links[l.slot] == l
  }

  /** What holds while the links of `o` are being marked. */
  ghost predicate MarkInv(st: M.State, c: Cid, o: Oid)
  {
    Sane(st, CollectMode(c, Some(o), Some(o))) && Balanced(st, multiset{}, Some(o)) && Joined(st, o, c)
  }

  /** The gathered links are those under the keys `ks`, and they are in the table of the heap. */
  ghost predicate Aligned(w: World, o: Oid, lks: seq<LinkRec>, ks: seq<Field>)
    reads w`links
  {
    |lks| == |ks| && forall j :: 0 <= j < |ks| ==> lks[j].slot == M.Slot(o, ks[j]) && InTable(w, lks[j])
  }

  lemma AlignedAt(w: World, o: Oid, lks: seq<LinkRec>, ks: seq<Field>, i: int)
    requires Aligned(w, o, lks, ks) && 0 <= i < |lks|
    ensures |lks| == |ks| && lks[i].slot == M.Slot(o, ks[i]) && InTable(w, lks[i])
  {
  }

  lemma AlignedSize(w: World, o: Oid, lks: seq<LinkRec>, ks: seq<Field>)
    requires Aligned(w, o, lks, ks)
    ensures |lks| == |ks|
  {
  }

  /** The table of an object holds a link for each of its keys. */
  lemma TableFull(w: World, obj: ObjectRec)
    requires w.Valid() && w.Known(obj) && LinksShape(w.St().g)
    ensures obj.order == w.St().g.Keys(obj.id)
    ensures forall i :: 0 <= i < |obj.order| ==> obj.order[i] in obj.links
    ensures forall i :: 0 <= i < |obj.order| ==> obj.links[obj.order[i]].slot == M.Slot(obj.id, obj.order[i])
    ensures forall i :: 0 <= i < |obj.order| ==> InTable(w, obj.links[obj.order[i]])
  {
    hide w.Valid, w.St;
    w.ObjectAt(obj);
    var ks := obj.order;
    forall i | 0 <= i < |ks|
      ensures ks[i] in obj.links && obj.links[ks[i]].slot == M.Slot(obj.id, ks[i]) && InTable(w, obj.links[ks[i]])
    {
      var k := ks[i];
      assert k in w.St().g.Keys(obj.id);
      assert M.Slot(obj.id, k) in w.St().g.links;
      assert k in obj.links;
    }
  }

  lemma MarkShape(st: M.State, c: Cid, o: Oid)
    requires MarkInv(st, c, o)
    ensures LinksShape(st.g)
  {
    hide Homed, Local, Positive, Anchored, Scheduled, Uniform, Acyclic, HeldOrCleaned, M.Registered, Wired, Pointing, Listed, Counted, Balanced, Joined;
  }

  /** The loop of object_phantomize_node over the links. */
  method PhantomizeAll(w: World, obj: ObjectRec, ghost c: Cid)
    requires w.Valid() && w.Known(obj) && MarkInv(w.St(), c, obj.id)
    modifies w`collectors, w`lists, w`counters, w`next, w`tasks, w.objects.Values`count, w.objects.Values`collector,
      w.CollRepr(), w.links.Values`which, w.links.Values`phantomized
    ensures w.Valid() && w.Extends() && w.St() == M.PhantomizeLinks(old(w.St()), obj.id, old(w.St()).g.Keys(obj.id))
  {
    hide w.Valid, w.St, MarkInv, M.PhantomizeLink, w.CollRepr, Grows, Aligned, LinksShape;
    ghost var s0, g0 := w.St(), w.Reg();
    ghost var ks := s0.g.Keys(obj.id);
    MarkShape(s0, c, obj.id);
    TableFull(w, obj);
    var phantoms := Gather(w, obj);
    AllAligned(w, obj, phantoms);
    AlignedSize(w, obj.id, phantoms, ks);
    w.ExtendsSame();
    var i := 0;
    while i < |phantoms|
      invariant 0 <= i <= |phantoms| && w.Valid() && w.Extends() && Aligned(w, obj.id, phantoms, ks)
      invariant MarkInv(w.St(), c, obj.id)
      invariant M.PhantomizeLinks(w.St(), obj.id, ks[i..]) == M.PhantomizeLinks(s0, obj.id, ks)
    {
      AlignedAt(w, obj.id, phantoms, ks, i);
      ghost var g1 := w.Reg();
      PhantomizeOne(w, obj, phantoms[i], c);
      GrowsTrans(g0, g1, w.Reg());
      assert ks[i..][1..] == ks[i + 1..];
      i := i + 1;
    }
  }

  lemma AllAligned(w: World, obj: ObjectRec, lks: seq<LinkRec>)
    requires w.Valid() && w.Known(obj) && LinksShape(w.St().g)
    requires |lks| == |obj.order| && forall i :: 0 <= i < |lks| ==> obj.order[i] in obj.links && lks[i] == obj.links[obj.order[i]]
    ensures Aligned(w, obj.id, lks, w.St().g.Keys(obj.id))
  {
    hide w.Valid, w.St, LinksShape;
    TableFull(w, obj);
  }

  /** One round of that loop. */
  method PhantomizeOne(w: World, obj: ObjectRec, lk: LinkRec, ghost c: Cid)
    requires w.Valid() && w.Known(obj) && MarkInv(w.St(), c, obj.id)
    requires InTable(w, lk) && lk.slot.src == obj.id
    modifies w`collectors, w`lists, w`counters, w`next, w`tasks, w.objects.Values`count, w.objects.Values`collector,
      w.CollRepr(), lk`which, lk`phantomized
    ensures w.Valid() && w.Extends() && w.St() == M.PhantomizeLink(old(w.St()), lk.slot)
    ensures MarkInv(w.St(), c, obj.id)
  {
    hide w.Valid, w.St, Sane, Balanced, Joined, M.PhantomizeLink, w.Extends, Struct;
    ghost var s0 := w.St();
    ghost var m := CollectMode(c, Some(obj.id), Some(obj.id));
    w.LinkOf(lk);
    w.ObjectAt(lk.src);
    w.ObjectAt(lk.target);
    JoinedGroup(s0, obj.id, c);
    PhantomizeLinkKeeps(s0, lk.slot, m);
    if !lk.phantomized {
      PhantomizeReady(s0, lk.slot, m);
      assert lk.src.collector != null;
      LinkPhantomize(w, lk);
    } else {
      w.ExtendsSame();
      PhantomizeAgain(s0, lk.slot);
    }
  }

  lemma PhantomizeReady(st: M.State, s: M.Slot, m: Mode)
    requires Sane(st, m) && Balanced(st, multiset{}, m.hand) && s in st.g.links && !st.g.links[s].phantomized
    ensures var l := st.g.links[s];
      Struct(st) && st.Num(l.target).Plain(l.which) >= 1 && st.Num(l.target).n2 >= 0
  {
    hide Homed, Local, Positive, Anchored, Scheduled, Uniform, Acyclic, HeldOrCleaned, Balanced;
    LinkEnds(st, s);
    LinkCounted(st, multiset{}, m.hand, s);
    CountsNonneg(st, multiset{}, m.hand, st.g.links[s].target);
  }

  lemma PhantomizeAgain(st: M.State, s: M.Slot)
    requires s in st.g.links && st.g.links[s].phantomized
    ensures M.PhantomizeLink(st, s) == st
  {
  }
}

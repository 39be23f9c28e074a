/** object_recover_node, object_clean_node and collector_run on the records. */
module CollectorCode {
  import opened Wrappers
  import opened Forwarding
  import opened Sums
  import opened Records
  import opened Invariant
  import opened Conservation
  import opened Keeping
  import opened Phantomizing
  import opened CollectPhase
  import opened RecoverPhase
  import opened CleanPhase
  import opened Reach
  import opened Runs
  import opened Deletion
  import opened Mutators
  import opened Heap
  import opened Program
  import M = Model

  // ---- object_rebuild_link ----

  method ObjectRebuildLink(w: World, rebuildNext: SafeListRec, lk: LinkRec)
    requires w.Valid() && InTable(w, lk) && w.KnownList(rebuildNext) && rebuildNext.lid.kind == M.Rebuild && Struct(w.St())
    requires lk.phantomized ==> lk.target.count.n2 >= 1
    modifies lk`which, lk`phantomized, lk.target`count, lk.target`collector, w.counters.Values, w.lists.Values`data
    ensures w.Valid() && w.St() == M.RebuildLink(old(w.St()), rebuildNext.lid.coll, lk.slot)
  {
    hide w.Valid, w.St, Struct, M.SetColl, M.ListAdd, M.Registered, Wired, M.Append, Rebuilt, M.RebuildLink;
    ghost var s0 := w.St();
    w.LinkOf(lk);
    RebuildLinkShape(s0, rebuildNext.lid.coll, lk.slot);
    if lk.phantomized {
      Unphantomize(w, lk);
      w.LinkOf(lk);
      w.ObjectAt(lk.target);
      assert lk.target.count.n2 >= 0;
      if lk.target.collector != null {
        w.StructParts(w.St());
        w.SafelistAdd(rebuildNext, lk.target);
      }
    }
  }

  /** The link gets its new class, and the count of its target follows. */
  method Unphantomize(w: World, lk: LinkRec)
    requires w.Valid() && InTable(w, lk) && Struct(w.St()) && lk.phantomized && lk.target.count.n2 >= 1
    modifies lk`which, lk`phantomized, lk.target`count, lk.target`collector, w.counters.Values`refs
    ensures w.Valid() && Struct(w.St()) && lk.target.count.n2 >= 0 && w.St() == Rebuilt(old(w.St()), lk.slot)
  {
    hide w.Valid, w.St, Struct, M.SetColl, M.RebuiltWhich;
    ghost var s0 := w.St();
    var target := lk.target;
    w.LinkOf(lk);
    w.ObjectAt(target);
    var which := target.which;
    if target == lk.src {
      which := !target.which;
    } else if target.phantomized || |target.links| == 0 {
      which := target.which;
    } else {
      which := !target.which;
    }
    RebuildWhich(w, lk, which);
    w.Referenced(target);
    RebuildStruct(s0, lk.slot, which);
    MoveToPlain(w, target, which);
    w.LinkOf(lk);
    w.PutLink(lk, which, false);
  }

  /** A phantom reference becomes a plain one; the last one takes the collector along. */
  method MoveToPlain(w: World, target: ObjectRec, which: bool)
    requires w.Valid() && w.Known(target) && target.count.n2 >= 1
    requires target.collector != null ==> target.collector.count.refs >= 1
    modifies target`count, target`collector, w.counters.Values`refs
    ensures w.Valid() && target.count.n2 >= 0
    ensures var s0, t := old(w.St()), target.id; var n := s0.Num(t).AddPlain(which, 1).AddPhantom(-1);
      w.St() == if n.n2 == 0 then M.SetColl(M.PutCount(s0, t, n), t, None) else M.PutCount(s0, t, n)
  {
    hide w.Valid, w.St, M.SetColl, M.PutCount;
    w.ObjectAt(target);
    w.PutCount(target, target.count.AddPlain(which, 1).AddPhantom(-1));
    if target.count.n2 == 0 {
      w.SetCollector(target, null);
    }
  }

  /** An empty table has no keys, and the other way around. */
  lemma RebuildWhich(w: World, lk: LinkRec, which: bool)
    requires w.Valid() && InTable(w, lk) && Struct(w.St())
    requires which == if lk.target != lk.src && (lk.target.phantomized || |lk.target.links| == 0) then lk.target.which else !lk.target.which
    ensures which == M.RebuiltWhich(w.St().g, lk.slot, lk.target.id)
  {
    hide w.Valid, w.St;
    w.LinkOf(lk);
    w.ObjectAt(lk.src);
    w.ObjectAt(lk.target);
    NoKeys(w, lk.target);
  }

  lemma NoKeys(w: World, o: ObjectRec)
    requires w.Valid() && w.Known(o) && Struct(w.St())
    ensures |o.links| == 0 <==> o.order == []
  {
    hide w.Valid, w.St, M.Registered, Wired, Pointing, Listed, Counted, LinksShape;
    w.ObjectAt(o);
    TableKeys(w.St().g, o.id);
    assert forall k :: k in o.links <==> k in o.order;
    if o.order == [] {
      assert o.links == map[];
    } else {
      assert o.order[0] in o.links;
    }
  }

  lemma TableKeys(g: M.Graph, o: Oid)
    requires LinksShape(g) && o in g.objs
    ensures forall k :: M.Slot(o, k) in g.links <==> k in g.Keys(o)
  {
  }

  lemma RebuildStruct(st: M.State, s: M.Slot, which: bool)
    requires Struct(st) && s in st.g.links && which == M.RebuiltWhich(st.g, s, st.g.links[s].target)
    ensures Struct(Rebuilt(st, s))
  {
    var t := st.g.links[s].target;
    LinkEnds(st, s);
    hide Struct, M.SetColl;
    var n := st.Num(t).AddPlain(which, 1).AddPhantom(-1);
    PutCountStruct(st, t, n);
    var s1 := M.PutCount(st, t, n);
    SetCollStruct(s1, t, None);
    PutLinkStruct(if n.n2 == 0 then M.SetColl(s1, t, None) else s1, s, M.Link(t, which, false));
  }

  // ---- object_recover_node ----

  /** Either the links of a former phantom are being rebuilt, or there is nothing to rebuild. */
  ghost predicate RebuildLoopInv(st: M.State, c: Cid, o: Oid, hand: Option<Oid>, phantom: bool)
  {
    if phantom then RebuildInv(st, c, o, RecoverMode(c, hand, Some(o)))
    else Sane(st, RecoverMode(c, hand, None)) && forall s :: s in st.g.links && s.src == o ==> !st.g.links[s].phantomized
  }

  lemma RebuildLoopStep(st: M.State, c: Cid, o: Oid, hand: Option<Oid>, phantom: bool, s: M.Slot)
    requires RebuildLoopInv(st, c, o, hand, phantom) && s in st.g.links && s.src == o
    ensures Struct(st) && (st.g.links[s].phantomized ==> st.Num(st.g.links[s].target).n2 >= 1)
    ensures RebuildLoopInv(M.RebuildLink(st, c, s), c, o, hand, phantom)
  {
    if phantom {
      RebuildLinkKeeps(st, c, s, RecoverMode(c, hand, Some(o)));
      if st.g.links[s].phantomized {
        RebuildTarget(st, s, RecoverMode(c, hand, Some(o)));
      }
    }
    hide M.RebuildLink, Homed, Local, Positive, Anchored, Scheduled, Uniform, Acyclic, HeldOrCleaned, Balanced, Held, Awaited, LinksShape,
         M.Registered, Wired, Pointing, Listed, Counted;
    if !phantom {
      RebuildLinkPlain(st, c, s);
    }
  }

  lemma RebuildLinkPlain(st: M.State, c: Cid, s: M.Slot)
    requires s in st.g.links && !st.g.links[s].phantomized
    ensures M.RebuildLink(st, c, s) == st
  {
  }

  /** The links under the given keys are in the table of the heap. */
  ghost predicate Keyed(w: World, obj: ObjectRec, ks: seq<Field>)
    reads w`links, obj`links
  {
    forall k :: k in ks ==> k in obj.links && obj.links[k].slot == M.Slot(obj.id, k) && InTable(w, obj.links[k])
  }

  lemma KeyedAt(w: World, obj: ObjectRec, ks: seq<Field>, i: int)
    requires Keyed(w, obj, ks) && 0 <= i < |ks|
    ensures ks[i] in obj.links && obj.links[ks[i]].slot == M.Slot(obj.id, ks[i]) && InTable(w, obj.links[ks[i]])
  {
    var k := ks[i];
    assert k in ks;
    assert k in obj.links;
  }

  /** One round of the loop of object_recover_node over the keys. */
  method RebuildOne(w: World, obj: ObjectRec, cptr: CollectorRec, k: Field, ghost hand: Option<Oid>, ghost phantom: bool)
    requires w.Valid() && w.Known(obj) && w.KnownColl(cptr) && RebuildLoopInv(w.St(), cptr.id, obj.id, hand, phantom)
    requires k in obj.links && obj.links[k].slot == M.Slot(obj.id, k) && InTable(w, obj.links[k])
    modifies w.links.Values`which, w.links.Values`phantomized, w.objects.Values`count, w.objects.Values`collector,
      w.counters.Values, w.lists.Values`data
    ensures w.Valid() && w.St() == M.RebuildLink(old(w.St()), cptr.id, M.Slot(obj.id, k))
    ensures RebuildLoopInv(w.St(), cptr.id, obj.id, hand, phantom)
  {
    hide w.Valid, w.St, RebuildLoopInv, M.RebuildLink, Struct;
    w.CollectorAt(cptr);
    assert cptr.rebuild == cptr.List(M.Rebuild);
    var lk := obj.links[k];
    w.LinkOf(lk);
    w.ObjectAt(lk.target);
    RebuildLoopStep(w.St(), cptr.id, obj.id, hand, phantom, lk.slot);
    ObjectRebuildLink(w, cptr.rebuild, lk);
  }

  /** The loop of object_recover_node over the keys. */
  method RebuildAll(w: World, obj: ObjectRec, cptr: CollectorRec, ghost hand: Option<Oid>, ghost phantom: bool)
    requires w.Valid() && w.Known(obj) && w.KnownColl(cptr) && RebuildLoopInv(w.St(), cptr.id, obj.id, hand, phantom)
    modifies w.links.Values`which, w.links.Values`phantomized, w.objects.Values`count, w.objects.Values`collector,
      w.counters.Values, w.lists.Values`data
    ensures w.Valid() && w.St() == M.RebuildLinks(old(w.St()), cptr.id, obj.id, old(w.St()).g.Keys(obj.id))
  {
    hide w.Valid, w.St, RebuildLoopInv, M.RebuildLink, M.RebuildLinks, Keyed, Struct, w.CollRepr, w.Repr, InTable, w.Known, w.KnownColl;
    ghost var s0 := w.St();
    ghost var ks := s0.g.Keys(obj.id);
    LoopKeys(w, obj, cptr.id, hand, phantom);
    var rebuild := obj.order;
    var i := 0;
    while i < |rebuild|
      invariant 0 <= i <= |rebuild| && w.Valid() && Keyed(w, obj, ks)
      invariant RebuildLoopInv(w.St(), cptr.id, obj.id, hand, phantom)
      invariant ks == rebuild && M.RebuildLinks(w.St(), cptr.id, obj.id, ks[i..]) == M.RebuildLinks(s0, cptr.id, obj.id, ks)
    {
      KeyedAt(w, obj, ks, i);
      RebuildNext(w.St(), cptr.id, obj.id, ks, i);
      RebuildOne(w, obj, cptr, rebuild[i], hand, phantom);
      i := i + 1;
    }
    RebuildNone(w.St(), cptr.id, obj.id, ks);
  }

  lemma RebuildNext(st: M.State, c: Cid, o: Oid, ks: seq<Field>, i: nat)
    requires i < |ks|
    ensures M.RebuildLinks(st, c, o, ks[i..]) == M.RebuildLinks(M.RebuildLink(st, c, M.Slot(o, ks[i])), c, o, ks[i + 1..])
  {
    hide M.RebuildLink;
    assert ks[i..][1..] == ks[i + 1..];
  }

  lemma RebuildNone(st: M.State, c: Cid, o: Oid, ks: seq<Field>)
    ensures M.RebuildLinks(st, c, o, ks[|ks|..]) == st
  {
  }

  lemma LoopKeys(w: World, obj: ObjectRec, c: Cid, hand: Option<Oid>, phantom: bool)
    requires w.Valid() && w.Known(obj) && RebuildLoopInv(w.St(), c, obj.id, hand, phantom)
    ensures obj.order == w.St().g.Keys(obj.id) && Keyed(w, obj, obj.order)
  {
    hide w.Valid, w.St, LinksShape, Sane, Balanced, Held, Awaited;
    SaneShape(w.St(), if phantom then RecoverMode(c, hand, Some(obj.id)) else RecoverMode(c, hand, None));
    TableFull(w, obj);
    forall k | k in obj.order
      ensures k in obj.links && obj.links[k].slot == M.Slot(obj.id, k) && InTable(w, obj.links[k])
    {
      var i :| 0 <= i < |obj.order| && obj.order[i] == k;
    }
  }

  lemma SaneStruct(st: M.State, m: Mode)
    requires Sane(st, m)
    ensures Struct(st)
  {
    hide Struct, Homed, Local, Positive, Anchored, Scheduled, Uniform, Acyclic, HeldOrCleaned;
  }

  lemma SaneShape(st: M.State, m: Mode)
    requires Sane(st, m)
    ensures LinksShape(st.g)
  {
    hide Homed, Local, Positive, Anchored, Scheduled, Uniform, Acyclic, HeldOrCleaned, M.Registered, Wired, Pointing, Listed, Counted;
  }

  /** Path compression of the collector of an object, if it has one. */
  method UpdateCollector(w: World, obj: ObjectRec)
    requires w.Valid() && w.Known(obj) && M.Registered(w.St().cs)
    requires obj.collector != null ==> obj.collector.count.refs >= 1
    modifies obj`collector, w.counters.Values`refs
    ensures w.Valid() && w.St() == M.UpdateColl(old(w.St()), obj.id)
  {
    hide w.Valid, w.St, M.SetColl, M.Root, M.Registered;
    w.ObjectAt(obj);
    if obj.collector != null {
      w.CollectorAt(obj.collector);
      var r := w.CollectorUpdate(obj.collector);
      w.SetCollector(obj, r);
    }
  }

  /** object_recover_node; at the granularity of whole nodes a phantom is complete,
      so there is nothing to wait for. */
  method ObjectRecoverNode(w: World, obj: ObjectRec, cptr: CollectorRec, ghost hand: Option<Oid>)
    requires w.Valid() && w.Known(obj) && w.KnownColl(cptr) && RecoverInv(w.St(), cptr.id, hand, Some(obj.id))
    requires !Doomed(w.St().tasks, obj.id)
    modifies w.links.Values`which, w.links.Values`phantomized, w.objects.Values`count, w.objects.Values`collector,
      w.counters.Values, w.lists.Values`data, obj`which, obj`phantomized
    ensures w.Valid() && w.St() == M.RecoverNode(old(w.St()), cptr.id, obj.id)
  {
    hide w.Valid, w.St, Sane, Balanced, Awaited, M.RebuildLinks, M.UpdateColl, M.RecoverNode, Doomed, RecoverInv, SameTargets, OnlyRebuild, GroupOf, Struct;
    ghost var s0 := w.St();
    w.ObjectAt(obj);
    RecoverFacts(s0, cptr.id, hand, obj.id);
    w.Referenced(obj);
    UpdateCollector(w, obj);
    w.ObjectAt(obj);
    if obj.count.Plain(obj.which) > 0 {
      Recover(w, obj, cptr, hand);
    } else {
      RecoverOther(w.St(), cptr.id, hand, obj.id);
      assert obj.count.Plain(!obj.which) == 0;
    }
    w.ObjectAt(obj);
    if obj.count.n2 == 0 {
      RecoverDone(w.St(), cptr.id, hand, obj.id);
      assert obj.collector == null;
    }
  }

  lemma RecoverFacts(st: M.State, c: Cid, hand: Option<Oid>, o: Oid)
    requires RecoverInv(st, c, hand, Some(o)) && o in st.g.objs
    ensures var s1, r := M.UpdateColl(st, o), M.RecoverNode(st, c, o);
      M.Registered(st.cs) && Struct(st) && RecoverInv(s1, c, hand, Some(o)) && RecoverInv(r, c, hand, None) && r.tasks == st.tasks && o in r.g.objs &&
      r == if s1.Num(o).Plain(s1.Which(o)) > 0 then M.RebuildLinks(M.PutFlags(s1, o, s1.Which(o), false), c, o, s1.g.Keys(o)) else s1
  {
    SaneRegistered(st, RecoverMode(c, hand, None));
    SaneStruct(st, RecoverMode(c, hand, None));
    UpdateCollInv(st, c, hand, o);
    RecoverNodeShape(st, c, o);
    RecoverNodeKeeps(st, c, hand, o);
    hide Sane, Balanced, Awaited, M.RebuildLinks, M.UpdateColl, M.RecoverNode, OnlyRebuild, GroupOf;
  }

  /** The part of object_recover_node that takes back the phantom flag. */
  method Recover(w: World, obj: ObjectRec, cptr: CollectorRec, ghost hand: Option<Oid>)
    requires w.Valid() && w.Known(obj) && w.KnownColl(cptr) && RecoverInv(w.St(), cptr.id, hand, Some(obj.id))
    requires obj.count.Plain(obj.which) > 0
    modifies w.links.Values`which, w.links.Values`phantomized, w.objects.Values`count, w.objects.Values`collector,
      w.counters.Values, w.lists.Values`data, obj`which, obj`phantomized
    ensures w.Valid()
    ensures var st, o := old(w.St()), obj.id;
      w.St() == M.RebuildLinks(M.PutFlags(st, o, st.Which(o), false), cptr.id, o, st.g.Keys(o))
  {
    hide w.Valid, w.St, RecoverInv, M.RebuildLinks, RebuildLoopInv;
    w.ObjectAt(obj);
    RecoverLoopStart(w.St(), cptr.id, hand, obj.id);
    ghost var phantom := obj.phantomized;
    w.PutFlags(obj, obj.which, false);
    RebuildAll(w, obj, cptr, hand, phantom);
  }

  lemma SaneRegistered(st: M.State, m: Mode)
    requires Sane(st, m)
    ensures M.Registered(st.cs) && Struct(st)
  {
    hide Homed, Local, Positive, Anchored, Scheduled, Uniform, Acyclic, HeldOrCleaned, LinksShape, Wired, Pointing, Listed, Counted;
  }

  lemma RecoverLoopStart(st: M.State, c: Cid, hand: Option<Oid>, o: Oid)
    requires RecoverInv(st, c, hand, Some(o)) && o in st.g.objs && st.Num(o).Plain(st.Which(o)) > 0
    ensures RebuildLoopInv(M.PutFlags(st, o, st.Which(o), false), c, o, hand, st.g.Ph(o))
  {
    var m := RecoverMode(c, hand, None);
    if st.g.Ph(o) {
      RecoverHeadKeeps(st, o, m);
      assert m.(busy := Some(o)) == RecoverMode(c, hand, Some(o));
      RecoverHeadFrame(st, c, hand, o);
      hide Sane, Balanced, Held, Awaited;
    } else {
      LiveFlags(st, c, hand, o);
    }
  }

  lemma LiveFlags(st: M.State, c: Cid, hand: Option<Oid>, o: Oid)
    requires Sane(st, RecoverMode(c, hand, None)) && o in st.g.objs && !st.g.Ph(o)
    ensures M.PutFlags(st, o, st.Which(o), false) == st
    ensures forall s :: s in st.g.links && s.src == o ==> !st.g.links[s].phantomized
  {
    hide Homed, Local, Positive, Anchored, Scheduled, Acyclic, HeldOrCleaned, LinksShape, M.Registered, Wired, Pointing, Listed, Counted;
    assert st.g.which[o := st.Which(o)] == st.g.which && st.g.phantomized[o := false] == st.g.phantomized;
  }

  lemma RecoverOther(st: M.State, c: Cid, hand: Option<Oid>, o: Oid)
    requires RecoverInv(st, c, hand, Some(o)) && o in st.g.objs && st.Num(o).Plain(st.Which(o)) <= 0
    ensures st.Num(o).Plain(!st.Which(o)) == 0
  {
    hide Homed, Local, Anchored, Uniform, Acyclic, HeldOrCleaned, LinksShape, M.Registered, Wired, Pointing, Listed, Counted, Balanced, Awaited;
    CountsNonneg(st, multiset{}, hand, o);
  }

  /** The assertion that ends object_recover_node. */
  lemma RecoverDone(st: M.State, c: Cid, hand: Option<Oid>, o: Oid)
    requires RecoverInv(st, c, hand, None) && o in st.g.objs && st.Num(o).n2 == 0 && !Doomed(st.tasks, o)
    ensures st.Coll(o).None?
  {
    hide Homed, Local, Positive, Uniform, Acyclic, HeldOrCleaned, LinksShape, M.Registered, Wired, Pointing, Listed, Counted, Balanced, Awaited;
  }

  // ---- object_remove_links and object_clean_node ----

  /** A sequence of detached links whose references can be given up one by one:
      either phantom links in the clean phase, or plain links of a deleted object. */
  ghost predicate Payable(st: M.State, ls: seq<M.Link>, m: Mode, phantom: bool)
  {
    && Sane(st, m) && Balanced(st, LooseOf(ls), m.hand)
    && (forall l :: l in ls ==> l.phantomized == phantom && l.target in st.g.objs)
    && if phantom then m.lp == multiset{} && m.busy.None? && m.lax.Some? && Dead(st, m.lax.value) else m == AtRest
  }

  lemma PayStep(st: M.State, ls: seq<M.Link>, m: Mode, phantom: bool)
    requires Payable(st, ls, m, phantom) && ls != []
    ensures var l := ls[0];
      Struct(st) && l.target in st.count && Payable(M.LinkDec(st, l), ls[1..], m, phantom) &&
      if l.phantomized then st.count[l.target].n2 >= 1 else st.count[l.target].Plain(l.which) >= 1
  {
    hide Sane, Balanced, Dead, M.Dec, M.DecPhantom, Struct;
    var l := ls[0];
    assert l in ls;
    var loose := LooseOf(ls[1..]);
    assert LooseOf(ls) == loose + multiset{Ref(l.target, ClassOf(l))};
    LooseCounts(st, LooseOf(ls), m.hand, l.target, ClassOf(l));
    SaneRegistered(st, m);
    SaneCounts(st, m);
    if phantom {
      DecPhantomKeeps(st, l.target, loose, m);
    } else {
      LooseDecKeeps(st, l.target, l.which, loose);
    }
    LinkDecGraph(st, l);
  }

  lemma SaneCounts(st: M.State, m: Mode)
    requires Sane(st, m)
    ensures forall o :: o in st.g.objs ==> o in st.count && st.Num(o) == st.count[o]
  {
    hide Homed, Local, Positive, Anchored, Scheduled, Uniform, Acyclic, HeldOrCleaned, LinksShape, M.Registered, Wired, Pointing, Listed, Counted;
  }

  lemma {:induction false} PickedAt(links: M.Links, o: Oid, ks: seq<Field>)
    ensures |M.Picked(links, o, ks)| == |ks|
    ensures forall i :: 0 <= i < |ks| ==> M.Picked(links, o, ks)[i] == M.LinkAt(links, M.Slot(o, ks[i]))
    decreases |ks|
  {
    if ks != [] {
      PickedAt(links, o, ks[1..]);
    }
  }

  /** link_destroy, apart from the memory of the link */
  method LinkDestroy(w: World, lk: LinkRec, ghost vals: seq<M.Link>, ghost m: Mode, ghost phantom: bool)
    requires w.Valid() && vals != [] && Payable(w.St(), vals, m, phantom) && w.Known(lk.target) && vals[0] == LinkValue(lk)
    modifies w`collectors, w`lists, w`counters, w`next, w`tasks, w.objects.Values`count, w.objects.Values`collector, w.CollRepr()
    ensures w.Valid() && w.Extends() && Payable(w.St(), vals[1..], m, phantom)
    ensures M.LinkDecs(w.St(), vals[1..]) == M.LinkDecs(old(w.St()), vals)
  {
    hide w.Valid, w.St, Payable, M.LinkDec, Struct, w.CollRepr, w.Extends;
    PayStep(w.St(), vals, m, phantom);
    w.ObjectAt(lk.target);
    LinkDec(w, lk);
  }

  /** `vals` are the values of the links. */
  ghost predicate Match(w: World, lks: seq<LinkRec>, vals: seq<M.Link>)
    reads w`objects, lks
  {
    |lks| == |vals| && forall i :: 0 <= i < |lks| ==> w.Known(lks[i].target) && vals[i] == LinkValue(lks[i])
  }

  lemma MatchAt(w: World, lks: seq<LinkRec>, vals: seq<M.Link>, i: int)
    requires Match(w, lks, vals) && 0 <= i < |lks|
    ensures |lks| == |vals| && w.Known(lks[i].target) && vals[i] == LinkValue(lks[i])
  {
  }

  method LinkDestroyAll(w: World, lks: seq<LinkRec>, ghost vals: seq<M.Link>, ghost m: Mode, ghost phantom: bool)
    requires w.Valid() && Payable(w.St(), vals, m, phantom) && Match(w, lks, vals)
    modifies w`collectors, w`lists, w`counters, w`next, w`tasks, w.objects.Values`count, w.objects.Values`collector, w.CollRepr()
    ensures w.Valid() && w.Extends() && w.St() == M.LinkDecs(old(w.St()), vals)
  {
    hide w.Valid, w.St, Payable, M.LinkDec, w.CollRepr, Match, Grows;
    ghost var s0, g0 := w.St(), w.Reg();
    w.ExtendsSame();
    MatchSize(w, lks, vals);
    var i := 0;
    while i < |lks|
      invariant 0 <= i <= |lks| && w.Valid() && w.Extends() && Match(w, lks, vals)
      invariant Payable(w.St(), vals[i..], m, phantom)
      invariant M.LinkDecs(w.St(), vals[i..]) == M.LinkDecs(s0, vals)
    {
      MatchAt(w, lks, vals, i);
      ghost var g1 := w.Reg();
      LinkDestroy(w, lks[i], vals[i..], m, phantom);
      GrowsTrans(g0, g1, w.Reg());
      assert vals[i..][1..] == vals[i + 1..];
      i := i + 1;
    }
  }

  lemma MatchSize(w: World, lks: seq<LinkRec>, vals: seq<M.Link>)
    requires Match(w, lks, vals)
    ensures |lks| == |vals|
  {
  }

  lemma PickedMatch(w: World, obj: ObjectRec, lks: seq<LinkRec>)
    requires w.Valid() && w.Known(obj) && LinksShape(w.St().g)
    requires |lks| == |obj.order|
    requires forall i :: 0 <= i < |lks| ==> obj.order[i] in obj.links && lks[i] == obj.links[obj.order[i]]
    ensures Match(w, lks, M.Picked(w.St().g.links, obj.id, w.St().g.Keys(obj.id)))
  {
    hide w.Valid, w.St, LinksShape;
    w.ObjectAt(obj);
    PickedAt(w.St().g.links, obj.id, obj.order);
    forall i | 0 <= i < |lks|
      ensures w.Known(lks[i].target) && M.Picked(w.St().g.links, obj.id, obj.order)[i] == LinkValue(lks[i])
    {
      w.LinkOf(lks[i]);
    }
  }

  /** object_remove_links */
  method ObjectRemoveLinks(w: World, obj: ObjectRec, ghost m: Mode, ghost phantom: bool)
    requires w.Valid() && w.Known(obj) && LinksShape(w.St().g)
    requires Payable(M.Detach(w.St(), obj.id), M.Picked(w.St().g.links, obj.id, w.St().g.Keys(obj.id)), m, phantom)
    requires obj.count.Unused()
    modifies w`collectors, w`lists, w`counters, w`next, w`tasks, w.objects.Values`count, w.objects.Values`collector, w.CollRepr(),
      w`links, obj`links, obj`order
    ensures w.Valid() && w.Extends() && w.St() == M.RemoveLinks(old(w.St()), obj.id) && obj.links == map[] && obj.order == []
  {
    hide w.Valid, w.St, Payable, M.LinkDecs, M.Detach, w.CollRepr, Match, M.Picked, LinksShape;
    ghost var vals := M.Picked(w.St().g.links, obj.id, w.St().g.Keys(obj.id));
    TableFull(w, obj);
    var lks := Gather(w, obj);
    PickedMatch(w, obj, lks);
    w.ClearLinks(obj);
    assert obj.count.n0 == 0;
    assert obj.count.n1 == 0;
    w.ExtendsSame();
    LinkDestroyAll(w, lks, vals, m, phantom);
  }
}

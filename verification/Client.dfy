/** The delete task and the calls of the client, on the records. */
module Client {
  import opened Sequences
  import opened Wrappers
  import opened Forwarding
  import opened Sums
  import opened Records
  import opened Invariant
  import opened Conservation
  import opened Keeping
  import opened Phantomizing
  import opened CollectPhase
  import opened RecoverPhase
  import opened CleanPhase
  import opened Reach
  import opened Runs
  import opened Deletion
  import opened Mutators
  import opened Heap
  import opened Program
  import opened CollectorCode
  import opened CollectorRuns
  import M = Model

  // ---- The delete task ----

  /** object_del: the object leaves the heap */
  method ObjectDel(w: World, obj: ObjectRec)
    requires w.Valid() && w.Known(obj) && obj.links == map[] && obj.order == []
    requires forall s :: s in w.St().g.links ==> w.St().g.links[s].target != obj.id && s.src != obj.id
    requires forall l :: l in w.St().cs.lists ==> obj.id !in w.St().cs.lists[l].data
    requires obj.collector != null ==> obj.collector.count.refs >= 1
    modifies obj`collector, w.counters.Values`refs, w`objects, w`tasks
    ensures w.Valid() && w.St() == M.Release(old(w.St()), obj.id)
  {
    hide w.Valid, w.St, M.SetColl;
    Unlinked(w, obj);
    w.SetCollector(obj, null);
    assert |obj.links| == 0;
    w.Remove(obj);
    w.TaskEnd(M.DeleteObject(obj.id));
  }

  lemma Unlinked(w: World, obj: ObjectRec)
    requires w.Valid() && w.Known(obj)
    requires forall s :: s in w.St().g.links ==> w.St().g.links[s].target != obj.id && s.src != obj.id
    requires forall l :: l in w.St().cs.lists ==> obj.id !in w.St().cs.lists[l].data
    ensures forall s :: s in w.links ==> w.links[s].target != obj && w.links[s].src != obj
    ensures forall l :: l in w.lists ==> obj !in w.lists[l].data
  {
    forall s | s in w.links ensures w.links[s].target != obj && w.links[s].src != obj {
      assert s in w.St().g.links;
    }
    forall l | l in w.lists ensures obj !in w.lists[l].data {
      assert l in w.St().cs.lists;
      IdsContain(w.lists[l].data, obj);
    }
  }

  lemma IdsContain(s: seq<ObjectRec>, o: ObjectRec)
    ensures o in s ==> o.id in Ids(s)
  {
    if o in s {
      var i :| 0 <= i < |s| && s[i] == o;
      assert Ids(s)[i] == o.id;
    }
  }

  /** The task that object_request_delete starts. */
  method DeleteTaskRec(w: World, obj: ObjectRec)
    requires w.Valid() && w.Known(obj) && Inv(w.St()) && Doomed(w.St().tasks, obj.id)
    modifies w, w.objects.Values, w.CollRepr()
    ensures w.Valid() && w.St() == M.DeleteTask(old(w.St()), obj.id)
  {
    hide w.Valid, w.St, Inv, Doomed, M.RemoveLinks, M.Release, Payable, w.CollRepr, Struct;
    ghost var s0 := w.St();
    w.ObjectAt(obj);
    DeleteFacts(s0, obj.id);
    ObjectRemoveLinks(w, obj, AtRest, false);
    w.Referenced(obj);
    ObjectDel(w, obj);
  }

  lemma DeleteFacts(st: M.State, o: Oid)
    requires Inv(st) && Doomed(st.tasks, o) && o in st.g.objs
    ensures LinksShape(st.g) && st.Num(o).Unused()
    ensures Payable(M.Detach(st, o), M.Picked(st.g.links, o, st.g.Keys(o)), AtRest, false)
    ensures Struct(M.RemoveLinks(st, o))
    ensures var r := M.RemoveLinks(st, o);
      (forall s :: s in r.g.links ==> r.g.links[s].target != o && s.src != o) &&
      (forall l :: l in r.cs.lists ==> o !in r.cs.lists[l].data)
  {
    hide Sane, Balanced, M.RemoveLinks, M.Detach, M.Picked, LinksShape;
    SaneShape(st, AtRest);
    DoomedIn(st, o);
    SaneCounts(st, AtRest);
    StripLinks(st, o, AtRest);
    DoomedPlain(st, o);
    DetachKeeps(st, o, AtRest);
    DetachObjs(st, o);
    RemoveLinksKeeps(st, o);
    SaneStruct(M.RemoveLinks(st, o), AtRest);
    DoomedAlone(M.RemoveLinks(st, o), o);
  }

  lemma DoomedAlone(r: M.State, o: Oid)
    requires Sane(r, AtRest) && Balanced(r, multiset{}, None) && Doomed(r.tasks, o) && o in r.g.objs && r.g.Keys(o) == []
    ensures forall s :: s in r.g.links ==> r.g.links[s].target != o && s.src != o
    ensures forall l :: l in r.cs.lists ==> o !in r.cs.lists[l].data
  {
    DoomedIn(r, o);
    IdleAlone(r, o);
    hide Homed, Local, Positive, Anchored, Scheduled, Uniform, Acyclic, HeldOrCleaned, M.Registered, Wired, Pointing, Listed, Counted, Balanced;
  }

  // ---- acid.c ----

  /** acid_malloc: the allocator hands out an address that is not in use. */
  method AcidMalloc(w: World, id: Oid) returns (o: ObjectRec)
    requires w.Valid() && Inv(w.St()) && id !in w.St().g.objs
    modifies w`objects, w`claims
    ensures w.Valid() && w.Known(o) && o.id == id && fresh(o) && w.St() == M.Malloc(old(w.St()), id)
  {
    hide w.Valid, w.St, Inv;
    ghost var s0 := w.St();
    NoLinksYet(w, id);
    o := w.NewObject(id);
    w.PutClaims(s0.g.claims + multiset{id});
  }

  lemma NoLinksYet(w: World, id: Oid)
    requires w.Valid() && Inv(w.St()) && id !in w.St().g.objs
    ensures id !in w.objects && forall k :: M.Slot(id, k) !in w.links
  {
    hide Sane, Balanced;
    SaneShape(w.St(), AtRest);
    assert forall s :: s in w.links ==> s in w.St().g.links && s.src in w.St().g.objs;
  }

  /** acid_harden */
  method AcidHarden(w: World, obj: ObjectRec)
    requires w.Valid() && w.Known(obj)
    modifies obj`count, w`claims
    ensures w.Valid() && w.St() == M.Harden(old(w.St()), obj.id)
  {
    hide w.Valid, w.St;
    w.ObjectAt(obj);
    ghost var s0 := w.St();
    w.PutCount(obj, obj.count.AddPlain(obj.which, 1));
    w.PutClaims(s0.g.claims + multiset{obj.id});
  }

  /** acid_dissolve */
  method AcidDissolve(w: World, obj: ObjectRec)
    requires w.Valid() && w.Known(obj) && Inv(w.St()) && w.St().g.claims[obj.id] > 0
    modifies w, w.objects.Values`count, w.objects.Values`collector, w.CollRepr()
    ensures w.Valid() && w.St() == M.Dissolve(old(w.St()), obj.id)
  {
    hide w.Valid, w.St, Inv, M.Dec, Struct, w.CollRepr;
    ghost var s0 := w.St();
    w.ObjectAt(obj);
    DissolveFacts(s0, obj.id);
    w.PutClaims(s0.g.claims - multiset{obj.id});
    w.ObjectDec(obj, obj.which);
  }

  lemma DissolveFacts(st: M.State, o: Oid)
    requires Inv(st) && st.g.claims[o] > 0 && o in st.g.objs
    ensures st.Num(o).Plain(st.Which(o)) >= 1 && Struct(M.Claims(st, st.g.claims - multiset{o}))
  {
    ClaimCounted(st, multiset{}, o);
    hide Sane, Balanced;
    ClaimsFrame(st, st.g.claims - multiset{o});
    SaneRegistered(M.Claims(st, st.g.claims - multiset{o}), AtRest);
  }

  /** _acid_set_raw; `varobj` is null if the variable holds nothing managed. */
  method AcidSetRaw(w: World, varobj: ObjectRec?, valobj: ObjectRec)
    requires w.Valid() && w.Known(valobj) && Inv(w.St()) && Reachable(w.St().g, valobj.id)
    requires varobj != null ==> w.Known(varobj) && w.St().g.claims[varobj.id] > 0
    modifies w, w.objects.Values`count, w.objects.Values`collector, w.CollRepr()
    ensures w.Valid()
    ensures w.St() == M.SetRaw(old(w.St()), if varobj == null then None else Some(varobj.id), valobj.id)
  {
    hide w.Valid, w.St, Inv, M.Dissolve, Reachable, w.CollRepr;
    HardenKeeps(w.St(), valobj.id);
    AcidHarden(w, valobj);
    if varobj != null {
      AcidDissolve(w, varobj);
    }
  }

  // ---- object_get and object_set ----

  method ObjectGet(w: World, obj: ObjectRec, k: Field) returns (r: ObjectRec?)
    requires w.Valid() && w.Known(obj)
    ensures (if r == null then None else Some(r.id)) == M.GetField(w.St().g, obj.id, k)
    ensures w.Valid() && w.St() == old(w.St())
  {
    hide w.Valid, w.St;
    w.ObjectAt(obj);
    if k in obj.links {
      w.LinkOf(obj.links[k]);
      r := obj.links[k].target;
    } else {
      r := null;
    }
  }

  /** The new link of object_set gets its class and its count. */
  method CountNewLink(w: World, obj: ObjectRec, referent: ObjectRec, lk: LinkRec)
    requires w.Valid() && InTable(w, lk) && w.Known(obj) && w.Known(referent) && lk.src == obj && lk.target == referent
    requires Struct(w.St()) && (obj.phantomized ==> obj.collector != null) && !lk.phantomized
    modifies w.objects.Values`count, w.objects.Values`collector, w.CollRepr(), lk`which, lk`phantomized
    ensures w.Valid() && w.St() == CountedLink(old(w.St()), lk.slot, referent.id, old(lk.which))
  {
    hide w.Valid, w.St, Struct, M.MergeObjs, w.CollRepr;
    ghost var s0 := w.St();
    w.LinkOf(lk);
    w.ObjectAt(obj);
    w.ObjectAt(referent);
    NoKeys(w, referent);
    if obj.phantomized {
      MergeForLink(w, obj, referent);
      w.ObjectAt(referent);
      w.LinkOf(lk);
      w.PutCount(referent, referent.count.AddPhantom(1));
      w.PutLink(lk, lk.which, true);
    } else {
      var which := if referent == obj then !referent.which
                   else if |referent.links| == 0 then referent.which
                   else !referent.which;
      w.PutLink(lk, which, false);
      w.PutCount(referent, referent.count.AddPlain(which, 1));
    }
  }

  /** A phantom shares its group with whatever it links to. */
  method MergeForLink(w: World, obj: ObjectRec, referent: ObjectRec)
    requires w.Valid() && w.Known(obj) && w.Known(referent) && Struct(w.St()) && obj.collector != null
    modifies w.objects.Values`collector, w.CollRepr()
    ensures w.Valid() && w.St() == M.MergeObjs(old(w.St()), obj.id, referent.id)
  {
    hide w.Valid, w.St, Struct, M.MergeObjs, GroupOf, w.CollRepr;
    w.ObjectAt(obj);
    w.ObjectAt(referent);
    MergeObjsJoins(w.St(), obj.id, referent.id);
    var merged := ObjectMergeCollectors(w, obj, referent);
    w.ObjectAt(obj);
    SameRoots(w.St(), obj.id, referent.id);
    assert obj.collector != null;
  }

  /** What that does, once the link is in its table. */
  ghost function CountedLink(st: M.State, s: M.Slot, t: Oid, which: bool): M.State
  {
    if st.g.Ph(s.src) then
      var s1 := M.MergeObjs(st, s.src, t);
      M.PutLink(M.PutCount(s1, t, s1.Num(t).AddPhantom(1)), s, M.Link(t, which, true))
    else
      var w := if t != s.src && st.g.Keys(t) == [] then st.Which(t) else !st.Which(t);
      M.PutCount(M.PutLink(st, s, M.Link(t, w, false)), t, st.Num(t).AddPlain(w, 1))
  }

  /** Entering the link first and counting it afterwards is the same as what
      `NewLink` says. */
  lemma CountedIsNew(st: M.State, s: M.Slot, t: Oid, order: seq<Field>)
    requires s.field in order
    ensures CountedLink(M.PutField(st, s, order, Some(M.Link(t, false, false))), s, t, false) == M.NewLink(st, s, t, order)
  {
    var s1 := M.PutField(st, s, order, Some(M.Link(t, false, false)));
    MergeObjsSame(s1, st, s.src, t);
    if st.g.Ph(s.src) {
      hide M.MergeObjs;
      assert s1.g.links[s := M.Link(t, false, true)] == st.g.links[s := M.Link(t, false, true)];
    } else {
      assert forall w :: s1.g.links[s := M.Link(t, w, false)] == st.g.links[s := M.Link(t, w, false)];
      assert t != s.src ==> s1.g.Keys(t) == st.g.Keys(t);
    }
  }

  ghost function RefId(o: ObjectRec?): Option<Oid>
  {
    if o == null then None else Some(o.id)
  }

  /** The part of object_set that creates and counts the new link. */
  method CreateLink(w: World, obj: ObjectRec, k: Field, referent: ObjectRec, order: seq<Field>)
    requires w.Valid() && w.Known(obj) && w.Known(referent) && Inv(w.St())
    requires MaySet(w.St(), M.Slot(obj.id, k), Some(referent.id), order)
    modifies w`links, obj`links, obj`order, w.objects.Values`count, w.objects.Values`collector, w.CollRepr()
    ensures w.Valid() && w.St() == M.NewLink(old(w.St()), M.Slot(obj.id, k), referent.id, order)
  {
    hide w.Valid, w.St, Inv, MaySet, Struct, M.PutField, M.NewLink, CountedLink, w.CollRepr;
    ghost var s0 := w.St();
    ghost var s := M.Slot(obj.id, k);
    w.ObjectAt(obj);
    CreateFacts(s0, s, referent.id, order);
    var lk := NewLinkRec(w, obj, k, referent);
    w.AddLink(obj, k, lk, order);
    w.ObjectAt(obj);
    CountNewLink(w, obj, referent, lk);
  }

  /** link_create, which does not touch the heap */
  method NewLinkRec(ghost w: World, obj: ObjectRec, ghost k: Field, referent: ObjectRec) returns (lk: LinkRec)
    requires w.Valid()
    ensures fresh(lk) && lk.slot == M.Slot(obj.id, k) && lk.src == obj && lk.target == referent && !lk.which && !lk.phantomized
    ensures w.Valid() && w.St() == old(w.St())
  {
    hide w.ObjectsValid, w.LinksValid, w.CollectorsValid, w.ListsValid, w.Whichs, w.Phs, w.Orders, w.Counts, w.Colls, w.LinkMap,
         w.Forwarded, w.CounterMap, w.ListMap, w.Repr, w.CollRepr;
    lk := new LinkRec(M.Slot(obj.id, k), obj, referent);
  }

  lemma CreateFacts(st: M.State, s: M.Slot, t: Oid, order: seq<Field>)
    requires Inv(st) && MaySet(st, s, Some(t), order)
    ensures var s1 := M.PutField(st, s, order, Some(M.Link(t, false, false)));
      Struct(s1) && s1.g.Ph(s.src) == st.g.Ph(s.src) && s1.Coll(s.src) == st.Coll(s.src) &&
      CountedLink(s1, s, t, false) == M.NewLink(st, s, t, order)
    ensures st.g.Ph(s.src) ==> st.Coll(s.src).Some?
  {
    CountedIsNew(st, s, t, order);
    ReachableAlive(st, s.src);
    ClaimReach(st.g, t);
    ReachableAlive(st, t);
    if st.g.Ph(s.src) {
      PhantomGrouped(st, s.src);
      GroupSome(st, s.src);
    }
    CreateStruct(st, s, t, order);
    hide Sane, Balanced, Reachable, CountedLink, M.NewLink, Struct;
  }

  lemma CreateStruct(st: M.State, s: M.Slot, t: Oid, order: seq<Field>)
    requires Struct(st) && s.src in st.g.objs && t in st.g.objs && Order(st.g, s, order, true)
    ensures Struct(M.PutField(st, s, order, Some(M.Link(t, false, false))))
  {
    hide LinksShape, M.Registered, Wired, Pointing, Listed, Counted, NoDup;
    PutFieldShape(st.g, s, order, M.Link(t, false, false));
  }

  /** object_set; a null referent clears the field. */
  method ObjectSet(w: World, obj: ObjectRec, k: Field, referent: ObjectRec?, order: seq<Field>)
    requires w.Valid() && w.Known(obj) && (referent != null ==> w.Known(referent)) && Inv(w.St())
    requires MaySet(w.St(), M.Slot(obj.id, k), RefId(referent), order)
    modifies w, obj`links, obj`order, w.objects.Values`count, w.objects.Values`collector, w.CollRepr()
    ensures w.Valid() && w.St() == M.SetField(old(w.St()), M.Slot(obj.id, k), RefId(referent), order)
  {
    hide w.Valid, w.St, Inv, MaySet, M.PutField, M.NewLink, M.LinkDec, w.CollRepr, Struct, w.KnownColl;
    ghost var s0 := w.St();
    ghost var s := M.Slot(obj.id, k);
    w.ObjectAt(obj);
    var oldLink: LinkRec? := null;
    if k in obj.links {
      oldLink := obj.links[k];
      w.LinkOf(oldLink);
    }
    if referent == null {
      if oldLink != null {
        w.DropLink(obj, k, order);
      }
    } else {
      if oldLink != null && oldLink.target == referent {
        return;
      }
      CreateLink(w, obj, k, referent, order);
    }
    if oldLink != null {
      OldFacts(s0, s, RefId(referent), order);
      w.ObjectAt(oldLink.target);
      LinkDec(w, oldLink);
    }
  }

  /** The reference of the old link can be given up. */
  lemma OldFacts(st: M.State, s: M.Slot, ref: Option<Oid>, order: seq<Field>)
    requires Inv(st) && MaySet(st, s, ref, order) && s in st.g.links && ref != Some(st.g.links[s].target)
    ensures var l := st.g.links[s]; var s1 := if ref.Some? then M.NewLink(st, s, ref.value, order) else M.PutField(st, s, order, None);
      Struct(s1) && l.target in s1.count &&
      if l.phantomized then s1.count[l.target].n2 >= 1 else s1.count[l.target].Plain(l.which) >= 1
  {
    hide Sane, Balanced, Reachable, M.NewLink, M.PutField, Order, Struct;
    var l := st.g.links[s];
    OldTarget(st, s);
    if ref.Some? {
      if st.g.Ph(s.src) {
        NewPhantomKeeps(st, s, ref.value, order);
      } else {
        NewPlainKeeps(st, s, ref.value, order);
      }
      NewLinkFrame(st, s, ref.value, order);
    } else {
      TakeFieldKeeps(st, s, order);
      TakeFrame(st, s, order);
    }
    var s1 := if ref.Some? then M.NewLink(st, s, ref.value, order) else M.PutField(st, s, order, None);
    SaneRegistered(s1, AtRest);
    SaneCounts(s1, AtRest);
    LooseCounts(s1, OldRef(st.g.links, s), None, l.target, ClassOf(l));
  }
}

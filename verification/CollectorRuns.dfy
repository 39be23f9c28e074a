/** collector_run and the delete task on the records. */
module CollectorRuns {
  import opened Wrappers
  import opened Forwarding
  import opened Sums
  import opened Records
  import opened Invariant
  import opened Conservation
  import opened Keeping
  import opened Phantomizing
  import opened CollectPhase
  import opened RecoverPhase
  import opened CleanPhase
  import opened Reach
  import opened Runs
  import opened Deletion
  import opened Mutators
  import opened Heap
  import opened Program
  import opened CollectorCode
  import M = Model

  // ---- The loops of collector_run ----

  /** What polling a list of a collector does. */
  method PollFrom(w: World, c: CollectorRec, l: SafeListRec, ghost k: M.Kind) returns (obj: ObjectRec?)
    requires w.Valid() && w.KnownColl(c) && l == c.List(k) && StoreBalance(w.St().cs, c.id) == 0
    modifies l`data, w.counters.Values`stores
    ensures w.Valid()
    ensures obj == null <==> Data(old(w.St()).cs.lists, c.id, k) == []
    ensures obj == null ==> w.St() == old(w.St())
    ensures obj != null ==> w.Known(obj) && obj.id == Head(old(w.St()), c.id, k) && w.St() == M.Poll(old(w.St()), M.Lid(c.id, k))
  {
    hide w.Valid, w.St;
    w.CollectorAt(c);
    w.ListOf(l);
    StorePart(w.St().cs.lists, l.lid);
    obj := w.SafelistPoll(l);
  }

  lemma SanePaid(st: M.State, m: Mode, c: Cid)
    requires Sane(st, m) && c in st.cs.forward
    ensures StoreBalance(st.cs, c) == 0
  {
    hide Sane, Struct, StoreBalance;
    SaneStruct(st, m);
    StructPaid(st, c);
  }

  method AddTo(w: World, c: CollectorRec, l: SafeListRec, obj: ObjectRec, ghost k: M.Kind, ghost m: Mode)
    requires w.Valid() && w.KnownColl(c) && l == c.List(k) && w.Known(obj) && Sane(w.St(), m)
    modifies w.lists.Values`data, w.counters.Values`stores
    ensures w.Valid() && w.St() == M.ListAdd(old(w.St()), M.Lid(c.id, k), obj.id)
  {
    hide w.Valid, w.St, Sane, M.ListAdd, M.Append;
    w.CollectorAt(c);
    SaneWired(w.St(), m);
    w.SafelistAdd(l, obj);
  }

  lemma SaneWired(st: M.State, m: Mode)
    requires Sane(st, m)
    ensures M.Registered(st.cs) && Wired(st.cs)
  {
    hide Homed, Local, Positive, Anchored, Scheduled, Uniform, Acyclic, HeldOrCleaned, LinksShape, Pointing, Listed, Counted;
  }

  lemma MergedPaid(st: M.State, c: Cid)
    requires MergedInv(st, c)
    ensures StoreBalance(st.cs, c) == 0
  {
    hide Sane, Balanced, StoreBalance;
    SanePaid(st, CollectMode(c, None, None), c);
  }

  lemma CollectPaid(st: M.State, c: Cid)
    requires CollectInv(st, c)
    ensures StoreBalance(st.cs, c) == 0
  {
    hide Sane, Balanced, StoreBalance;
    SanePaid(st, CollectMode(c, None, None), c);
  }

  lemma RecoveryPaid(st: M.State, c: Cid)
    requires RecoveryInv(st, c)
    ensures StoreBalance(st.cs, c) == 0
  {
    hide Sane, Balanced, Awaited, StoreBalance;
    SanePaid(st, RecoverMode(c, None, None), c);
  }

  lemma RebuildPaid(st: M.State, c: Cid)
    requires RebuildingInv(st, c)
    ensures StoreBalance(st.cs, c) == 0
  {
    hide RecoveryInv, StoreBalance;
    RecoveryPaid(st, c);
  }

  lemma CleanPaid(st: M.State, c: Cid)
    requires CleanInv(st, c)
    ensures StoreBalance(st.cs, c) == 0
  {
    hide Sane, Balanced, Dead, StoreBalance;
    SanePaid(st, CleanMode(c, None), c);
  }

  method DrainMerged(w: World, c: CollectorRec)
    requires w.Valid() && w.KnownColl(c) && MergedInv(w.St(), c.id)
    modifies w.lists.Values`data, w.counters.Values`stores
    ensures w.Valid() && w.St() == MergedLoop(old(w.St()), c.id)
  {
    hide w.Valid, w.St, MergedInv, CollectInv, M.ListAdd, M.Poll, Sane;
    ghost var s0 := w.St();
    w.CollectorAt(c);
    assert c.merged == c.List(M.Merged) && c.recovery == c.List(M.Recovery);
    while true
      invariant w.Valid() && MergedInv(w.St(), c.id) && MergedLoop(w.St(), c.id) == MergedLoop(s0, c.id)
      decreases |Data(w.St().cs.lists, c.id, M.Merged)|
    {
      ghost var s1 := w.St();
      MergedPaid(s1, c.id);
      var obj := PollFrom(w, c, c.merged, M.Merged);
      if obj == null { break; }
      MergedStepKeeps(s1, c.id);
      MergedPolled(s1, c.id);
      AddTo(w, c, c.recovery, obj, M.Recovery, CollectMode(c.id, Some(obj.id), None));
    }
  }

  lemma MergedPolled(st: M.State, c: Cid)
    requires MergedInv(st, c) && Data(st.cs.lists, c, M.Merged) != []
    ensures Sane(M.Poll(st, M.Lid(c, M.Merged)), CollectMode(c, Some(Head(st, c, M.Merged)), None))
  {
    hide Sane, Balanced, M.Poll;
    PollKeeps(st, M.Lid(c, M.Merged), CollectMode(c, None, None));
  }

  method DrainCollect(w: World, c: CollectorRec)
    requires w.Valid() && w.KnownColl(c) && CollectInv(w.St(), c.id)
    modifies w`collectors, w`lists, w`counters, w`next, w`tasks, w.objects.Values, w.CollRepr(), w.links.Values`which, w.links.Values`phantomized
    ensures w.Valid() && w.Extends() && w.KnownColl(c) && w.St() == CollectLoop(old(w.St()), c.id)
  {
    hide w.Valid, w.St, CollectInv, CollectStep, Sane, w.CollRepr, PlainLinks, Grows, w.KnownColl;
    ghost var s0, g0 := w.St(), w.Reg();
    w.ExtendsSame();
    while true
      invariant w.Valid() && w.KnownColl(c) && w.Extends() && CollectInv(w.St(), c.id) && CollectLoop(w.St(), c.id) == CollectLoop(s0, c.id)
      decreases PlainLinks(w.St().g), |Data(w.St().cs.lists, c.id, M.Collect)|
    {
      ghost var s1, g1 := w.St(), w.Reg();
      var more := CollectRound(w, c);
      GrowsTrans(g0, g1, w.Reg());
      if !more { break; }
      CollectStepKeeps(s1, c.id);
    }
  }

  /** One round of the loop over the collect list. */
  method CollectRound(w: World, c: CollectorRec) returns (more: bool)
    requires w.Valid() && w.KnownColl(c) && CollectInv(w.St(), c.id)
    modifies w`collectors, w`lists, w`counters, w`next, w`tasks, w.objects.Values, w.CollRepr(), w.links.Values`which, w.links.Values`phantomized
    ensures w.Valid() && w.Extends() && w.KnownColl(c)
    ensures more <==> Data(old(w.St()).cs.lists, c.id, M.Collect) != []
    ensures w.St() == if more then CollectStep(old(w.St()), c.id) else old(w.St())
  {
    hide w.Valid, w.St, CollectInv, Sane, w.CollRepr, M.PhantomizeNode, M.ListAdd, M.Poll, Grows, CollectStep, Head, Data;
    ghost var s0 := w.St();
    var obj := PhantomizeNext(w, c);
    if obj == null { return false; }
    CollectStepShape(s0, c.id);
    w.CollectorAt(c);
    assert c.recovery == c.List(M.Recovery);
    AddTo(w, c, c.recovery, obj, M.Recovery, CollectMode(c.id, Some(obj.id), None));
    more := true;
  }

  lemma CollectStepShape(st: M.State, c: Cid)
    requires Data(st.cs.lists, c, M.Collect) != []
    ensures var o := Head(st, c, M.Collect);
      CollectStep(st, c) == M.ListAdd(M.PhantomizeNode(M.Poll(st, M.Lid(c, M.Collect)), o), M.Lid(c, M.Recovery), o)
  {
    hide M.PhantomizeNode, M.ListAdd, M.Poll;
  }

  method PhantomizeNext(w: World, c: CollectorRec) returns (obj: ObjectRec?)
    requires w.Valid() && w.KnownColl(c) && CollectInv(w.St(), c.id)
    modifies w`collectors, w`lists, w`counters, w`next, w`tasks, w.objects.Values, w.CollRepr(), w.links.Values`which, w.links.Values`phantomized
    ensures w.Valid() && w.Extends() && w.KnownColl(c)
    ensures obj == null <==> Data(old(w.St()).cs.lists, c.id, M.Collect) == []
    ensures obj == null ==> w.St() == old(w.St())
    ensures obj != null ==> w.Known(obj) && obj.id == Head(old(w.St()), c.id, M.Collect)
    ensures obj != null ==> w.St() == M.PhantomizeNode(M.Poll(old(w.St()), M.Lid(c.id, M.Collect)), obj.id)
    ensures obj != null ==> Sane(w.St(), CollectMode(c.id, Some(obj.id), None))
  {
    hide w.Valid, w.St, CollectInv, Sane, Balanced, Joined, w.CollRepr, M.PhantomizeNode, M.Poll;
    ghost var s0 := w.St();
    w.CollectorAt(c);
    assert c.collect == c.List(M.Collect);
    w.ExtendsSame();
    CollectPaid(s0, c.id);
    obj := PollFrom(w, c, c.collect, M.Collect);
    if obj == null { return; }
    CollectPolled(s0, c.id);
    w.ObjectAt(obj);
    ObjectPhantomizeNode(w, obj, c.id);
  }

  lemma CollectPolled(st: M.State, c: Cid)
    requires CollectInv(st, c) && Data(st.cs.lists, c, M.Collect) != []
    ensures var o, s1 := Head(st, c, M.Collect), M.Poll(st, M.Lid(c, M.Collect)); var m := CollectMode(c, Some(o), None);
      Sane(s1, m) && Joined(s1, o, c) && Balanced(s1, multiset{Ref(o, Bit(s1.Which(o)))}, Some(o)) &&
      Sane(M.PhantomizeNode(s1, o), m)
  {
    hide Sane, Balanced, M.Poll, Joined, M.PhantomizeNode, GroupOf;
    var o, lid := Head(st, c, M.Collect), M.Lid(c, M.Collect);
    PollKeeps(st, lid, CollectMode(c, None, None));
    PollCollectBalanced(st, c);
    PollJoined(st, lid, o);
    PhantomizeNodeKeeps(M.Poll(st, lid), c, o);
  }

  method DrainRecovery(w: World, c: CollectorRec)
    requires w.Valid() && w.KnownColl(c) && RecoveryInv(w.St(), c.id)
    modifies w.objects.Values, w.links.Values`which, w.links.Values`phantomized, w.counters.Values, w.lists.Values`data
    ensures w.Valid() && w.St() == RecoverLoop(old(w.St()), c.id)
  {
    hide w.Valid, w.St, RecoveryInv, RecoverStep, Sane, M.ListAdd, M.Poll, M.RecoverNode, RecoverInv;
    ghost var s0 := w.St();
    while true
      invariant w.Valid() && RecoveryInv(w.St(), c.id) && RecoverLoop(w.St(), c.id) == RecoverLoop(s0, c.id)
      decreases |Data(w.St().cs.lists, c.id, M.Recovery)|
    {
      ghost var s1 := w.St();
      var more := RecoverRound(w, c);
      if !more { break; }
      RecoverStepKeeps(s1, c.id);
    }
  }

  /** One round of the loop over the recovery list. */
  method RecoverRound(w: World, c: CollectorRec) returns (more: bool)
    requires w.Valid() && w.KnownColl(c) && RecoveryInv(w.St(), c.id)
    modifies w.objects.Values, w.links.Values`which, w.links.Values`phantomized, w.counters.Values, w.lists.Values`data
    ensures w.Valid()
    ensures more <==> Data(old(w.St()).cs.lists, c.id, M.Recovery) != []
    ensures w.St() == if more then RecoverStep(old(w.St()), c.id) else old(w.St())
  {
    hide w.Valid, w.St, RecoveryInv, Sane, M.ListAdd, M.Poll, M.RecoverNode, RecoverInv, Doomed;
    ghost var s0 := w.St();
    w.CollectorAt(c);
    assert c.recovery == c.List(M.Recovery) && c.clean == c.List(M.Clean);
    RecoveryPaid(s0, c.id);
    var obj := PollFrom(w, c, c.recovery, M.Recovery);
    if obj == null { return false; }
    RecoverPolled(s0, c.id);
    ObjectRecoverNode(w, obj, c, Some(obj.id));
    AddTo(w, c, c.clean, obj, M.Clean, RecoverMode(c.id, Some(obj.id), None));
    more := true;
  }

  lemma RecoverPolled(st: M.State, c: Cid)
    requires RecoveryInv(st, c) && Data(st.cs.lists, c, M.Recovery) != []
    ensures var o, s1 := Head(st, c, M.Recovery), M.Poll(st, M.Lid(c, M.Recovery));
      RecoverInv(s1, c, Some(o), Some(o)) && !Doomed(s1.tasks, o) && Sane(M.RecoverNode(s1, c, o), RecoverMode(c, Some(o), None))
  {
    hide Sane, Balanced, M.Poll, M.RecoverNode, GroupOf, Awaited, Doomed, OnlyRebuild, SameTargets;
    var o, lid := Head(st, c, M.Recovery), M.Lid(c, M.Recovery);
    PollKeeps(st, lid, RecoverMode(c, None, None));
    PollBalanced(st, lid);
    PollJoined(st, lid, o);
    PollAwaited(st, c, M.Recovery);
    HandAlive(M.Poll(st, lid), RecoverMode(c, Some(o), None), o);
    RecoverNodeKeeps(M.Poll(st, lid), c, Some(o), o);
  }

  /** The object in hand has a phantom count, so it is not about to be deleted. */
  lemma HandAlive(st: M.State, m: Mode, o: Oid)
    requires Sane(st, m) && Balanced(st, multiset{}, Some(o)) && o in st.g.objs
    ensures !Doomed(st.tasks, o)
  {
    HandCounted(st, o);
    hide Homed, Local, Positive, Anchored, Uniform, Acyclic, HeldOrCleaned, LinksShape, M.Registered, Wired, Pointing, Listed, Counted, Balanced;
    NotIdleNotDoomed(st, o);
  }

  method DrainRebuild(w: World, c: CollectorRec)
    requires w.Valid() && w.KnownColl(c) && RebuildingInv(w.St(), c.id)
    modifies w.objects.Values, w.links.Values`which, w.links.Values`phantomized, w.counters.Values, w.lists.Values`data
    ensures w.Valid() && w.St() == RebuildLoop(old(w.St()), c.id)
  {
    hide w.Valid, w.St, RebuildingInv, RebuildStep, PhantomLinks;
    ghost var s0 := w.St();
    while true
      invariant w.Valid() && RebuildingInv(w.St(), c.id) && RebuildLoop(w.St(), c.id) == RebuildLoop(s0, c.id)
      decreases PhantomLinks(w.St().g), |Data(w.St().cs.lists, c.id, M.Rebuild)|
    {
      ghost var s1 := w.St();
      var more := RebuildRound(w, c);
      if !more { break; }
      RebuildStepKeeps(s1, c.id);
    }
  }

  /** One round of the loop over the rebuild list. */
  method RebuildRound(w: World, c: CollectorRec) returns (more: bool)
    requires w.Valid() && w.KnownColl(c) && RebuildingInv(w.St(), c.id)
    modifies w.objects.Values, w.links.Values`which, w.links.Values`phantomized, w.counters.Values, w.lists.Values`data
    ensures w.Valid()
    ensures more <==> Data(old(w.St()).cs.lists, c.id, M.Rebuild) != []
    ensures w.St() == if more then RebuildStep(old(w.St()), c.id) else old(w.St())
  {
    hide w.Valid, w.St, RebuildingInv, M.Poll, M.RecoverNode, RecoverInv, Doomed;
    ghost var s0 := w.St();
    w.CollectorAt(c);
    assert c.rebuild == c.List(M.Rebuild);
    RebuildPaid(s0, c.id);
    var obj := PollFrom(w, c, c.rebuild, M.Rebuild);
    if obj == null { return false; }
    RebuildPolled(s0, c.id);
    ObjectRecoverNode(w, obj, c, None);
    more := true;
  }

  lemma RebuildPolled(st: M.State, c: Cid)
    requires RebuildingInv(st, c) && Data(st.cs.lists, c, M.Rebuild) != []
    ensures var o, s1 := Head(st, c, M.Rebuild), M.Poll(st, M.Lid(c, M.Rebuild));
      RecoverInv(s1, c, None, Some(o)) && !Doomed(s1.tasks, o)
  {
    hide Sane, Balanced, M.Poll, GroupOf, Doomed;
    var o, lid := Head(st, c, M.Rebuild), M.Lid(c, M.Rebuild);
    PollRebuildKeeps(st, c, RecoverMode(c, None, None));
    PollJoined(st, lid, o);
    PollAwaited(st, c, M.Rebuild);
    assert o in Data(st.cs.lists, c, M.Rebuild);
  }

  // ---- object_clean_node ----

  /** object_clean_node */
  method ObjectCleanNode(w: World, obj: ObjectRec, ghost c: Cid)
    requires w.Valid() && w.Known(obj) && Sane(w.St(), CleanMode(c, Some(obj.id))) && Dead(w.St(), c)
    requires Balanced(w.St(), multiset{}, Some(obj.id)) && GroupOf(w.St(), obj.id) == Some(c)
    modifies w`collectors, w`lists, w`counters, w`next, w`tasks, w`links, w.objects.Values, w.CollRepr()
    ensures w.Valid() && w.Extends() && w.St() == M.CleanNode(old(w.St()), obj.id)
  {
    hide w.Valid, w.St, Sane, Balanced, Dead, GroupOf, M.RemoveLinks, M.DecPhantom, w.CollRepr, Payable, Struct;
    ghost var s0 := w.St();
    w.ObjectAt(obj);
    CleanFacts(s0, c, obj.id);
    assert obj.count.n0 >= 0;
    assert obj.count.n1 >= 0;
    var inUse := obj.count.n0 != 0 || obj.count.n1 != 0;
    w.ExtendsSame();
    if !inUse {
      ObjectRemoveLinks(w, obj, CleanMode(c, Some(obj.id)), true);
    }
    w.ObjectAt(obj);
    w.Referenced(obj);
    ObjectDecPhantom(w, obj);
  }

  lemma CleanFacts(st: M.State, c: Cid, o: Oid)
    requires Sane(st, CleanMode(c, Some(o))) && Balanced(st, multiset{}, Some(o)) && Dead(st, c)
    requires o in st.g.objs && GroupOf(st, o) == Some(c)
    ensures st.Num(o).n0 >= 0 && st.Num(o).n1 >= 0 && st.Num(o).n2 >= 1
    ensures Struct(if st.Num(o).Unused() then M.RemoveLinks(st, o) else st)
    ensures st.Num(o).Unused() ==>
      LinksShape(st.g) && Payable(M.Detach(st, o), M.Picked(st.g.links, o, st.g.Keys(o)), CleanMode(c, Some(o)), true) &&
      M.RemoveLinks(st, o).Num(o).n2 >= 1
  {
    hide Sane, Balanced, Dead, GroupOf, M.RemoveLinks, M.Detach, M.Picked, Payable, LinksShape, Struct;
    SaneShape(st, CleanMode(c, Some(o)));
    SaneStruct(st, CleanMode(c, Some(o)));
    SaneCounts(st, CleanMode(c, Some(o)));
    CountsNonneg(st, multiset{}, Some(o), o);
    HandCounted(st, o);
    if st.Num(o).Unused() {
      StripKeeps(st, c, o);
      SaneStruct(M.RemoveLinks(st, o), CleanMode(c, Some(o)));
      DetachObjs(st, o);
      StripPayable(st, c, o);
      HandCounted(M.RemoveLinks(st, o), o);
    }
  }

  lemma StripPayable(st: M.State, c: Cid, o: Oid)
    requires Sane(st, CleanMode(c, Some(o))) && Balanced(st, multiset{}, Some(o)) && Dead(st, c)
    requires o in st.g.objs && st.g.Ph(o)
    ensures Payable(M.Detach(st, o), M.Picked(st.g.links, o, st.g.Keys(o)), CleanMode(c, Some(o)), true)
  {
    hide Sane, Balanced, Dead, GroupOf, M.Detach, M.Picked;
    StripLinks(st, o, CleanMode(c, Some(o)));
    DetachKeeps(st, o, CleanMode(c, Some(o)));
    DetachDead(st, c, o);
    DetachObjs(st, o);
  }

  method DrainClean(w: World, c: CollectorRec)
    requires w.Valid() && w.KnownColl(c) && CleanInv(w.St(), c.id)
    modifies w`collectors, w`lists, w`counters, w`next, w`tasks, w`links, w.objects.Values, w.CollRepr()
    ensures w.Valid() && w.Extends() && w.KnownColl(c) && w.St() == CleanLoop(old(w.St()), c.id)
  {
    hide w.Valid, w.St, CleanInv, CleanStep, w.CollRepr, Grows;
    ghost var s0, g0 := w.St(), w.Reg();
    w.ExtendsSame();
    while true
      invariant w.Valid() && w.KnownColl(c) && w.Extends() && CleanInv(w.St(), c.id) && CleanLoop(w.St(), c.id) == CleanLoop(s0, c.id)
      decreases |Data(w.St().cs.lists, c.id, M.Clean)|
    {
      ghost var s1, g1 := w.St(), w.Reg();
      var more := CleanRound(w, c);
      GrowsTrans(g0, g1, w.Reg());
      if !more { break; }
      CleanStepKeeps(s1, c.id);
    }
  }

  /** One round of the loop over the clean list. */
  method CleanRound(w: World, c: CollectorRec) returns (more: bool)
    requires w.Valid() && w.KnownColl(c) && CleanInv(w.St(), c.id)
    modifies w`collectors, w`lists, w`counters, w`next, w`tasks, w`links, w.objects.Values, w.CollRepr()
    ensures w.Valid() && w.Extends() && w.KnownColl(c)
    ensures more <==> Data(old(w.St()).cs.lists, c.id, M.Clean) != []
    ensures w.St() == if more then CleanStep(old(w.St()), c.id) else old(w.St())
  {
    hide w.Valid, w.St, CleanInv, Sane, Balanced, Dead, GroupOf, w.CollRepr, M.CleanNode, M.Poll;
    ghost var s0 := w.St();
    w.CollectorAt(c);
    assert c.clean == c.List(M.Clean);
    w.ExtendsSame();
    CleanPaid(s0, c.id);
    var obj := PollFrom(w, c, c.clean, M.Clean);
    if obj == null { return false; }
    CleanPolled(s0, c.id);
    ObjectCleanNode(w, obj, c.id);
    more := true;
  }

  lemma CleanPolled(st: M.State, c: Cid)
    requires CleanInv(st, c) && Data(st.cs.lists, c, M.Clean) != []
    ensures var o, s1 := Head(st, c, M.Clean), M.Poll(st, M.Lid(c, M.Clean));
      Sane(s1, CleanMode(c, Some(o))) && Dead(s1, c) && Balanced(s1, multiset{}, Some(o)) && GroupOf(s1, o) == Some(c)
  {
    hide Sane, Balanced, M.Poll, GroupOf, Dead;
    var o, lid := Head(st, c, M.Clean), M.Lid(c, M.Clean);
    PollKeeps(st, lid, CleanMode(c, None));
    PollBalanced(st, lid);
    PollGroup(st, lid, o);
    PollDead(st, lid, c);
  }

  // ---- The end of a run ----

  /** collector_terminate and collector_destroy */
  method CollectorDestroy(w: World, c: CollectorRec)
    requires w.Valid() && w.KnownColl(c) && Inv(w.St()) && Finished(w.St().cs, c.id)
    modifies w`collectors, w`lists, w`counters, w`tasks, c`forward, w.counters.Values`refs
    ensures w.Valid() && w.St() == Terminate(old(w.St()), c.id)
  {
    hide w.Valid, w.St, Inv, Finished, Struct;
    ghost var s0 := w.St();
    InvStruct(s0);
    w.CollectorAt(c);
    NoReferences(w, c);
    w.ForwardReferenced(c);
    w.SetForward(c, null);
    w.Release(c);
    w.TaskEnd(M.RunCollector(c.id));
    TerminateShape(s0, c.id);
  }

  lemma InvStruct(st: M.State)
    requires Inv(st)
    ensures Struct(st) && M.Registered(st.cs)
  {
    SaneRegistered(st, AtRest);
    hide Sane, Balanced;
  }

  lemma TerminateShape(st: M.State, c: Cid)
    requires c in st.cs.forward && st.cs.forward[c] != Some(c)
    ensures var cs := if st.cs.forward[c].None? then st.cs
                      else M.AddRefs(M.AddRefs(st.cs, None, 1), st.cs.forward[c], -1).(forward := st.cs.forward[c := None]);
      Terminate(st, c) == st.(
        cs := M.Collecting(cs.forward - {c}, cs.counter - {c}, map l | l in cs.lists && l.coll != c :: cs.lists[l], cs.next),
        tasks := st.tasks - multiset{M.RunCollector(c)})
  {
    assert st.cs.forward[c := None] - {c} == st.cs.forward - {c};
  }

  lemma NoReferences(w: World, c: CollectorRec)
    requires w.Valid() && w.KnownColl(c) && Struct(w.St()) && Finished(w.St().cs, c.id)
    ensures w.Unreferenced(c)
  {
    hide LinksShape, M.Registered, Pointing, Listed, Counted, Finished;
    w.CollectorAt(c);
    FinishedMeans(w.St(), c.id);
    forall i | i in w.objects ensures w.objects[i].collector != c {
      assert w.St().collector[i] != Some(c.id);
    }
    forall d | d in w.collectors ensures w.collectors[d].forward != c {
      assert w.St().cs.forward[d] != Some(c.id);
    }
    forall l | l in w.lists && w.lists[l].forward != null ensures w.lists[l].forward.lid.coll != c.id {
      assert w.St().cs.lists[l].forward == Some(w.lists[l].forward.lid);
    }
  }

  /** The loops of collector_run. */
  method Collect(w: World, c: CollectorRec)
    requires w.Valid() && w.KnownColl(c) && Inv(w.St())
    modifies w, w.objects.Values, w.links.Values, w.CollRepr()
    ensures w.Valid() && w.KnownColl(c) && w.Extends()
    ensures c.id in old(w.St()).cs.forward && w.St() == Collection(old(w.St()), c.id)
  {
    hide w.Valid, w.St, Inv, MergedInv, CollectInv, RecoveryInv, RebuildingInv, CleanInv, w.CollRepr,
         MergedLoop, CollectLoop, RecoverLoop, RebuildLoop, CleanLoop, Sane, Balanced, Spared, SameTargets, Grows;
    ghost var s0, g0 := w.St(), w.Reg();
    w.CollectorAt(c);
    RunStart(s0, c.id);
    CollectAll(w, c);
    RecoveryStart(w.St(), c.id);
    ghost var g1 := w.Reg();
    RecoverAndClean(w, c);
    GrowsTrans(g0, g1, w.Reg());
  }

  method CollectAll(w: World, c: CollectorRec)
    requires w.Valid() && w.KnownColl(c) && MergedInv(w.St(), c.id)
    modifies w`collectors, w`lists, w`counters, w`next, w`tasks, w.objects.Values, w.CollRepr(), w.links.Values`which, w.links.Values`phantomized
    ensures w.Valid() && w.KnownColl(c) && w.Extends() && w.St() == CollectLoop(MergedLoop(old(w.St()), c.id), c.id)
  {
    hide w.Valid, w.St, MergedInv, CollectInv, w.CollRepr, MergedLoop, CollectLoop, SameTargets, Grows;
    DrainMerged(w, c);
    w.ExtendsSame();
    DrainCollect(w, c);
  }

  method RecoverAndClean(w: World, c: CollectorRec)
    requires w.Valid() && w.KnownColl(c) && RecoveryInv(w.St(), c.id)
    modifies w, w.objects.Values, w.links.Values, w.CollRepr()
    ensures w.Valid() && w.KnownColl(c) && w.Extends()
    ensures var s2 := RecoverLoop(old(w.St()), c.id);
      RebuildingInv(s2, c.id) && var s3 := RebuildLoop(s2, c.id); CleanInv(s3, c.id) && w.St() == CleanLoop(s3, c.id)
  {
    hide w.Valid, w.St, RecoveryInv, RebuildingInv, CleanInv, w.CollRepr, RecoverLoop, RebuildLoop, CleanLoop, SameTargets;
    DrainRecovery(w, c);
    RebuildingStart(w.St(), c.id);
    DrainRebuild(w, c);
    CleanStart(w.St(), c.id);
    w.ExtendsSame();
    DrainClean(w, c);
  }

  /** collector_run; the result tells whether the task is to be run again. */
  method CollectorRunRec(w: World, c: CollectorRec) returns (again: bool)
    requires w.Valid() && w.KnownColl(c) && Inv(w.St())
    modifies w, w.objects.Values, w.links.Values, w.CollRepr()
    ensures w.Valid() && c.id in old(w.St()).cs.forward && w.St() == CollectorRun(old(w.St()), c.id)
    ensures again <==> c.id in w.St().cs.forward
  {
    hide w.Valid, w.St, Inv, Collection, w.CollRepr, CleanInv, Spared, Data;
    w.CollectorAt(c);
    if c.count.refs > 0 && c.count.stores == 0 {
      return true;
    }
    Collect(w, c);
    w.CollectorAt(c);
    if c.count.refs == 0 && c.count.stores == 0 {
      CollectorDestroy(w, c);
      return false;
    }
    return true;
  }
}

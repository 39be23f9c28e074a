/** Once the client stops, running the tasks brings the heap to rest: no garbage stays
    for ever. */
module Drain {
  import opened Wrappers
  import opened Forwarding
  import opened Sums
  import opened Model
  import opened Conservation
  import opened Invariant
  import opened Keeping
  import opened Phantomizing
  import opened CollectPhase
  import opened RecoverPhase
  import opened CleanPhase
  import opened Reach
  import opened Runs
  import opened Deletion
  import opened Mutators
  import opened Machine

  // ---- What a run leaves to do ----

  /** The collector has work in some list. */
  ghost predicate Busy(lists: Lists, x: Cid)
  {
    exists k :: Data(lists, x, k) != []
  }

  /** No task has been lost. */
  ghost predicate NoneLost(a: multiset<Task>, b: multiset<Task>)
  {
    a <= b
  }

  /** Whoever is busy, outside the group of `c`, was busy before, outside the group of `c`. */
  ghost predicate Onward(a: State, b: State, c: Cid)
  {
    && NoneLost(a.tasks, b.tasks)
    && c in a.cs.forward && c in b.cs.forward
    && (forall x :: Busy(b.cs.lists, x) && x != Root(b.cs.forward, c) ==> Busy(a.cs.lists, x) && x != Root(a.cs.forward, c))
  }

  lemma OnwardTrans(a: State, b: State, d: State, c: Cid)
    requires Onward(a, b, c) && Onward(b, d, c)
    ensures Onward(a, d, c)
  {
    hide Busy, Root;
  }

  lemma OnwardSame(a: State, b: State, c: Cid)
    requires c in a.cs.forward && b.cs.forward == a.cs.forward && b.cs.lists == a.cs.lists && NoneLost(a.tasks, b.tasks)
    ensures Onward(a, b, c)
  {
    hide Busy, Root;
  }

  /** Changes to the lists of a collector that is not forwarded. */
  lemma OnwardOwn(a: State, b: State, c: Cid)
    requires IsRoot(a.cs.forward, c) && Forest(a.cs.forward) && OnlyOwn(a.cs, b.cs, c) && NoneLost(a.tasks, b.tasks)
    ensures Onward(a, b, c)
  {
    RootRoot(a.cs.forward, c);
    assert Root(a.cs.forward, c) == c;
    hide Root, Forest;
  }

  lemma PollOnward(st: State, lid: Lid, c: Cid)
    requires ListAt(st.cs.lists, lid).data != [] && c in st.cs.forward
    ensures Onward(st, Poll(st, lid), c)
  {
    hide Root;
    var r := Poll(st, lid);
    forall x | Busy(r.cs.lists, x) ensures Busy(st.cs.lists, x) {
      var k :| Data(r.cs.lists, x, k) != [];
      assert Data(st.cs.lists, x, k) != [];
    }
  }

  lemma ListAddOnward(st: State, k: Kind, o: Oid, c: Cid)
    requires c in st.cs.forward && Forest(st.cs.forward)
    ensures Onward(st, ListAdd(st, Lid(c, k), o), c)
  {
    RootRoot(st.cs.forward, c);
    var lid := ListEnd(st.cs.forward, Lid(c, k));
    assert lid.coll == Root(st.cs.forward, c);
    hide Root, ListEnd, Forest;
    var r := Append(st, lid, o);
    forall x | Busy(r.cs.lists, x) && x != lid.coll ensures Busy(st.cs.lists, x) {
      var j :| Data(r.cs.lists, x, j) != [];
      assert Data(st.cs.lists, x, j) != [];
    }
  }

  // ---- The collect phase ----

  /** object_dec makes nobody busy but the group of the object. */
  lemma DecSpread(st: State, o: Oid, w: bool)
    requires Struct(st) && o in st.g.objs
    ensures var r := Dec(st, o, w);
      NoneLost(st.tasks, r.tasks) && forall x :: Busy(r.cs.lists, x) ==> Busy(st.cs.lists, x) || GroupOf(r, o) == Some(x)
  {
    var n := st.Num(o).AddPlain(w, -1);
    var s1 := PutCount(st, o, n);
    hide LinksShape, Registered, Wired, Pointing, Listed, Counted, Suspect, Moved, GroupOf;
    PutCountStruct(st, o, n);
    var r := Dec(st, o, w);
    if n.Plain(w) == 0 && w == st.Which(o) && !(n.Plain(!w) == 0 && n.n2 == 0) {
      SuspectQueued(s1, o);
      forall x | Busy(r.cs.lists, x) ensures Busy(st.cs.lists, x) || GroupOf(r, o) == Some(x) {
        var k :| Data(r.cs.lists, x, k) != [];
        var p := Data(r.cs.lists, x, k)[0];
        assert p in Data(r.cs.lists, x, k);
        assert p in Data(s1.cs.lists, x, k) ==> Data(st.cs.lists, x, k) != [];
      }
    }
  }

  /** object_merge_collectors on behalf of an object of the group of `c` leaves the other
      group without work, unless it is the one where both are now. */
  lemma MergeSpread(st: State, obj: Oid, target: Oid, c: Cid)
    requires Struct(st) && Joined(st, obj, c)
    ensures var r := MergeObjs(st, obj, target);
      c in r.cs.forward && r.tasks == st.tasks &&
      forall x :: Busy(r.cs.lists, x) && x != Root(r.cs.forward, c) ==>
        Busy(st.cs.lists, x) && x != Root(st.cs.forward, c) && GroupOf(st, target) != Some(x)
  {
    var s, t := st.Coll(obj), st.Coll(target);
    RegisteredIsForest(st.cs);
    hide LinksShape, Wired, Listed, Counted, SetColl, Registered, Forest;
    if s.Some? && t.Some? && s != t {
      RootRoot(st.cs.forward, s.value);
      RootRoot(st.cs.forward, t.value);
      var rt, rs := Root(st.cs.forward, t.value), Root(st.cs.forward, s.value);
      if rt != rs {
        hide Root;
        JoinForward(st.cs, rt, rs);
        RootsUnion(st.cs.forward, rs, rt);
        JoinBusy(st.cs.lists, rt, rs);
        hide Join;
      }
    }
  }

  lemma JoinBusy(lists: Lists, t: Cid, s: Cid)
    ensures forall x :: Busy(MergedLists(lists, t, s), x) && x != t ==> Busy(lists, x) && x != s
  {
    var r := MergedLists(lists, t, s);
    forall x | Busy(r, x) && x != t ensures Busy(lists, x) && x != s {
      var k :| Data(r, x, k) != [];
      assert x != s && Data(r, x, k) == Data(lists, x, k);
    }
  }

  lemma PhantomizeLinkOnward(st: State, s: Slot, c: Cid)
    requires Struct(st) && Joined(st, s.src, c)
    ensures Onward(st, PhantomizeLink(st, s), c)
  {
    hide Dec, MergeObjs, Moved, LinksShape, Registered, Wired, Pointing, Listed, Counted, Busy, Root;
    if s !in st.g.links || st.g.links[s].phantomized {
      OnwardSame(st, st, c);
      return;
    }
    var l := st.g.links[s];
    var n := st.Num(l.target).AddPhantom(1);
    var s1 := PutCount(st, l.target, n);
    var s2 := Dec(s1, l.target, l.which);
    LinkEnds(st, s);
    PutCountStruct(st, l.target, n);
    DecEffect(s1, l.target, l.which);
    DecSpread(s1, l.target, l.which);
    JoinedSame(st, s1, s.src);
    JoinedAll(s1, s2, 0, 0, s.src);
    MergeSpread(s2, s.src, l.target, c);
    SameRoot(s1, s2, c);
    hide GroupOf, Joined;
  }

  lemma SameRoot(a: State, b: State, c: Cid)
    requires Moved(a, b, 0, 0) && c in a.cs.forward
    ensures c in b.cs.forward && Root(b.cs.forward, c) == Root(a.cs.forward, c)
  {
    hide Root, GroupOf;
  }

  lemma {:induction false} PhantomizeLinksOnward(st: State, o: Oid, ks: seq<Field>, m: Mode, c: Cid)
    requires Sane(st, m) && Balanced(st, multiset{}, m.hand) && Joined(st, o, c)
    requires m.lp == multiset{} && m.busy == Some(o) && m.lax.None? && GroupOf(st, o).Some?
    requires forall lid :: lid in m.active ==> lid.kind == Recovery
    requires forall k :: k in ks ==> Slot(o, k) in st.g.links
    ensures Onward(st, PhantomizeLinks(st, o, ks), c)
    decreases |ks|
  {
    hide Balanced, GroupOf, PhantomizeLink, Joined, Struct, Homed, Local, Positive, Anchored, Scheduled, Uniform, Acyclic, HeldOrCleaned, Onward, Settled;
    if ks == [] {
      JoinedIn(st, o, c);
      OnwardSame(st, st, c);
    } else {
      var s := Slot(o, ks[0]);
      assert s in st.g.links;
      PhantomizeLinkKeeps(st, s, m);
      PhantomizeLinkOnward(st, s, c);
      var s1 := PhantomizeLink(st, s);
      PhantomizeLinksOnward(s1, o, ks[1..], m, c);
      OnwardTrans(st, s1, PhantomizeLinks(st, o, ks), c);
    }
  }

  lemma JoinedIn(st: State, o: Oid, c: Cid)
    requires Joined(st, o, c)
    ensures c in st.cs.forward
  {
  }

  lemma PhantomizeNodeOnward(st: State, c: Cid, o: Oid)
    requires Sane(st, CollectMode(c, Some(o), None))
    requires Balanced(st, multiset{Ref(o, Bit(st.Which(o)))}, Some(o))
    requires o in st.g.objs && Joined(st, o, c)
    ensures Onward(st, PhantomizeNode(st, o), c)
  {
    hide Sane, Joined, GroupOf, Balanced, PhantomizeLinks, PhantomizeHead, UpdateColl, Onward;
    NodeHeadKeeps(st, c, o);
    var s1 := NodeHead(st, o);
    PhantomizeNodeHead(st, o);
    NodeHeadOnward(st, o, c);
    if s1.g.Ph(o) && !st.g.Ph(o) {
      var m := CollectMode(c, Some(o), Some(o));
      JoinedGroup(s1, o, c);
      KeysInLinks(s1, m);
      PhantomizeLinksOnward(s1, o, st.g.Keys(o), m, c);
      OnwardTrans(st, s1, PhantomizeNode(st, o), c);
    }
  }

  lemma NodeHeadOnward(st: State, o: Oid, c: Cid)
    requires Joined(st, o, c)
    ensures Onward(st, NodeHead(st, o), c)
  {
    JoinedIn(st, o, c);
    hide Onward, SetColl, UpdateColl, Joined;
    OnwardSame(st, NodeHead(st, o), c);
  }

  /** One round of the collect loop. The collector is only forwarded if some link becomes a phantom. */
  lemma CollectStepOnward(st: State, c: Cid)
    requires CollectInv(st, c) && Data(st.cs.lists, c, Collect) != []
    ensures var r := CollectStep(st, c);
      Onward(st, r, c) && (IsRoot(r.cs.forward, c) || PlainLinks(r.g) < PlainLinks(st.g))
  {
    hide Sane, Balanced, PhantomizeNode, Poll, ListAdd, Joined, ListEnd, PlainLinks, Onward;
    var o := Head(st, c, Collect);
    var s1 := Poll(st, Lid(c, Collect));
    PollKeeps(st, Lid(c, Collect), CollectMode(c, None, None));
    PollCollectBalanced(st, c);
    PollJoined(st, Lid(c, Collect), o);
    PollOnward(st, Lid(c, Collect), c);
    PhantomizeNodeKeeps(s1, c, o);
    PhantomizeNodeOnward(s1, c, o);
    var s2 := PhantomizeNode(s1, o);
    var r := ListAdd(s2, Lid(c, Recovery), o);
    JoinedIn(s2, o, c);
    SaneForest(s2, CollectMode(c, Some(o), None));
    ListAddOnward(s2, Recovery, o, c);
    AppendGraph(s2, Lid(c, Recovery), o, c);
    OnwardTrans(st, s1, s2, c);
    OnwardTrans(st, s2, r, c);
    PlainSame(s2.g, r.g);
    if s2.cs.lists == s1.cs.lists {
      NotForwarded(s1, s2, c, CollectMode(c, Some(o), None));
    }
  }

  lemma SaneForest(st: State, m: Mode)
    requires Sane(st, m)
    ensures Struct(st) && Forest(st.cs.forward)
  {
    hide LinksShape, Wired, Pointing, Listed, Counted, Homed, Local, Positive, Anchored, Scheduled, Uniform, Acyclic, HeldOrCleaned, Settled;
  }

  /** A collector whose lists are not forwarded is not forwarded. */
  lemma NotForwarded(a: State, b: State, c: Cid, m: Mode)
    requires Sane(a, m) && Sane(b, m) && b.cs.lists == a.cs.lists && IsRoot(a.cs.forward, c) && c in b.cs.forward
    ensures IsRoot(b.cs.forward, c)
  {
    hide LinksShape, Pointing, Listed, Counted, Homed, Local, Positive, Anchored, Scheduled, Uniform, Acyclic, HeldOrCleaned, Settled;
    HasList(a.cs, c, Collect);
  }

  lemma {:induction false} CollectLoopOnward(st: State, c: Cid)
    requires CollectInv(st, c)
    ensures var r := CollectLoop(st, c);
      Onward(st, r, c) && PlainLinks(r.g) <= PlainLinks(st.g) &&
      (IsRoot(st.cs.forward, c) ==> IsRoot(r.cs.forward, c) || PlainLinks(r.g) < PlainLinks(st.g))
    decreases PlainLinks(st.g), |Data(st.cs.lists, c, Collect)|
  {
    hide Sane, Balanced, CollectStep, PlainLinks, Onward;
    if Data(st.cs.lists, c, Collect) == [] {
      OnwardSame(st, st, c);
    } else {
      CollectStepKeeps(st, c);
      CollectStepOnward(st, c);
      var s1 := CollectStep(st, c);
      CollectLoopOnward(s1, c);
      OnwardTrans(st, s1, CollectLoop(st, c), c);
    }
  }

  // ---- The other loops ----

  lemma {:induction false} MergedLoopOnward(st: State, c: Cid)
    requires MergedInv(st, c)
    ensures Onward(st, MergedLoop(st, c), c) && MergedLoop(st, c).cs.forward == st.cs.forward
    decreases |Data(st.cs.lists, c, Merged)|
  {
    hide Sane, Balanced, Onward;
    if Data(st.cs.lists, c, Merged) == [] {
      OnwardSame(st, st, c);
    } else {
      MergedStepKeeps(st, c);
      MergedStepOnward(st, c);
      var s1 := MergedStep(st, c);
      hide MergedStep;
      MergedLoopOnward(s1, c);
      OnwardTrans(st, s1, MergedLoop(st, c), c);
    }
  }

  lemma MergedStepOnward(st: State, c: Cid)
    requires MergedInv(st, c) && Data(st.cs.lists, c, Merged) != []
    ensures Onward(st, MergedStep(st, c), c) && MergedStep(st, c).cs.forward == st.cs.forward
  {
    hide Sane, Balanced, Poll, ListAdd, Onward;
    var o := Head(st, c, Merged);
    var s1 := Poll(st, Lid(c, Merged));
    SaneForest(st, CollectMode(c, None, None));
    PollOnward(st, Lid(c, Merged), c);
    PollForward(st, Lid(c, Merged));
    ListAddOnward(s1, Recovery, o, c);
    AppendGraph(s1, Lid(c, Recovery), o, c);
    OnwardTrans(st, s1, MergedStep(st, c), c);
  }

  lemma PollForward(st: State, lid: Lid)
    requires ListAt(st.cs.lists, lid).data != []
    ensures Poll(st, lid).cs.forward == st.cs.forward && Poll(st, lid).tasks == st.tasks
  {
  }

  lemma {:induction false} LinkDecsTasks(st: State, ls: seq<Link>)
    ensures NoneLost(st.tasks, LinkDecs(st, ls).tasks)
    decreases |ls|
  {
    if ls != [] {
      LinkDecTasks(st, ls[0]);
      LinkDecsTasks(LinkDec(st, ls[0]), ls[1..]);
    }
    hide LinkDec;
  }

  lemma LinkDecTasks(st: State, l: Link)
    ensures NoneLost(st.tasks, LinkDec(st, l).tasks)
  {
    hide SetColl;
  }

  lemma CleanNodeTasks(st: State, o: Oid)
    ensures NoneLost(st.tasks, CleanNode(st, o).tasks)
  {
    if st.Num(o).Unused() {
      LinkDecsTasks(Detach(st, o), Picked(st.g.links, o, st.g.Keys(o)));
    }
    hide SetColl, LinkDecs, Picked;
  }

  lemma {:induction false} CleanLoopTasks(st: State, c: Cid)
    requires CleanInv(st, c)
    ensures NoneLost(st.tasks, CleanLoop(st, c).tasks)
    decreases |Data(st.cs.lists, c, Clean)|
  {
    hide Sane, Balanced, CleanNode, Dead, Poll;
    if Data(st.cs.lists, c, Clean) != [] {
      CleanStepKeeps(st, c);
      PollForward(st, Lid(c, Clean));
      CleanNodeTasks(Poll(st, Lid(c, Clean)), Head(st, c, Clean));
      CleanLoopTasks(CleanStep(st, c), c);
    }
  }

  // ---- A whole run ----

  /** A run of a collector that has not been forwarded: either it stays so, or some link
      has become a phantom for good. */
  lemma CollectionOnward(st: State, c: Cid)
    requires Inv(st) && IsRoot(st.cs.forward, c)
    ensures var r := Collection(st, c);
      Onward(st, r, c) && (IsRoot(r.cs.forward, c) || PlainLinks(r.g) < PlainLinks(st.g))
  {
    hide Sane, Balanced, PlainLinks, Onward, CollectLoop, MergedLoop, RecoverLoop, RebuildLoop, CleanLoop, Awaited, Dead, OnlyOwn;
    RunStart(st, c);
    var s0 := MergedLoop(st, c);
    MergedLoopOnward(st, c);
    var s1 := CollectLoop(s0, c);
    CollectLoopOnward(s0, c);
    OnwardTrans(st, s0, s1, c);
    PlainSame(st.g, s0.g);
    RecoveryStart(s1, c);
    if IsRoot(s1.cs.forward, c) {
      RestOnward(s1, c);
      OnwardTrans(st, s1, Collection(st, c), c);
    } else {
      NothingLeft(s1, c);
    }
  }

  /** The last three loops, on a collector that is not forwarded. */
  lemma RestOnward(st: State, c: Cid)
    requires RecoveryInv(st, c) && IsRoot(st.cs.forward, c)
    ensures RebuildingInv(RecoverLoop(st, c), c) && CleanInv(RebuildLoop(RecoverLoop(st, c), c), c)
    ensures var r := CleanLoop(RebuildLoop(RecoverLoop(st, c), c), c);
      Onward(st, r, c) && IsRoot(r.cs.forward, c)
  {
    hide Sane, Balanced, RecoverLoop, RebuildLoop, CleanLoop, Awaited, Dead, OnlyOwn;
    var s2 := RecoverLoop(st, c);
    var s3 := RebuildLoop(s2, c);
    CleanStart(s3, c);
    var r := CleanLoop(s3, c);
    CleanLoopTasks(s3, c);
    OnlyOwnTrans(st.cs, s2.cs, s3.cs, c);
    OnlyOwnTrans(st.cs, s3.cs, r.cs, c);
    SaneForest(st, RecoverMode(c, None, None));
    OnwardOwn(st, r, c);
    OwnForward(st.cs, r.cs, c);
  }

  lemma OwnForward(a: Collecting, b: Collecting, c: Cid)
    requires OnlyOwn(a, b, c)
    ensures b.forward == a.forward
  {
  }

  /** A collector that has been forwarded half-way has no work for the last three loops. */
  lemma NothingLeft(st: State, c: Cid)
    requires RecoveryInv(st, c) && !IsRoot(st.cs.forward, c)
    ensures RebuildingInv(RecoverLoop(st, c), c) && CleanInv(RebuildLoop(RecoverLoop(st, c), c), c)
    ensures CleanLoop(RebuildLoop(RecoverLoop(st, c), c), c) == st
  {
    ForwardedEmpty(st, c, RecoverMode(c, None, None));
    hide Sane, Balanced, Awaited, Dead;
    assert RecoverLoop(st, c) == st;
    assert RebuildLoop(st, c) == st;
    CleanStart(st, c);
  }

  lemma ForwardedEmpty(st: State, c: Cid, m: Mode)
    requires Sane(st, m) && c in st.cs.forward && st.cs.forward[c].Some?
    ensures forall k :: Data(st.cs.lists, c, k) == []
  {
    hide LinksShape, Pointing, Listed, Counted, Homed, Local, Positive, Anchored, Scheduled, Uniform, Acyclic, HeldOrCleaned, Settled;
    forall k ensures Data(st.cs.lists, c, k) == [] {
      HasList(st.cs, c, k);
    }
  }

  // ---- The measure ----

  ghost function Lasting(st: State): set<Oid>
  {
    set o | o in st.g.objs && !Doomed(st.tasks, o)
  }

  ghost function BusySet(cs: Collecting): set<Cid>
  {
    set x | x in cs.forward && Busy(cs.lists, x)
  }

  /** How many delete tasks there still can be. */
  ghost function ToDelete(st: State): nat
  {
    |st.g.objs| + |Lasting(st)|
  }

  /** Fewer deletions to come; or as many, but fewer busy collectors, or fewer plain
      links, or fewer collectors. */
  ghost predicate Closer(b: State, a: State)
  {
    || ToDelete(b) < ToDelete(a)
    || (ToDelete(b) == ToDelete(a) &&
        (|BusySet(b.cs)| < |BusySet(a.cs)| ||
         (|BusySet(b.cs)| == |BusySet(a.cs)| &&
          (PlainLinks(b.g) < PlainLinks(a.g) || (PlainLinks(b.g) == PlainLinks(a.g) && |b.cs.forward| < |a.cs.forward|)))))
  }

  lemma SubsetSize<T>(a: set<T>, b: set<T>)
    requires a <= b
    ensures |a| <= |b| && (a != b ==> |a| < |b|)
  {
    assert b == a + (b - a);
  }

  lemma ToDeleteLess(a: State, b: State)
    requires b.g.objs == a.g.objs && NoneLost(a.tasks, b.tasks)
    ensures ToDelete(b) <= ToDelete(a)
  {
    SubsetSize(Lasting(b), Lasting(a));
  }

  lemma BusyIn(cs: Collecting, x: Cid)
    requires Registered(cs) && Busy(cs.lists, x)
    ensures x in cs.forward
  {
    var k :| Data(cs.lists, x, k) != [];
    assert Lid(x, k) in cs.lists;
  }

  lemma BusyStores(st: State, c: Cid)
    requires Struct(st) && c in st.cs.forward
    ensures Busy(st.cs.lists, c) <==> CounterAt(st.cs.counter, c).stores != 0
    ensures CounterAt(st.cs.counter, c).stores >= 0 && CounterAt(st.cs.counter, c).refs >= 0
  {
    hide LinksShape, Registered, Wired, Pointing, Listed;
    assert RefBalance(st.collector, st.cs, c) == 0 && StoreBalance(st.cs, c) == 0;
    EmptyStore(st.cs.lists, c);
  }

  /** The busy collectors after the run of a busy one. */
  lemma FewerBusy(a: State, b: State, c: Cid)
    requires Onward(a, b, c) && Registered(a.cs) && IsRoot(a.cs.forward, c) && Busy(a.cs.lists, c)
    requires forall k :: Data(b.cs.lists, c, k) == []
    ensures |BusySet(b.cs)| <= |BusySet(a.cs)|
    ensures IsRoot(b.cs.forward, c) && Forest(b.cs.forward) ==> |BusySet(b.cs)| < |BusySet(a.cs)|
  {
    RootRoot(a.cs.forward, c);
    assert Root(a.cs.forward, c) == c;
    var x := Root(b.cs.forward, c);
    var rest := BusySet(a.cs) - {c};
    forall y | y in BusySet(b.cs) && y != x ensures y in rest {
      BusyIn(a.cs, y);
    }
    assert c in BusySet(a.cs);
    assert !Busy(b.cs.lists, c);
    SubsetSize(BusySet(b.cs), rest + {x});
    assert |rest + {x}| <= |rest| + 1 && |rest| == |BusySet(a.cs)| - 1;
    if IsRoot(b.cs.forward, c) && Forest(b.cs.forward) {
      RootRoot(b.cs.forward, c);
      assert x == c;
      SubsetSize(BusySet(b.cs), rest);
    }
  }

  // ---- One task ----

  /** Destroying a finished collector. */
  lemma TerminateCloser(st: State, c: Cid)
    requires c in st.cs.forward
    ensures var r := Terminate(st, c);
      ToDelete(r) == ToDelete(st) && |BusySet(r.cs)| <= |BusySet(st.cs)| && PlainLinks(r.g) == PlainLinks(st.g) &&
      |r.cs.forward| < |st.cs.forward|
  {
    hide PlainLinks;
    var r := Terminate(st, c);
    assert Lasting(r) == Lasting(st);
    forall x | x in BusySet(r.cs) ensures x in BusySet(st.cs) {
      var k :| Data(r.cs.lists, x, k) != [];
      assert Data(st.cs.lists, x, k) != [];
    }
    SubsetSize(BusySet(r.cs), BusySet(st.cs));
    assert r.cs.forward.Keys == st.cs.forward.Keys - {c};
    SubsetSize(r.cs.forward.Keys, st.cs.forward.Keys);
  }

  lemma CloserTerminate(a: State, b: State, c: Cid)
    requires Closer(b, a) && c in b.cs.forward
    ensures Closer(Terminate(b, c), a)
  {
    hide PlainLinks, Terminate, ToDelete, BusySet;
    TerminateCloser(b, c);
  }

  /** The run of a collector with work. */
  lemma BusyRunCloser(st: State, c: Cid)
    requires Inv(st) && c in st.cs.forward && Busy(st.cs.lists, c)
    ensures Closer(CollectorRun(st, c), st)
  {
    hide Sane, Balanced, Onward, Collection, ToDelete, BusySet, PlainLinks, Closer, Terminate, Finished, Registered, Busy, Waiting;
    SaneForest(st, AtRest);
    NotWaiting(st, c);
    BusyRoot(st, c);
    CollectionOnward(st, c);
    var r := Collection(st, c);
    SaneForest(r, AtRest);
    OnwardTasks(st, r, c);
    ToDeleteLess(st, r);
    StructRegistered(st);
    FewerBusy(st, r, c);
    assert Closer(r, st) by {
      CloserIs(st, r);
    }
    if Finished(r.cs, c) {
      OnwardIn(st, r, c);
      CloserTerminate(st, r, c);
    }
  }

  lemma CloserIs(a: State, b: State)
    requires ToDelete(b) <= ToDelete(a) && |BusySet(b.cs)| <= |BusySet(a.cs)|
    requires |BusySet(b.cs)| < |BusySet(a.cs)| || PlainLinks(b.g) < PlainLinks(a.g)
    ensures Closer(b, a)
  {
    hide ToDelete, BusySet, PlainLinks;
  }

  lemma OnwardTasks(a: State, b: State, c: Cid)
    requires Onward(a, b, c)
    ensures NoneLost(a.tasks, b.tasks)
  {
  }

  lemma OnwardIn(a: State, b: State, c: Cid)
    requires Onward(a, b, c)
    ensures c in b.cs.forward
  {
  }

  lemma StructRegistered(st: State)
    requires Struct(st)
    ensures Registered(st.cs)
  {
  }

  lemma NotWaiting(st: State, c: Cid)
    requires Struct(st) && c in st.cs.forward && Busy(st.cs.lists, c)
    ensures !Waiting(st.cs, c)
  {
    hide Struct, Busy;
    BusyStores(st, c);
  }

  lemma BusyRoot(st: State, c: Cid)
    requires Sane(st, AtRest) && c in st.cs.forward && Busy(st.cs.lists, c)
    ensures IsRoot(st.cs.forward, c)
  {
    hide Sane;
    if st.cs.forward[c].Some? {
      ForwardedEmpty(st, c, AtRest);
    }
  }

  /** The run of a collector without work changes nothing, or it destroys the collector. */
  lemma IdleRunCloser(st: State, c: Cid)
    requires Inv(st) && c in st.cs.forward && !Busy(st.cs.lists, c)
    ensures CollectorRun(st, c) == if Finished(st.cs, c) then Terminate(st, c) else st
    ensures Finished(st.cs, c) ==> Closer(CollectorRun(st, c), st)
  {
    IdleCollection(st, c);
    hide Sane, Balanced, Collection, Terminate, PlainLinks, ToDelete, BusySet, Busy;
    SaneForest(st, AtRest);
    BusyStores(st, c);
    TerminateCloser(st, c);
  }

  lemma IdleCollection(st: State, c: Cid)
    requires Inv(st) && c in st.cs.forward && !Busy(st.cs.lists, c)
    ensures Collection(st, c) == st
  {
    assert forall k :: Data(st.cs.lists, c, k) == [];
    hide Sane, Balanced, Awaited, Dead;
    RunStart(st, c);
    assert MergedLoop(st, c) == st;
    assert CollectLoop(st, c) == st;
    RecoveryStart(st, c);
    assert RecoverLoop(st, c) == st;
    assert RebuildLoop(st, c) == st;
    CleanStart(st, c);
    assert CleanLoop(st, c) == st;
  }

  lemma DeleteCloser(st: State, o: Oid)
    requires Inv(st) && st.tasks[DeleteObject(o)] > 0
    ensures Closer(DeleteTask(st, o), st)
  {
    hide Sane, Balanced, LinkDecs, Picked;
    DoomedIn(st, o);
    var ls := Picked(st.g.links, o, st.g.Keys(o));
    LinkDecsTasks(Detach(st, o), ls);
    DeletedGraph(st, o);
    var r := DeleteTask(st, o);
    assert Lasting(r) <= Lasting(st) && o !in Lasting(st) && r.g.objs == st.g.objs - {o};
    SubsetSize(Lasting(r), Lasting(st));
  }

  lemma DeletedGraph(st: State, o: Oid)
    ensures DeleteTask(st, o).g.objs == st.g.objs - {o}
    ensures DeleteTask(st, o).tasks == RemoveLinks(st, o).tasks - multiset{DeleteObject(o)}
  {
    LinkDecsGraph(Detach(st, o), Picked(st.g.links, o, st.g.Keys(o)));
    hide LinkDecs, SetColl;
  }

  lemma {:induction false} LinkDecsGraph(st: State, ls: seq<Link>)
    ensures LinkDecs(st, ls).g == st.g
    decreases |ls|
  {
    hide LinkDec;
    if ls != [] {
      LinkDecsGraph(LinkDec(st, ls[0]), ls[1..]);
    }
  }

  // ---- Some task always helps ----

  /** With all lists empty and no delete task left, no object has a collector. */
  lemma NobodyCollected(st: State, o: Oid)
    requires Inv(st) && o in st.g.objs && (forall p :: !Doomed(st.tasks, p)) && forall x :: !Busy(st.cs.lists, x)
    ensures st.Coll(o).None?
  {
    hide Homed, Local, Positive, Scheduled, Uniform, Acyclic, HeldOrCleaned, LinksShape, Registered, Wired, Pointing, Listed, Counted, Settled, Group;
    if st.Coll(o).Some? {
      PhantomIn(st, o);
      var s := SumWitness(st.g.links, LinkInto(o, Phantom));
      NoPhantoms(st, s);
    }
  }

  /** An object with a collector has a phantom link into it. */
  lemma PhantomIn(st: State, o: Oid)
    requires Balanced(st, multiset{}, None) && o in st.g.objs && st.Coll(o).Some? && (forall x :: !Busy(st.cs.lists, x))
    requires Domains(st) && Anchored(st.count, st.collector, st.tasks, multiset{}) && !Doomed(st.tasks, o)
    ensures InLinks(st.g.links, o, Phantom) > 0
  {
    hide InLinks, Entries;
    assert st.count[o].n2 > 0 && Balance(st, o, Phantom) == 0;
    forall lid | lid in st.cs.lists && lid.kind != Rebuild ensures o !in st.cs.lists[lid].data {
      assert !Busy(st.cs.lists, lid.coll);
      assert Data(st.cs.lists, lid.coll, lid.kind) == st.cs.lists[lid].data;
    }
    NoEntriesSum(st.cs.lists, o);
  }

  lemma NoPhantoms(st: State, s: Slot)
    requires Sane(st, AtRest) && s in st.g.links && (forall p :: !Doomed(st.tasks, p)) && forall x :: !Busy(st.cs.lists, x)
    ensures !st.g.links[s].phantomized
  {
    hide Homed, Local, Positive, Anchored, Scheduled, Acyclic, Registered, Wired, Pointing, Listed, Counted, Settled, Group;
    forall c, k ensures Data(st.cs.lists, c, k) == [] {
      assert !Busy(st.cs.lists, c);
    }
    assert !Held(st.collector, st.cs, None, s.src);
  }

  /** Among collectors without work, one that nobody forwards to is finished. */
  lemma LeafFinished(st: State, c: Cid) returns (leaf: Cid)
    requires Inv(st) && c in st.cs.forward && (forall p :: !Doomed(st.tasks, p)) && forall x :: !Busy(st.cs.lists, x)
    ensures leaf in st.cs.forward && Finished(st.cs, leaf)
  {
    hide Sane, Balanced, Finished, Forest;
    SaneForest(st, AtRest);
    leaf := ForestHasLeaf(st.cs.forward, c);
    forall o | o in st.collector ensures st.collector[o] != Some(leaf) {
      CollectorsOf(st);
      NobodyCollected(st, o);
    }
    assert !Busy(st.cs.lists, leaf);
    FinishedMeans(st, leaf);
  }

  lemma CollectorsOf(st: State)
    requires Struct(st)
    ensures st.collector.Keys == st.g.objs
  {
  }

  /** The heap after one task step. */
  ghost function Worked(st: State, t: Task): (r: State)
    requires Inv(st) && st.tasks[t] > 0
    ensures Inv(r)
  {
    hide Inv;
    Step(st, Work(t))
  }

  /** Whenever tasks are outstanding, one of them brings the heap closer to rest. */
  lemma SomeTaskHelps(st: State) returns (t: Task)
    requires Inv(st) && st.tasks != multiset{}
    ensures st.tasks[t] > 0 && Closer(Worked(st, t), st)
  {
    hide Sane, Balanced, Closer, CollectorRun, DeleteTask, Terminate, Finished, Busy;
    var u :| u in st.tasks;
    assert u.DeleteObject? ==> Doomed(st.tasks, u.o);
    if o :| Doomed(st.tasks, o) {
      t := DeleteObject(o);
      DeleteCloser(st, o);
    } else {
      TaskCollector(st, u.c);
      if x :| Busy(st.cs.lists, x) {
        SaneForest(st, AtRest);
        StructRegistered(st);
        BusyIn(st.cs, x);
        t := RunCollector(x);
        CollectorTask(st, x);
        BusyRunCloser(st, x);
      } else {
        var leaf := LeafFinished(st, u.c);
        t := RunCollector(leaf);
        CollectorTask(st, leaf);
        IdleRunCloser(st, leaf);
      }
    }
  }

  lemma CollectorTask(st: State, c: Cid)
    requires Inv(st) && c in st.cs.forward
    ensures st.tasks[RunCollector(c)] > 0
  {
    hide Struct, Homed, Local, Positive, Anchored, Uniform, Acyclic, HeldOrCleaned, Balanced, Settled;
  }

  /** Every task step brings the heap closer to rest, or it is the run of a collector that
      still waits and changes nothing. */
  lemma EveryTaskHelps(st: State, t: Task)
    requires Inv(st) && st.tasks[t] > 0
    ensures var r := Worked(st, t); Closer(r, st) || (r == st && t.RunCollector? && Waiting(st.cs, t.c))
  {
    hide Sane, Balanced, Closer, CollectorRun, DeleteTask, Terminate, Finished, Busy, Waiting;
    match t {
      case DeleteObject(o) =>
        DeleteCloser(st, o);
      case RunCollector(c) =>
        TaskCollector(st, c);
        if Busy(st.cs.lists, c) {
          BusyRunCloser(st, c);
        } else {
          IdleRunCloser(st, c);
          WaitsOrEnds(st, c);
        }
    }
  }

  lemma WaitsOrEnds(st: State, c: Cid)
    requires Inv(st) && c in st.cs.forward && !Busy(st.cs.lists, c)
    ensures Finished(st.cs, c) || Waiting(st.cs, c)
  {
    hide Balanced, Struct, Homed, Local, Positive, Anchored, Scheduled, Uniform, Acyclic, HeldOrCleaned, Settled, Busy;
    BusyStores(st, c);
  }

  // ---- The end ----

  function Works(ts: seq<Task>): (es: seq<Event>)
    ensures |es| == |ts| && forall i :: 0 <= i < |ts| ==> es[i] == Work(ts[i])
  {
    if ts == [] then [] else [Work(ts[0])] + Works(ts[1..])
  }

  /** From any point of any run, the tasks alone can bring the heap to rest. */
  lemma {:induction false} Drained(es: seq<Event>) returns (ts: seq<Task>)
    requires Run(es)
    ensures Run(es + Works(ts)) && After(es + Works(ts)).tasks == multiset{}
    ensures forall o :: Reachable(After(es + Works(ts)).g, o) <==> Reachable(After(es).g, o)
    decreases ToDelete(After(es)), |BusySet(After(es).cs)|, PlainLinks(After(es).g), |After(es).cs.forward|
  {
    hide Inv, Reachable, Step, Spared, ToDelete, BusySet, PlainLinks, Run, After;
    var st := After(es);
    if st.tasks == multiset{} {
      ts := [];
      assert es + Works(ts) == es;
    } else {
      var t := SomeTaskHelps(st);
      TaskSafety(es, t);
      RunStep(es, Work(t));
      var rest := Drained(es + [Work(t)]);
      ts := [t] + rest;
      assert es + [Work(t)] + Works(rest) == es + Works(ts);
    }
  }

  /** All garbage is collected, and nothing else: when the client stops, the tasks can
      delete exactly the objects that it cannot reach. */
  lemma GarbageCollected(es: seq<Event>) returns (ts: seq<Task>)
    requires Run(es)
    ensures Run(es + Works(ts)) && After(es + Works(ts)).tasks == multiset{}
    ensures forall o :: o in After(es + Works(ts)).g.objs <==> Reachable(After(es).g, o)
  {
    hide Inv, Reachable, Run, After;
    ts := Drained(es);
    Exactness(es + Works(ts));
  }

  // ---- Every fair schedule ----

  /** The heap after `n` turns of a schedule, in which a task that is not outstanding is skipped. */
  ghost function Turns(st: State, f: nat -> Task, n: nat): (r: State)
    requires Inv(st)
    ensures Inv(r)
  {
    if n == 0 then st
    else
      var p := Turns(st, f, n - 1);
      if p.tasks[f(n - 1)] > 0 then Worked(p, f(n - 1)) else p
  }

  /** A task that is outstanding gets its turn. */
  ghost predicate Fair(st: State, f: nat -> Task)
    requires Inv(st)
  {
    forall n: nat, t :: Turns(st, f, n).tasks[t] > 0 ==> exists m: nat :: n <= m && f(m) == t
  }

  lemma TurnHelps(st: State, f: nat -> Task, n: nat)
    requires Inv(st)
    ensures Turns(st, f, n + 1) == Turns(st, f, n) || Closer(Turns(st, f, n + 1), Turns(st, f, n))
  {
    hide Inv, Closer, Worked, Waiting;
    var p := Turns(st, f, n);
    if p.tasks[f(n)] > 0 {
      EveryTaskHelps(p, f(n));
    }
  }

  /** Up to the turn `m` of a task that helps, the heap has come closer to rest. */
  lemma {:induction false} HelpedBy(st: State, f: nat -> Task, n: nat, m: nat) returns (k: nat)
    requires Inv(st) && n <= m
    requires var p := Turns(st, f, n); p.tasks[f(m)] > 0 && Closer(Worked(p, f(m)), p)
    ensures Closer(Turns(st, f, k), Turns(st, f, n))
    decreases m - n
  {
    hide Inv, Closer, Worked;
    TurnHelps(st, f, n);
    k := n + 1;
    if n < m && Turns(st, f, n + 1) == Turns(st, f, n) {
      k := HelpedBy(st, f, n + 1, m);
    }
  }

  /** The client loses nothing, whatever the schedule. */
  lemma {:induction false} TurnsSpared(st: State, f: nat -> Task, n: nat)
    requires Inv(st)
    ensures forall o :: Reachable(Turns(st, f, n).g, o) <==> Reachable(st.g, o)
  {
    hide Inv, Reachable, Spared, Enabled, Step;
    if n > 0 {
      TurnsSpared(st, f, n - 1);
      var p := Turns(st, f, n - 1);
      if p.tasks[f(n - 1)] > 0 {
        WorkedSpared(p, f(n - 1));
      }
    }
  }

  lemma WorkedSpared(st: State, t: Task)
    requires Inv(st) && st.tasks[t] > 0
    ensures forall o :: Reachable(Worked(st, t).g, o) <==> Reachable(st.g, o)
  {
    hide Inv, Reachable, Spared;
    SparedReach(st.g, Worked(st, t).g);
  }

  /** No task is starved in a fair schedule, so it brings the heap to rest. */
  lemma {:induction false} FairDrains(st: State, f: nat -> Task, n: nat) returns (k: nat)
    requires Inv(st) && Fair(st, f)
    ensures Turns(st, f, k).tasks == multiset{}
    decreases ToDelete(Turns(st, f, n)), |BusySet(Turns(st, f, n).cs)|, PlainLinks(Turns(st, f, n).g), |Turns(st, f, n).cs.forward|
  {
    hide Inv, Worked, ToDelete, BusySet, PlainLinks, Turns;
    if Turns(st, f, n).tasks == multiset{} {
      k := n;
    } else {
      var t := SomeTaskHelps(Turns(st, f, n));
      var m: nat :| n <= m && f(m) == t;
      var j := HelpedBy(st, f, n, m);
      k := FairDrains(st, f, j);
    }
  }

  /** When the client stops, any fair schedule of the tasks deletes exactly the objects
      that it cannot reach, and then no task is left. */
  lemma FairCollection(es: seq<Event>, f: nat -> Task) returns (k: nat)
    requires Run(es) && Fair(After(es), f)
    ensures Turns(After(es), f, k).tasks == multiset{}
    ensures forall o :: o in Turns(After(es), f, k).g.objs <==> Reachable(After(es).g, o)
  {
    hide Inv, Reachable, Turns, Fair, Run, After;
    k := FairDrains(After(es), f, 0);
    TurnsSpared(After(es), f, k);
    QuietExact(Turns(After(es), f, k));
  }
}

/** The counting operations keep the invariant. */
module Keeping {
  import opened Wrappers
  import opened Forwarding
  import opened Model
  import opened Invariant
  import opened Conservation

  // ---- Structure ----

  lemma SetCollStruct(st: State, o: Oid, c: Option<Cid>)
    requires Struct(st) && o in st.g.objs && (c.Some? ==> c.value in st.cs.forward)
    ensures Struct(SetColl(st, o, c))
  {
    hide LinksShape, Listed, Registered, RefBalance, StoreBalance;
    var r := SetColl(st, o, c);
    forall x | x in r.cs.forward ensures RefBalance(r.collector, r.cs, x) == 0 && StoreBalance(r.cs, x) == 0 {
      SetCollCounted(st, o, c, x);
    }
    assert Registered(r.cs) by { RegisteredFrame(st.cs, r.cs); }
  }

  lemma RegisteredFrame(a: Collecting, b: Collecting)
    requires Registered(a) && b.forward == a.forward && b.lists.Keys == a.lists.Keys && b.next == a.next
    ensures Registered(b)
  {
    assert forall lid :: lid in b.lists <==> lid in b.lists.Keys;
    assert forall lid :: lid in a.lists <==> lid in a.lists.Keys;
  }

  lemma PutCountStruct(st: State, o: Oid, n: Count)
    requires Struct(st) && o in st.g.objs
    ensures Struct(PutCount(st, o, n))
  {
    hide LinksShape, Listed, Registered, Wired, Pointing, Counted;
  }

  lemma AppendStruct(st: State, lid: Lid, o: Oid)
    requires Struct(st) && o in st.g.objs && lid in st.cs.lists && lid.coll in st.cs.forward && st.cs.forward[lid.coll].None?
    ensures Struct(Append(st, lid, o))
  {
    hide LinksShape, Registered, Pointing, RefBalance, StoreBalance;
    var r := Append(st, lid, o);
    forall x | x in r.cs.forward ensures RefBalance(r.collector, r.cs, x) == 0 && StoreBalance(r.cs, x) == 0 {
      AppendCounted(st, lid, o, x);
    }
    assert r.cs.lists.Keys == st.cs.lists.Keys;
    assert Registered(r.cs) by { RegisteredFrame(st.cs, r.cs); }
  }

  lemma PollStruct(st: State, lid: Lid)
    requires Struct(st) && lid in st.cs.lists && lid.coll in st.cs.forward && st.cs.lists[lid].data != []
    ensures Struct(Poll(st, lid))
  {
    hide LinksShape, Registered, Pointing, RefBalance, StoreBalance;
    var r := Poll(st, lid);
    forall x | x in r.cs.forward ensures RefBalance(r.collector, r.cs, x) == 0 && StoreBalance(r.cs, x) == 0 {
      PollCounted(st, lid, x);
    }
    assert r.cs.lists.Keys == st.cs.lists.Keys;
    assert Registered(r.cs) by { RegisteredFrame(st.cs, r.cs); }
  }

  lemma NewListsAt(lists: Lists, c: Cid)
    ensures forall lid :: lid in NewLists(lists, c) <==> lid.coll == c || lid in lists
    ensures forall lid :: lid in NewLists(lists, c) ==>
      NewLists(lists, c)[lid] == if lid.coll == c then NoList else lists[lid]
  {
    forall lid: Lid
      ensures lid in NewLists(lists, c) <==> lid.coll == c || lid in lists
      ensures lid in NewLists(lists, c) ==>
        NewLists(lists, c)[lid] == if lid.coll == c then NoList else lists[lid]
    {
      match lid.kind
      case Collect =>
      case Merged =>
      case Recovery =>
      case Rebuild =>
      case Clean =>
    }
  }

  lemma NewCollStruct(st: State)
    requires Struct(st)
    ensures Struct(NewColl(st))
    ensures st.cs.next in NewColl(st).cs.forward && NewColl(st).cs.forward[st.cs.next].None?
  {
    NewCollWired(st);
    NewCollCounts(st);
    hide LinksShape, NewLists, Registered, Wired, Counted;
    NewListsAt(st.cs.lists, st.cs.next);
  }

  lemma NewCollWired(st: State)
    requires Registered(st.cs) && Wired(st.cs)
    ensures Registered(NewColl(st).cs) && Wired(NewColl(st).cs)
  {
    NewListsAt(st.cs.lists, st.cs.next);
    RepExtend(st.cs.forward, st.cs.next);
    hide NewLists;
  }

  lemma NewCollCounts(st: State)
    requires Struct(st)
    ensures Counted(NewColl(st).collector, NewColl(st).cs)
  {
    hide LinksShape, Listed, Wired, RefBalance, StoreBalance;
    var (h, b) := Ranking(st.cs.forward);
    var r := NewColl(st);
    forall x | x in r.cs.forward ensures RefBalance(r.collector, r.cs, x) == 0 && StoreBalance(r.cs, x) == 0 {
      NewCollCounted(st, x);
    }
  }

  lemma MergeCollsStruct(st: State, t: Cid, s: Cid)
    requires Struct(st) && s in st.cs.forward && t in st.cs.forward && s != t
    requires st.cs.forward[s].None? && st.cs.forward[t].None?
    ensures Struct(MergeColls(st, t, s))
  {
    MergeCollsWired(st, t, s);
    MergeCollsCounts(st, t, s);
    MergedListed(st.g.objs, st.cs.lists, t, s);
    hide LinksShape, Registered, Wired, Counted, Listed, MergedLists;
  }

  lemma MergeCollsWired(st: State, t: Cid, s: Cid)
    requires Registered(st.cs) && Wired(st.cs) && s in st.cs.forward && t in st.cs.forward && s != t
    requires st.cs.forward[s].None? && st.cs.forward[t].None?
    ensures Registered(MergeColls(st, t, s).cs) && Wired(MergeColls(st, t, s).cs)
  {
    RootsUnion(st.cs.forward, s, t);
    JoinForward(st.cs, t, s);
    RepUnion(st.cs.forward, s, t);
    MergedRegistered(st.cs, t, s);
    MergedWired(st.cs, t, s);
    hide Registered, Wired, Forest, Join;
  }

  lemma MergedRegistered(cs: Collecting, t: Cid, s: Cid)
    requires Registered(cs) && s in cs.forward && t in cs.forward && Forest(cs.forward[s := Some(t)])
    ensures Registered(Join(cs, t, s))
  {
    hide Forest, MergedData;
  }

  lemma MergedWired(cs: Collecting, t: Cid, s: Cid)
    requires Wired(cs) && s in cs.forward && t in cs.forward && s != t && cs.forward[s].None? && cs.forward[t].None?
    ensures Wired(Join(cs, t, s))
  {
    MergedDataEmpty(cs.lists, t, s);
    hide MergedData;
  }

  lemma MergeCollsCounts(st: State, t: Cid, s: Cid)
    requires Struct(st) && s in st.cs.forward && t in st.cs.forward && s != t
    requires st.cs.forward[s].None? && st.cs.forward[t].None?
    ensures Counted(MergeColls(st, t, s).collector, MergeColls(st, t, s).cs)
  {
    hide LinksShape, Listed, Wired, RefBalance, StoreBalance;
    var r := MergeColls(st, t, s);
    forall x | x in r.cs.forward ensures RefBalance(r.collector, r.cs, x) == 0 && StoreBalance(r.cs, x) == 0 {
      MergeCollsCounted(st, t, s, x);
    }
  }

  lemma MergedDataEmpty(lists: Lists, t: Cid, s: Cid)
    ensures forall lid :: lid in lists && lid.coll == s ==> MergedLists(lists, t, s)[lid].data == []
    ensures forall lid :: lid in lists && lid.coll != s && lid.coll != t ==> MergedLists(lists, t, s)[lid] == lists[lid]
  {
  }

  /** An entry of a merged list was an entry of that list or of one forwarded to it. */
  lemma MergedFrom(lists: Lists, t: Cid, s: Cid, lid: Lid, o: Oid)
    requires lid in lists && o in MergedLists(lists, t, s)[lid].data
    ensures lid.coll != s
    ensures o in lists[lid].data || (lid.coll == t && exists k :: ForwardKind(k) == lid.kind && o in Data(lists, s, k))
  {
    if o !in lists[lid].data {
      var k := if lid.kind != Merged then lid.kind
               else if o in Data(lists, s, Merged) then Merged
               else if o in Data(lists, s, Clean) then Clean else Recovery;
      assert ForwardKind(k) == lid.kind && o in Data(lists, s, k);
    }
  }

  lemma MergedListed(objs: set<Oid>, lists: Lists, t: Cid, s: Cid)
    requires Listed(objs, lists)
    ensures Listed(objs, MergedLists(lists, t, s))
  {
    forall lid, o | lid in MergedLists(lists, t, s) && o in MergedLists(lists, t, s)[lid].data ensures o in objs {
      MergedFrom(lists, t, s, lid, o);
    }
  }

  // ---- Groups ----

  ghost function GroupOf(st: State, o: Oid): Option<Cid>
  {
    Group(st.collector, st.cs.forward, o)
  }

  /** Group `s` has moved into group `t` (nothing has moved if they are the same);
      ungrouped objects may have joined some group. */
  ghost predicate Moved(a: State, b: State, s: Cid, t: Cid)
  {
    && (forall p :: GroupOf(a, p).Some? ==>
          GroupOf(b, p) == Some(if GroupOf(a, p).value == s then t else GroupOf(a, p).value))
    && RootsMoved(a.cs.forward, b.cs.forward, s, t)
  }

  ghost predicate RootsMoved(a: Forwards, b: Forwards, s: Cid, t: Cid)
  {
    forall c :: c in a ==> c in b && Root(b, c) == if Root(a, c) == s then t else Root(a, c)
  }

  /** `o` is in the group of collector `c`. */
  ghost predicate Joined(st: State, o: Oid, c: Cid)
  {
    c in st.cs.forward && GroupOf(st, o) == Some(Root(st.cs.forward, c))
  }

  lemma JoinedAll(a: State, b: State, s: Cid, t: Cid, o: Oid)
    requires Moved(a, b, s, t)
    ensures forall c :: Joined(a, o, c) ==> Joined(b, o, c)
  {
    hide GroupOf, Root;
  }

  lemma MovedAt(a: State, b: State, s: Cid, t: Cid, p: Oid)
    requires Moved(a, b, s, t) && GroupOf(a, p).Some?
    ensures GroupOf(b, p) == Some(if GroupOf(a, p).value == s then t else GroupOf(a, p).value)
  {
    hide GroupOf;
  }

  lemma LocalMoved(a: State, b: State, s: Cid, t: Cid)
    requires Moved(a, b, s, t) && b.g.links == a.g.links
    requires Local(a.g.links, a.collector, a.cs.forward)
    ensures Local(b.g.links, b.collector, b.cs.forward)
  {
    hide Group;
    forall x | x in b.g.links && b.g.links[x].phantomized
      ensures GroupOf(b, x.src).Some? && GroupOf(b, x.src) == GroupOf(b, b.g.links[x].target)
    {
      assert GroupOf(a, x.src).Some? && GroupOf(a, x.src) == GroupOf(a, b.g.links[x].target);
    }
  }

  /** Every entry of `a` is still in the same list. */
  ghost predicate Grown(a: Lists, b: Lists)
  {
    forall c, k, o :: o in Data(a, c, k) ==> o in Data(b, c, k)
  }

  lemma HeldGrown(a: State, b: State, m: Mode)
    requires Moved(a, b, 0, 0) && Grown(a.cs.lists, b.cs.lists) && b.g == a.g
    requires forall o :: Doomed(a.tasks, o) ==> Doomed(b.tasks, o)
    requires HeldOrCleaned(a.g, a.collector, a.cs, a.tasks, m)
    ensures HeldOrCleaned(b.g, b.collector, b.cs, b.tasks, m)
  {
    hide Group;
    forall o | o in b.g.objs && b.g.Ph(o) && !Doomed(b.tasks, o)
      ensures Held(b.collector, b.cs, m.hand, o) ||
        (m.lax.Some? && GroupOf(b, o) == m.lax && b.g.Keys(o) == [])
    {
      assert GroupOf(b, o) == GroupOf(a, o);
    }
  }

  lemma SetCollMoved(st: State, o: Oid, c: Option<Cid>)
    requires o in st.collector
    requires GroupOf(st, o).Some? ==> c.Some? && Root(st.cs.forward, c.value) == GroupOf(st, o).value
    ensures Moved(st, SetColl(st, o, c), 0, 0)
    ensures c.Some? ==> GroupOf(SetColl(st, o, c), o) == Some(Root(st.cs.forward, c.value))
  {
  }

  lemma NewCollMoved(st: State)
    requires Registered(st.cs) && Pointing(st.collector, st.cs.forward)
    ensures Moved(st, NewColl(st), 0, 0)
  {
    RepExtend(st.cs.forward, st.cs.next);
  }

  // ---- Queueing a suspect ----

  /** The only new entry of `b` is `o` in the collect list of group `c`. */
  ghost predicate OneMore(a: Lists, b: Lists, c: Cid, o: Oid)
  {
    && Grown(a, b)
    && o in Data(b, c, Collect)
    && forall d, k, p :: p in Data(b, d, k) && p !in Data(a, d, k) ==> p == o && d == c && k == Collect
  }

  /** What queueing `o` with its collector has done. */
  ghost predicate Queued(st: State, r: State, o: Oid)
    requires o in st.count
  {
    && Struct(r)
    && r.g == st.g
    && r.count == st.count[o := st.count[o].AddPlain(st.Which(o), 1).AddPhantom(1)]
    && r.collector == st.collector[o := r.Coll(o)]
    && Moved(st, r, 0, 0)
    && r.Coll(o).Some? && GroupOf(r, o).Some?
    && OneMore(st.cs.lists, r.cs.lists, GroupOf(r, o).value, o)
    && ( (r.tasks == st.tasks && r.cs.forward == st.cs.forward)
      || (r.tasks == st.tasks + multiset{RunCollector(st.cs.next)} && r.cs.forward == st.cs.forward[st.cs.next := None]))
  }

  lemma AppendOneMore(st: State, c: Cid, o: Oid)
    ensures OneMore(st.cs.lists, Append(st, Lid(c, Collect), o).cs.lists, c, o)
  {
  }

  lemma RootRoot(f: Forwards, c: Cid)
    requires Forest(f) && c in f
    ensures Root(f, c) in f && f[Root(f, c)].None? && Root(f, Root(f, c)) == Root(f, c)
  {
  }

  lemma HasList(cs: Collecting, c: Cid, k: Kind)
    requires Registered(cs) && c in cs.forward
    ensures Lid(c, k) in cs.lists
  {
  }

  lemma MovedFrame(a: State, b: State, c: State)
    requires b.collector == a.collector && b.cs.forward == a.cs.forward && Moved(b, c, 0, 0)
    ensures Moved(a, c, 0, 0)
  {
    hide Group, Root;
    assert forall p :: GroupOf(a, p) == GroupOf(b, p);
  }

  lemma MovedTrans(a: State, b: State, c: State)
    requires Moved(a, b, 0, 0) && Moved(b, c, 0, 0)
    ensures Moved(a, c, 0, 0)
  {
    hide GroupOf, Root;
  }

  /** collector_add_object on the object's own collector */
  lemma AddObjectQueued(st: State, c: Cid, o: Oid)
    requires Struct(st) && o in st.g.objs && st.collector[o] == Some(c)
    ensures Queued(st, AddObject(st, c, o), o)
  {
    var n := st.Num(o).AddPlain(st.Which(o), 1).AddPhantom(1);
    var s1 := PutCount(st, o, n);
    RootRoot(st.cs.forward, c);
    var a := Root(st.cs.forward, c);
    HasList(st.cs, a, Collect);
    PutCountStruct(st, o, n);
    var s2 := Append(s1, Lid(a, Collect), o);
    var r := SetColl(s2, o, Some(a));
    hide LinksShape, Registered, Wired, Pointing, Listed, Counted, Append, SetColl, OneMore, Root, Moved;
    AppendStruct(s1, Lid(a, Collect), o);
    AppendOneMore(s1, a, o);
    SetCollStruct(s2, o, Some(a));
    SetCollMoved(s2, o, Some(a));
    MovedFrame(st, s2, r);
    assert r.Coll(o) == Some(a);
  }

  lemma SuspectQueued(st: State, o: Oid)
    requires Struct(st) && o in st.g.objs
    ensures Queued(st, Suspect(st, o), o)
  {
    match st.collector[o] {
      case Some(c) =>
        AddObjectQueued(st, c, o);
        hide AddObject, Queued;
      case None =>
        FirstSuspectQueued(st, o);
        hide Queued, AddObject, SetColl;
    }
  }

  /** An object without a collector is queued with a new one. */
  lemma FirstSuspectQueued(st: State, o: Oid)
    requires Struct(st) && o in st.g.objs && st.collector[o].None?
    ensures Queued(st, AddObject(SetColl(NewColl(st), o, Some(st.cs.next)), st.cs.next, o), o)
  {
    hide LinksShape, Registered, Wired, Pointing, Listed, Counted, AddObject, SetColl, Moved, OneMore, Root, NewLists, GroupOf;
    var n := NewColl(st);
    var s1 := SetColl(n, o, Some(st.cs.next));
    NewCollStruct(st);
    NewCollMoved(st);
    SetCollStruct(n, o, Some(st.cs.next));
    NoGroup(n, o);
    SetCollMoved(n, o, Some(st.cs.next));
    AddObjectQueued(s1, st.cs.next, o);
    var r := AddObject(s1, st.cs.next, o);
    MovedTrans(st, n, s1);
    MovedTrans(st, s1, r);
    NewCollOneMore(st.cs.lists, st.cs, r.cs.lists, GroupOf(r, o).value, o);
  }

  lemma NoGroup(st: State, o: Oid)
    requires o in st.collector && st.collector[o].None?
    ensures GroupOf(st, o).None?
  {
  }

  lemma NewCollOneMore(lists: Lists, cs: Collecting, b: Lists, c: Cid, o: Oid)
    requires Registered(cs) && lists == cs.lists && OneMore(NewLists(lists, cs.next), b, c, o)
    ensures OneMore(lists, b, c, o)
  {
    NewListsAt(lists, cs.next);
    hide NewLists;
    forall d, k, p ensures p in Data(lists, d, k) <==> p in Data(NewLists(lists, cs.next), d, k) {
      assert cs.next !in cs.forward;
    }
  }

  lemma QueuedGroups(st: State, r: State, o: Oid, m: Mode)
    requires Struct(st) && o in st.g.objs && Queued(st, r, o)
    requires Homed(st.collector, st.cs.forward, st.cs.lists) && Local(st.g.links, st.collector, st.cs.forward)
    requires HeldOrCleaned(st.g, st.collector, st.cs, st.tasks, m)
    ensures Homed(r.collector, r.cs.forward, r.cs.lists) && Local(r.g.links, r.collector, r.cs.forward)
    ensures HeldOrCleaned(r.g, r.collector, r.cs, r.tasks, m)
  {
    hide Group, LinksShape, Registered, Wired, Pointing, Listed, Counted;
    LocalMoved(st, r, 0, 0);
    HeldGrown(st, r, m);
    forall lid, p | lid in r.cs.lists && lid.kind != Rebuild && p in r.cs.lists[lid].data
      ensures Group(r.collector, r.cs.forward, p) == Some(lid.coll)
    {
      assert lid == Lid(lid.coll, lid.kind);
      assert p in Data(r.cs.lists, lid.coll, lid.kind);
      if p in Data(st.cs.lists, lid.coll, lid.kind) {
        assert lid in st.cs.lists && p in st.cs.lists[lid].data;
        assert GroupOf(st, p) == Some(lid.coll);
      }
      assert GroupOf(r, p) == Some(lid.coll);
    }
  }

  lemma QueuedCounts(st: State, r: State, o: Oid, m: Mode)
    requires Struct(st) && o in st.g.objs && Queued(st, r, o)
    requires !Doomed(st.tasks, o) && st.count[o].Plain(st.Which(o)) >= 0 && st.count[o].n2 >= 0
    requires forall p :: p in st.count && p != o && !Doomed(st.tasks, p) ==> PositiveAt(st.Which(p), st.g.Ph(p), st.count[p])
    requires Anchored(st.count, st.collector, st.tasks, m.lp)
    requires Scheduled(st.g, st.count, st.cs.forward, st.tasks)
    ensures Positive(r.g, r.count, r.tasks) && Anchored(r.count, r.collector, r.tasks, m.lp)
    ensures Scheduled(r.g, r.count, r.cs.forward, r.tasks)
  {
    hide LinksShape, Registered, Wired, Pointing, Listed, Counted, Moved, OneMore, Group;
    assert forall p :: Doomed(r.tasks, p) == Doomed(st.tasks, p);
    assert st.cs.next !in st.cs.forward by {
      if st.cs.next in st.cs.forward {
        NextFresh(st.cs);
      }
    }
  }

  lemma NextFresh(cs: Collecting)
    requires Registered(cs)
    ensures cs.next !in cs.forward
  {
  }

  /** object_dec keeps the invariant when it gives up a reference that is there. */
  lemma DecKeeps(st: State, o: Oid, w: bool, m: Mode)
    requires Sane(st, m) && o in st.g.objs && st.count[o].Plain(w) >= 1 && st.count[o].n2 >= 0
    requires Held(st.collector, st.cs, m.hand, o) ==> st.count[o].n2 > 0
    ensures Sane(Dec(st, o, w), m)
  {
    var n := st.count[o].AddPlain(w, -1);
    var s1 := PutCount(st, o, n);
    hide LinksShape, Registered, Wired, Pointing, Listed, Counted, Homed, Local, Acyclic, Uniform, HeldOrCleaned, Held, Suspect, Scheduled;
    NotIdleNotDoomed(st, o);
    if n.Plain(w) != 0 || w != st.Which(o) {
      DecPlainKeeps(st, o, n, m);
    } else if n.Plain(!w) == 0 && n.n2 == 0 {
      DoomKeeps(st, o, n, m);
    } else {
      DecSuspectKeeps(st, o, n, m);
    }
  }

  lemma NotIdleNotDoomed(st: State, o: Oid)
    requires Scheduled(st.g, st.count, st.cs.forward, st.tasks) && o in st.count && !st.count[o].Idle()
    ensures !Doomed(st.tasks, o)
  {
  }

  lemma DecSuspectKeeps(st: State, o: Oid, n: Count, m: Mode)
    requires Sane(st, m) && o in st.g.objs && n.n2 == st.count[o].n2 && !st.count[o].Idle()
    requires n.Plain(st.Which(o)) == 0 && n.n2 >= 0
    ensures Sane(Suspect(PutCount(st, o, n), o), m)
  {
    var s1 := PutCount(st, o, n);
    var r := Suspect(s1, o);
    hide LinksShape, Registered, Wired, Pointing, Listed, Counted, Homed, Local, Acyclic, Uniform, HeldOrCleaned, Scheduled, Suspect, Moved, OneMore, GroupOf;
    NotIdleNotDoomed(st, o);
    assert Anchored(s1.count, s1.collector, s1.tasks, m.lp);
    assert forall p :: p in s1.count && p != o && !Doomed(s1.tasks, p) ==> PositiveAt(s1.Which(p), s1.g.Ph(p), s1.count[p]);
    ScheduledPut(st, o, n);
    hide Positive, Anchored;
    PutCountStruct(st, o, n);
    SuspectQueued(s1, o);
    QueuedGroups(s1, r, o, m);
    QueuedCounts(s1, r, o, m);
    QueuedSettled(s1, r, o, m.active);
  }

  lemma QueuedSettled(st: State, r: State, o: Oid, active: set<Lid>)
    requires o in st.count && Queued(st, r, o) && Settled(st.cs.lists, active)
    ensures Settled(r.cs.lists, active)
  {
    hide Struct, Moved, GroupOf;
    forall lid | lid in r.cs.lists && lid.kind != Collect && lid.kind != Merged && lid !in active
      ensures r.cs.lists[lid].data == []
    {
      forall p ensures p !in r.cs.lists[lid].data {
        assert lid == Lid(lid.coll, lid.kind);
        assert p in Data(r.cs.lists, lid.coll, lid.kind) ==> p in Data(st.cs.lists, lid.coll, lid.kind);
      }
      NoMembers(r.cs.lists[lid].data);
    }
  }

  lemma NoMembers(s: seq<Oid>)
    requires forall p :: p !in s
    ensures s == []
  {
    var p := if s == [] then 0 else s[0];
    assert s == [] || p in s;
  }

  lemma ScheduledPut(st: State, o: Oid, n: Count)
    requires Scheduled(st.g, st.count, st.cs.forward, st.tasks) && o in st.count && !st.count[o].Idle()
    ensures Scheduled(st.g, st.count[o := n], st.cs.forward, st.tasks)
  {
  }

  /** A count that stays positive where it has to. */
  lemma DecPlainKeeps(st: State, o: Oid, n: Count, m: Mode)
    requires Sane(st, m) && o in st.g.objs && n.n2 == st.count[o].n2 && !st.count[o].Idle()
    requires PositiveAt(st.Which(o), st.g.Ph(o), n)
    ensures Sane(PutCount(st, o, n), m)
  {
    hide LinksShape, Registered, Wired, Pointing, Listed, Counted, Homed, Local, Acyclic, Uniform, HeldOrCleaned, Scheduled, Settled;
    ScheduledPut(st, o, n);
    PutCountStruct(st, o, n);
  }

  lemma DoomKeeps(st: State, o: Oid, n: Count, m: Mode)
    requires Sane(st, m) && o in st.g.objs && n.Idle() && !st.count[o].Idle()
    requires st.g.Ph(o) ==> st.g.Keys(o) == []
    ensures Sane(Doom(PutCount(st, o, n), o), m)
  {
    hide LinksShape, Registered, Wired, Pointing, Listed, Counted, Homed, Local, Acyclic, Uniform, HeldOrCleaned, Scheduled,
         Positive, Anchored, Settled;
    NotIdleNotDoomed(st, o);
    PutCountStruct(st, o, n);
    DoomCounts(st, o, n, m.lp);
    DoomHeld(st, o, m);
  }

  lemma DoomCounts(st: State, o: Oid, n: Count, lp: multiset<Oid>)
    requires o in st.count && n.Idle() && !Doomed(st.tasks, o) && (st.g.Ph(o) ==> st.g.Keys(o) == [])
    requires Positive(st.g, st.count, st.tasks) && Anchored(st.count, st.collector, st.tasks, lp)
    requires Scheduled(st.g, st.count, st.cs.forward, st.tasks)
    ensures var r := Doom(PutCount(st, o, n), o);
      Positive(r.g, r.count, r.tasks) && Anchored(r.count, r.collector, r.tasks, lp) &&
      Scheduled(r.g, r.count, r.cs.forward, r.tasks)
  {
  }

  lemma DoomHeld(st: State, o: Oid, m: Mode)
    requires HeldOrCleaned(st.g, st.collector, st.cs, st.tasks, m)
    ensures HeldOrCleaned(st.g, st.collector, st.cs, st.tasks + multiset{DeleteObject(o)}, m)
  {
    hide Held, Group;
  }

  // ---- Setting a collector, merging ----

  /** object_set_collector within the group of the object, or to bring an object
      with phantom references into a group. */
  lemma SetCollKeeps(st: State, o: Oid, c: Cid, m: Mode)
    requires Sane(st, m) && o in st.g.objs && c in st.cs.forward && m.lax.None?
    requires GroupOf(st, o).Some? ==> GroupOf(st, o) == Some(Root(st.cs.forward, c))
    requires Doomed(st.tasks, o) || st.count[o].n2 > 0
    ensures Sane(SetColl(st, o, Some(c)), m)
    ensures Moved(st, SetColl(st, o, Some(c)), 0, 0)
    ensures GroupOf(SetColl(st, o, Some(c)), o) == Some(Root(st.cs.forward, c))
  {
    hide LinksShape, Registered, Wired, Pointing, Listed, Counted, Acyclic, Uniform, Positive, Scheduled, Homed, Local,
         HeldOrCleaned, Anchored, Root, SetColl, GroupOf, Moved, Doomed;
    SetCollStruct(st, o, Some(c));
    SetCollMoved(st, o, Some(c));
    SetCollAnchored(st, o, c, m.lp);
    SameListsGroups(st, SetColl(st, o, Some(c)), m);
  }

  lemma SetCollAnchored(st: State, o: Oid, c: Cid, lp: multiset<Oid>)
    requires o in st.collector && o in st.count
    requires Anchored(st.count, st.collector, st.tasks, lp) && (Doomed(st.tasks, o) || st.count[o].n2 > 0)
    ensures var r := SetColl(st, o, Some(c)); Anchored(r.count, r.collector, r.tasks, lp)
  {
    hide SetColl;
  }

  lemma SameListsGroups(st: State, r: State, m: Mode)
    requires Moved(st, r, 0, 0) && r.cs.lists == st.cs.lists && r.g == st.g && r.tasks == st.tasks
    requires Homed(st.collector, st.cs.forward, st.cs.lists) && Local(st.g.links, st.collector, st.cs.forward)
    requires HeldOrCleaned(st.g, st.collector, st.cs, st.tasks, m)
    ensures Homed(r.collector, r.cs.forward, r.cs.lists) && Local(r.g.links, r.collector, r.cs.forward)
    ensures HeldOrCleaned(r.g, r.collector, r.cs, r.tasks, m)
  {
    LocalMoved(st, r, 0, 0);
    HomedKept(st, r);
    HeldGrown(st, r, m);
    hide Moved, Homed, Local, HeldOrCleaned;
  }

  lemma HomedKept(st: State, r: State)
    requires Moved(st, r, 0, 0) && r.cs.lists == st.cs.lists && Homed(st.collector, st.cs.forward, st.cs.lists)
    ensures Homed(r.collector, r.cs.forward, r.cs.lists)
  {
    hide Group;
    forall lid, p | lid in r.cs.lists && lid.kind != Rebuild && p in r.cs.lists[lid].data
      ensures Group(r.collector, r.cs.forward, p) == Some(lid.coll)
    {
      assert GroupOf(st, p) == Some(lid.coll);
      assert GroupOf(r, p) == Some(lid.coll);
    }
  }

  lemma RootsUnion(f: Forwards, s: Cid, t: Cid)
    requires Forest(f) && s in f && t in f && f[s].None? && f[t].None? && s != t
    ensures RootsMoved(f, f[s := Some(t)], s, t)
  {
    RepUnion(f, s, t);
    hide Forest;
  }

  lemma MergeCollsMoved(st: State, t: Cid, s: Cid)
    requires Struct(st) && s in st.cs.forward && t in st.cs.forward && s != t
    requires st.cs.forward[s].None? && st.cs.forward[t].None?
    ensures Moved(st, MergeColls(st, t, s), s, t)
  {
    hide LinksShape, Wired, Listed, Counted, Join, Root, Forest;
    RootsUnion(st.cs.forward, s, t);
    JoinForward(st.cs, t, s);
  }

  lemma JoinForward(cs: Collecting, t: Cid, s: Cid)
    ensures Join(cs, t, s).forward == cs.forward[s := Some(t)]
    ensures Join(cs, t, s).lists == MergedLists(cs.lists, t, s)
    ensures Join(cs, t, s).next == cs.next
  {
  }

  /** An entry of `s` is found in `t` afterwards, all others where they were. */
  lemma MergedInto(lists: Lists, t: Cid, s: Cid, c: Cid, k: Kind, o: Oid)
    requires s != t && (forall j :: Lid(t, j) in lists) && o in Data(lists, c, k)
    ensures o in if c == s then Data(MergedLists(lists, t, s), t, ForwardKind(k)) else Data(MergedLists(lists, t, s), c, k)
  {
  }

  lemma MergeCollsKeeps(st: State, t: Cid, s: Cid, m: Mode)
    requires Sane(st, m) && s in st.cs.forward && t in st.cs.forward && s != t
    requires st.cs.forward[s].None? && st.cs.forward[t].None? && m.lax.None?
    requires forall lid :: lid in m.active ==> lid.kind == Recovery
    ensures Sane(MergeColls(st, t, s), m)
    ensures Moved(st, MergeColls(st, t, s), s, t)
  {
    hide LinksShape, Registered, Wired, Pointing, Listed, Counted, Acyclic, Uniform, Positive, Scheduled, Homed, Local,
         HeldOrCleaned, Anchored, Join, Moved;
    MergeCollsStruct(st, t, s);
    MergeCollsMoved(st, t, s);
    MergeCollsGroups(st, t, s, m);
    JoinForward(st.cs, t, s);
    HasList(st.cs, s, Rebuild);
    MergedSettled(st.cs.lists, t, s, m.active);
    ScheduledSameKeys(st.g, st.count, st.cs.forward, st.cs.forward[s := Some(t)], st.tasks);
  }

  lemma MergedSettled(lists: Lists, t: Cid, s: Cid, active: set<Lid>)
    requires Settled(lists, active) && forall lid :: lid in active ==> lid.kind == Recovery
    requires Lid(s, Rebuild) in lists
    ensures Settled(MergedLists(lists, t, s), active)
  {
  }

  lemma ScheduledSameKeys(g: Graph, count: map<Oid, Count>, f: Forwards, f': Forwards, tasks: multiset<Task>)
    requires Scheduled(g, count, f, tasks) && forall c :: c in f <==> c in f'
    ensures Scheduled(g, count, f', tasks)
  {
  }

  lemma MergeCollsGroups(st: State, t: Cid, s: Cid, m: Mode)
    requires Struct(st) && s in st.cs.forward && t in st.cs.forward && s != t && m.lax.None?
    requires st.cs.forward[s].None? && st.cs.forward[t].None?
    requires Homed(st.collector, st.cs.forward, st.cs.lists) && Local(st.g.links, st.collector, st.cs.forward)
    requires HeldOrCleaned(st.g, st.collector, st.cs, st.tasks, m)
    ensures var r := MergeColls(st, t, s);
      Homed(r.collector, r.cs.forward, r.cs.lists) && Local(r.g.links, r.collector, r.cs.forward) &&
      HeldOrCleaned(r.g, r.collector, r.cs, r.tasks, m)
  {
    var r := MergeColls(st, t, s);
    MergeCollsMoved(st, t, s);
    LocalMoved(st, r, s, t);
    JoinForward(st.cs, t, s);
    forall k ensures Lid(t, k) in st.cs.lists {
      HasList(st.cs, t, k);
    }
    hide LinksShape, Wired, Registered, Listed, Counted, Pointing, Domains, Join, MergedLists, Moved, Local;
    MergedHomed(st, r, t, s);
    MergedHeld(st, r, t, s, m);
  }

  lemma MergedHomed(st: State, r: State, t: Cid, s: Cid)
    requires Moved(st, r, s, t) && r.cs.lists == MergedLists(st.cs.lists, t, s)
    requires Homed(st.collector, st.cs.forward, st.cs.lists)
    ensures Homed(r.collector, r.cs.forward, r.cs.lists)
  {
    forall lid, p | lid in r.cs.lists && lid.kind != Rebuild && p in r.cs.lists[lid].data
      ensures Group(r.collector, r.cs.forward, p) == Some(lid.coll)
    {
      MergedFrom(st.cs.lists, t, s, lid, p);
      hide MergedLists, Group;
      if p in st.cs.lists[lid].data {
        assert GroupOf(st, p) == Some(lid.coll);
      } else {
        var k :| ForwardKind(k) == lid.kind && p in Data(st.cs.lists, s, k);
        assert Lid(s, k) in st.cs.lists && p in st.cs.lists[Lid(s, k)].data;
        assert GroupOf(st, p) == Some(s);
      }
      assert GroupOf(r, p) == Some(lid.coll);
    }
  }

  lemma MergedHeld(st: State, r: State, t: Cid, s: Cid, m: Mode)
    requires Moved(st, r, s, t) && r.cs.lists == MergedLists(st.cs.lists, t, s) && r.g == st.g && r.tasks == st.tasks
    requires s != t && m.lax.None? && forall k :: Lid(t, k) in st.cs.lists
    requires HeldOrCleaned(st.g, st.collector, st.cs, st.tasks, m)
    ensures HeldOrCleaned(r.g, r.collector, r.cs, r.tasks, m)
  {
    forall o | o in r.g.objs && r.g.Ph(o) && !Doomed(r.tasks, o)
      ensures Held(r.collector, r.cs, m.hand, o)
    {
      assert Held(st.collector, st.cs, m.hand, o);
      MergedHeldAt(st, r, t, s, m.hand, o);
    }
  }

  lemma MergedHeldAt(st: State, r: State, t: Cid, s: Cid, hand: Option<Oid>, o: Oid)
    requires Moved(st, r, s, t) && r.cs.lists == MergedLists(st.cs.lists, t, s)
    requires s != t && forall k :: Lid(t, k) in st.cs.lists
    requires Held(st.collector, st.cs, hand, o)
    ensures Held(r.collector, r.cs, hand, o)
  {
    hide MergedLists, Group, Data;
    var c := GroupOf(st, o).value;
    assert GroupOf(r, o) == Some(if c == s then t else c);
    if hand != Some(o) {
      var k := if o in Data(st.cs.lists, c, Merged) then Merged else if o in Data(st.cs.lists, c, Recovery) then Recovery else Clean;
      MergedInto(st.cs.lists, t, s, c, k, o);
    }
  }

  /** object_merge_collectors: both objects end up in one group. */
  lemma MergeObjsKeeps(st: State, obj: Oid, target: Oid, m: Mode)
    requires Sane(st, m) && obj in st.g.objs && target in st.g.objs && m.lax.None?
    requires forall lid :: lid in m.active ==> lid.kind == Recovery
    requires GroupOf(st, obj).Some?
    requires Doomed(st.tasks, target) || st.count[target].n2 > 0
    ensures var r := MergeObjs(st, obj, target);
      Sane(r, m) && GroupOf(r, obj).Some? && GroupOf(r, obj) == GroupOf(r, target)
    ensures forall c :: Joined(st, obj, c) ==> Joined(MergeObjs(st, obj, target), obj, c)
  {
    var s, t := st.Coll(obj), st.Coll(target);
    MergeFacts(st, obj, target, m);
    var rs := Root(st.cs.forward, s.value);
    hide Struct, Root, SetColl, GroupOf, Doomed, MergeColls, Sane, Moved, Joined;
    if t == s {
    } else if t.None? {
      SetCollKeeps(st, target, s.value, m);
      MovedAt(st, SetColl(st, target, s), 0, 0, obj);
      JoinedAll(st, SetColl(st, target, s), 0, 0, obj);
    } else {
      var rt := Root(st.cs.forward, t.value);
      if rt == rs {
        MergeSameGroup(st, obj, target, rt, m);
      } else {
        MergeCollsKeeps(st, rt, rs, m);
        var s1 := MergeColls(st, rt, rs);
        JoinForward(st.cs, rt, rs);
        MergedRoot(st, rt, rs);
        MovedAt(st, s1, rs, rt, obj);
        MovedAt(st, s1, rs, rt, target);
        JoinedAll(st, s1, rs, rt, obj);
        MergeSameGroup(s1, obj, target, rt, m);
      }
    }
  }

  lemma MergeFacts(st: State, obj: Oid, target: Oid, m: Mode)
    requires Sane(st, m) && obj in st.g.objs && target in st.g.objs && GroupOf(st, obj).Some?
    ensures Struct(st) && target in st.count && obj in st.count && (Doomed(st.tasks, obj) || st.count[obj].n2 > 0)
    ensures var s, t := st.Coll(obj), st.Coll(target);
      var f := st.cs.forward;
      s.Some? && s.value in f && GroupOf(st, obj) == Some(Root(f, s.value)) && Root(f, s.value) in f && f[Root(f, s.value)].None? &&
      Root(f, Root(f, s.value)) == Root(f, s.value) &&
      (t.Some? ==> t.value in f && GroupOf(st, target) == Some(Root(f, t.value)) && Root(f, t.value) in f && f[Root(f, t.value)].None? &&
                   Root(f, Root(f, t.value)) == Root(f, t.value)) &&
      (t.None? ==> GroupOf(st, target).None?)
  {
    hide LinksShape, Wired, Listed, Counted, Homed, Local, Positive, Scheduled, Uniform, Acyclic, HeldOrCleaned;
    RootRoot(st.cs.forward, st.Coll(obj).value);
    if st.Coll(target).Some? {
      RootRoot(st.cs.forward, st.Coll(target).value);
    }
  }

  lemma MergedRoot(st: State, t: Cid, s: Cid)
    requires Struct(st) && s in st.cs.forward && t in st.cs.forward && s != t
    requires st.cs.forward[s].None? && st.cs.forward[t].None?
    ensures t in MergeColls(st, t, s).cs.forward && MergeColls(st, t, s).cs.forward[t].None?
  {
    JoinForward(st.cs, t, s);
    hide LinksShape, Registered, Wired, Pointing, Listed, Counted, Join;
  }

  lemma MergeSameGroup(st: State, obj: Oid, target: Oid, c: Cid, m: Mode)
    requires Sane(st, m) && obj in st.g.objs && target in st.g.objs && m.lax.None?
    requires c in st.cs.forward && st.cs.forward[c].None?
    requires GroupOf(st, obj) == GroupOf(st, target) == Some(c)
    requires Doomed(st.tasks, target) || st.count[target].n2 > 0
    requires Doomed(st.tasks, obj) || st.count[obj].n2 > 0
    ensures var r := SetColl(SetColl(st, target, Some(c)), obj, Some(c));
      Sane(r, m) && GroupOf(r, obj) == GroupOf(r, target) == Some(c)
    ensures forall d :: Joined(st, obj, d) ==> Joined(SetColl(SetColl(st, target, Some(c)), obj, Some(c)), obj, d)
  {
    assert Root(st.cs.forward, c) == c;
    assert target in st.count && obj in st.count;
    hide Sane, Root, SetColl, GroupOf, Doomed, Moved, Joined;
    SetCollKeeps(st, target, c, m);
    MovedAt(st, SetColl(st, target, Some(c)), 0, 0, obj);
    SetCollKeeps(SetColl(st, target, Some(c)), obj, c, m);
    JoinedAll(st, SetColl(st, target, Some(c)), 0, 0, obj);
    JoinedAll(SetColl(st, target, Some(c)), SetColl(SetColl(st, target, Some(c)), obj, Some(c)), 0, 0, obj);
    MovedAt(SetColl(st, target, Some(c)), SetColl(SetColl(st, target, Some(c)), obj, Some(c)), 0, 0, target);
  }
}

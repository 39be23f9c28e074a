/** Reference counts against the references that really exist. The balance of a
    count is the surplus of the stored count over those references; every
    operation changes it by exactly the references it takes over or gives up. */
module Conservation {
  import opened Wrappers
  import opened Forwarding
  import opened Sums
  import opened Model

  /** The three classes of references to an object. */
  datatype Class = Bit(w: bool) | Phantom

  /** A reference that is counted but no longer stored in any table. */
  datatype Ref = Ref(o: Oid, cls: Class)

  function ClassOf(l: Link): Class
  {
    if l.phantomized then Phantom else Bit(l.which)
  }

  function Get(n: Count, cls: Class): int
  {
    match cls
    case Bit(w) => n.Plain(w)
    case Phantom => n.n2
  }

  ghost function LinkInto(o: Oid, cls: Class): (Slot, Link) -> nat
  {
    (s: Slot, l: Link) => if l.target == o && ClassOf(l) == cls then 1 else 0
  }

  ghost function InLinks(links: Links, o: Oid, cls: Class): nat
  {
    Sum(links, LinkInto(o, cls))
  }

  /** Entries of the collect list hold a strong and a phantom count; entries of
      the merged, recovery and clean lists hold a phantom count only; entries of
      the rebuild list hold nothing. */
  ghost function Entry(o: Oid, collectOnly: bool): (Lid, SafeList) -> nat
  {
    (lid: Lid, l: SafeList) => if lid.kind == Collect || (!collectOnly && lid.kind != Rebuild) then multiset(l.data)[o] else 0
  }

  ghost function Entries(lists: Lists, o: Oid, collectOnly: bool): nat
  {
    Sum(lists, Entry(o, collectOnly))
  }

  ghost function Supply(st: State, o: Oid, cls: Class): nat
  {
    InLinks(st.g.links, o, cls) +
    match cls
    case Bit(w) => if w == st.Which(o) then st.g.claims[o] + Entries(st.cs.lists, o, true) else 0
    case Phantom => Entries(st.cs.lists, o, false)
  }

  ghost function Balance(st: State, o: Oid, cls: Class): int
  {
    Get(st.Num(o), cls) - Supply(st, o, cls)
  }

  /** Every count is the number of references of its class: links, claims, list
      entries, the detached references in `loose`, and the entry `hand` that a
      running collector has polled and not yet put back. */
  ghost predicate Balanced(st: State, loose: multiset<Ref>, hand: Option<Oid>)
  {
    forall o, cls :: o in st.g.objs ==>
      Balance(st, o, cls) == loose[Ref(o, cls)] + (if cls == Phantom && hand == Some(o) then 1 else 0)
  }

  // ---- What each operation does to the balance of one count ----

  lemma EntriesPut(lists: Lists, lid: Lid, l: SafeList, p: Oid, collectOnly: bool)
    ensures Entries(lists[lid := l], p, collectOnly)
         == Entries(lists, p, collectOnly)
            - (if lid in lists then Entry(p, collectOnly)(lid, lists[lid]) else 0) + Entry(p, collectOnly)(lid, l)
  {
    SumUpdate(lists, Entry(p, collectOnly), lid, l);
  }

  lemma NewListsEntries(lists: Lists, c: Cid, p: Oid, collectOnly: bool)
    requires forall k :: Lid(c, k) !in lists
    ensures Entries(NewLists(lists, c), p, collectOnly) == Entries(lists, p, collectOnly)
  {
    var e := NoList;
    var l1 := lists[Lid(c, Collect) := e];
    var l2 := l1[Lid(c, Merged) := e];
    var l3 := l2[Lid(c, Recovery) := e];
    var l4 := l3[Lid(c, Rebuild) := e];
    EntriesPut(lists, Lid(c, Collect), e, p, collectOnly);
    EntriesPut(l1, Lid(c, Merged), e, p, collectOnly);
    EntriesPut(l2, Lid(c, Recovery), e, p, collectOnly);
    EntriesPut(l3, Lid(c, Rebuild), e, p, collectOnly);
    EntriesPut(l4, Lid(c, Clean), e, p, collectOnly);
  }

  /** The merged lists as eight updates of the lists before. */
  lemma MergedListsSteps(lists: Lists, t: Cid, s: Cid)
    requires s != t && forall k :: Lid(s, k) in lists && Lid(t, k) in lists
    ensures var r := MergedLists(lists, t, s);
      r == lists[Lid(s, Collect) := r[Lid(s, Collect)]][Lid(s, Merged) := r[Lid(s, Merged)]]
                [Lid(s, Recovery) := r[Lid(s, Recovery)]][Lid(s, Rebuild) := r[Lid(s, Rebuild)]]
                [Lid(s, Clean) := r[Lid(s, Clean)]][Lid(t, Collect) := r[Lid(t, Collect)]]
                [Lid(t, Merged) := r[Lid(t, Merged)]][Lid(t, Rebuild) := r[Lid(t, Rebuild)]]
  {
    var r := MergedLists(lists, t, s);
    forall lid | lid in lists && lid.coll != s && (lid.coll != t || lid.kind == Recovery || lid.kind == Clean)
      ensures r[lid] == lists[lid]
    {
    }
  }

  lemma MergedListsSum(lists: Lists, t: Cid, s: Cid, p: Oid, co: bool)
    requires s != t && forall k :: Lid(s, k) in lists && Lid(t, k) in lists
    ensures var r, e := MergedLists(lists, t, s), Entry(p, co);
      Entries(r, p, co) == Entries(lists, p, co)
        + e(Lid(s, Collect), r[Lid(s, Collect)]) - e(Lid(s, Collect), lists[Lid(s, Collect)])
        + e(Lid(s, Merged), r[Lid(s, Merged)]) - e(Lid(s, Merged), lists[Lid(s, Merged)])
        + e(Lid(s, Recovery), r[Lid(s, Recovery)]) - e(Lid(s, Recovery), lists[Lid(s, Recovery)])
        + e(Lid(s, Rebuild), r[Lid(s, Rebuild)]) - e(Lid(s, Rebuild), lists[Lid(s, Rebuild)])
        + e(Lid(s, Clean), r[Lid(s, Clean)]) - e(Lid(s, Clean), lists[Lid(s, Clean)])
        + e(Lid(t, Collect), r[Lid(t, Collect)]) - e(Lid(t, Collect), lists[Lid(t, Collect)])
        + e(Lid(t, Merged), r[Lid(t, Merged)]) - e(Lid(t, Merged), lists[Lid(t, Merged)])
        + e(Lid(t, Rebuild), r[Lid(t, Rebuild)]) - e(Lid(t, Rebuild), lists[Lid(t, Rebuild)])
  {
    MergedListsSteps(lists, t, s);
    var r := MergedLists(lists, t, s);
    hide Entries, Entry, MergedLists;
    var l1 := lists[Lid(s, Collect) := r[Lid(s, Collect)]];
    var l2 := l1[Lid(s, Merged) := r[Lid(s, Merged)]];
    var l3 := l2[Lid(s, Recovery) := r[Lid(s, Recovery)]];
    var l4 := l3[Lid(s, Rebuild) := r[Lid(s, Rebuild)]];
    var l5 := l4[Lid(s, Clean) := r[Lid(s, Clean)]];
    var l6 := l5[Lid(t, Collect) := r[Lid(t, Collect)]];
    var l7 := l6[Lid(t, Merged) := r[Lid(t, Merged)]];
    EntriesPut(lists, Lid(s, Collect), r[Lid(s, Collect)], p, co);
    EntriesPut(l1, Lid(s, Merged), r[Lid(s, Merged)], p, co);
    EntriesPut(l2, Lid(s, Recovery), r[Lid(s, Recovery)], p, co);
    EntriesPut(l3, Lid(s, Rebuild), r[Lid(s, Rebuild)], p, co);
    EntriesPut(l4, Lid(s, Clean), r[Lid(s, Clean)], p, co);
    EntriesPut(l5, Lid(t, Collect), r[Lid(t, Collect)], p, co);
    EntriesPut(l6, Lid(t, Merged), r[Lid(t, Merged)], p, co);
    EntriesPut(l7, Lid(t, Rebuild), r[Lid(t, Rebuild)], p, co);
  }

  /** Merging two collectors loses and duplicates no entry. */
  lemma MergedListsEntries(lists: Lists, t: Cid, s: Cid, p: Oid, co: bool)
    requires s != t && forall k :: Lid(s, k) in lists && Lid(t, k) in lists
    ensures Entries(MergedLists(lists, t, s), p, co) == Entries(lists, p, co)
  {
    MergedListsSum(lists, t, s, p, co);
    hide Entries;
  }

  lemma AppendBalance(st: State, lid: Lid, o: Oid, p: Oid, cls: Class)
    ensures Balance(Append(st, lid, o), p, cls) == Balance(st, p, cls) -
      (if p != o then 0
       else match cls
         case Bit(w) => if w == st.Which(o) && lid.kind == Collect then 1 else 0
         case Phantom => if lid.kind != Rebuild then 1 else 0)
  {
    var l := Append(st, lid, o).cs.lists[lid];
    assert multiset(l.data) == multiset(ListAt(st.cs.lists, lid).data) + multiset{o};
    EntriesPut(st.cs.lists, lid, l, p, true);
    EntriesPut(st.cs.lists, lid, l, p, false);
  }

  lemma PollBalance(st: State, lid: Lid, p: Oid, cls: Class)
    requires ListAt(st.cs.lists, lid).data != []
    ensures Balance(Poll(st, lid), p, cls) == Balance(st, p, cls) +
      (if p != st.cs.lists[lid].data[0] then 0
       else match cls
         case Bit(w) => if w == st.Which(p) && lid.kind == Collect then 1 else 0
         case Phantom => if lid.kind != Rebuild then 1 else 0)
  {
    var l := Poll(st, lid).cs.lists[lid];
    assert st.cs.lists[lid].data == [st.cs.lists[lid].data[0]] + l.data;
    assert multiset(st.cs.lists[lid].data) == multiset{st.cs.lists[lid].data[0]} + multiset(l.data);
    EntriesPut(st.cs.lists, lid, l, p, true);
    EntriesPut(st.cs.lists, lid, l, p, false);
  }

  lemma SetCollBalance(st: State, o: Oid, c: Option<Cid>, p: Oid, cls: Class)
    ensures Balance(SetColl(st, o, c), p, cls) == Balance(st, p, cls)
  {
    hide InLinks, Entries;
  }

  lemma PutCountBalance(st: State, o: Oid, n: Count, p: Oid, cls: Class)
    ensures Balance(PutCount(st, o, n), p, cls) ==
      Balance(st, p, cls) + if p == o then Get(n, cls) - Get(st.Num(o), cls) else 0
  {
    hide InLinks, Entries;
  }

  lemma BumpedGet(n: Count, w: bool, cls: Class)
    ensures Get(n.AddPlain(w, 1).AddPhantom(1), cls) == Get(n, cls) + if cls == Bit(w) || cls == Phantom then 1 else 0
  {
  }

  lemma AddObjectBalance(st: State, c: Cid, o: Oid, p: Oid, cls: Class)
    ensures Balance(AddObject(st, c, o), p, cls) == Balance(st, p, cls)
  {
    hide Balance, Append, SetColl, PutCount, Root, Get, st.Num;
    var n := st.Num(o).AddPlain(st.Which(o), 1).AddPhantom(1);
    var s1 := PutCount(st, o, n);
    var lid := Lid(Root(st.cs.forward, c), Collect);
    BumpedGet(st.Num(o), st.Which(o), cls);
    PutCountBalance(st, o, n, p, cls);
    AppendBalance(s1, lid, o, p, cls);
    SetCollBalance(Append(s1, lid, o), o, Some(lid.coll), p, cls);
  }

  lemma NewCollBalance(st: State, p: Oid, cls: Class)
    requires Registered(st.cs)
    ensures Balance(NewColl(st), p, cls) == Balance(st, p, cls)
  {
    NewListsEntries(st.cs.lists, st.cs.next, p, true);
    NewListsEntries(st.cs.lists, st.cs.next, p, false);
  }

  lemma SuspectBalance(st: State, o: Oid, p: Oid, cls: Class)
    requires Registered(st.cs)
    ensures Balance(Suspect(st, o), p, cls) == Balance(st, p, cls)
  {
    hide Balance, NewColl, AddObject, SetColl;
    match st.Coll(o)
    case None =>
      NewCollBalance(st, p, cls);
      SetCollBalance(NewColl(st), o, Some(st.cs.next), p, cls);
      AddObjectBalance(SetColl(NewColl(st), o, Some(st.cs.next)), st.cs.next, o, p, cls);
    case Some(c) =>
      AddObjectBalance(st, c, o, p, cls);
  }

  lemma DoomBalance(st: State, o: Oid, p: Oid, cls: Class)
    ensures Balance(Doom(st, o), p, cls) == Balance(st, p, cls)
  {
    hide InLinks, Entries;
  }

  /** object_dec gives up exactly one reference of bit `w`. */
  lemma DecBalance(st: State, o: Oid, w: bool, p: Oid, cls: Class)
    requires Registered(st.cs)
    ensures Balance(Dec(st, o, w), p, cls) == Balance(st, p, cls) - (if p == o && cls == Bit(w) then 1 else 0)
  {
    hide Balance, Suspect, Doom, PutCount, Registered;
    var n := st.Num(o).AddPlain(w, -1);
    var s1 := PutCount(st, o, n);
    PutCountBalance(st, o, n, p, cls);
    SuspectBalance(s1, o, p, cls);
    DoomBalance(s1, o, p, cls);
  }

  /** object_dec_phantom gives up exactly one phantom reference. */
  lemma DecPhantomBalance(st: State, o: Oid, p: Oid, cls: Class)
    ensures Balance(DecPhantom(st, o), p, cls) == Balance(st, p, cls) - (if p == o && cls == Phantom then 1 else 0)
  {
    var n := st.Num(o).AddPhantom(-1);
    var s1 := PutCount(st, o, n);
    PutCountBalance(st, o, n, p, cls);
    DoomBalance(s1, o, p, cls);
    SetCollBalance(s1, o, None, p, cls);
    hide Balance, SetColl, Doom, PutCount;
  }

  lemma MergeCollsBalance(st: State, t: Cid, s: Cid, p: Oid, cls: Class)
    requires Registered(st.cs) && s in st.cs.forward && t in st.cs.forward && s != t
    ensures Balance(MergeColls(st, t, s), p, cls) == Balance(st, p, cls)
  {
    MergedListsEntries(st.cs.lists, t, s, p, true);
    MergedListsEntries(st.cs.lists, t, s, p, false);
    hide InLinks, Entries, MergedLists;
  }

  lemma RootIn(f: Forwards, c: Cid)
    requires c in f
    ensures Root(f, c) in f
  {
  }

  lemma MergeObjsBalance(st: State, obj: Oid, target: Oid, p: Oid, cls: Class)
    requires Registered(st.cs)
    requires st.Coll(obj).Some? ==> st.Coll(obj).value in st.cs.forward
    requires st.Coll(target).Some? ==> st.Coll(target).value in st.cs.forward
    ensures Balance(MergeObjs(st, obj, target), p, cls) == Balance(st, p, cls)
  {
    hide Balance, SetColl, MergeColls, Registered, Root;
    var s, t := st.Coll(obj), st.Coll(target);
    if t == s {
    } else if t.None? {
      SetCollBalance(st, target, s, p, cls);
    } else if s.None? {
      SetCollBalance(st, obj, t, p, cls);
    } else {
      var rt, rs := Root(st.cs.forward, t.value), Root(st.cs.forward, s.value);
      RootIn(st.cs.forward, t.value);
      RootIn(st.cs.forward, s.value);
      assert rt in st.cs.forward && rs in st.cs.forward;
      var s1 := if rt == rs then st else MergeColls(st, rt, rs);
      if rt != rs {
        MergeCollsBalance(st, rt, rs, p, cls);
      }
      SetCollBalance(s1, target, Some(rt), p, cls);
      SetCollBalance(SetColl(s1, target, Some(rt)), obj, Some(rt), p, cls);
    }
  }

  lemma PutLinkBalance(st: State, s: Slot, l: Link, p: Oid, cls: Class)
    ensures Balance(PutLink(st, s, l), p, cls) == Balance(st, p, cls)
      + (if s in st.g.links && p == st.g.links[s].target && cls == ClassOf(st.g.links[s]) then 1 else 0)
      - (if p == l.target && cls == ClassOf(l) then 1 else 0)
  {
    SumUpdate(st.g.links, LinkInto(p, cls), s, l);
  }

  // ---- Collector counters ----

  ghost function PointsTo(c: Cid): (int, Option<Cid>) -> nat
  {
    (k: int, v: Option<Cid>) => if v == Some(c) then 1 else 0
  }

  /** Surplus of ref_count over the objects and collectors that point at `c`. */
  ghost function RefBalance(collector: Collectors, cs: Collecting, c: Cid): int
  {
    CounterAt(cs.counter, c).refs - Sum(collector, PointsTo(c)) - Sum(cs.forward, PointsTo(c))
  }

  /** Surplus of store_count over the entries of the five lists. */
  ghost function StoreBalance(cs: Collecting, c: Cid): int
  {
    CounterAt(cs.counter, c).stores - StoreSize(cs.lists, c)
  }

  /** Both counters of every collector are exact. */
  ghost predicate Counted(collector: Collectors, cs: Collecting)
  {
    forall c :: c in cs.forward ==> RefBalance(collector, cs, c) == 0 && StoreBalance(cs, c) == 0
  }

  lemma SetCollCounted(st: State, o: Oid, c: Option<Cid>, x: Cid)
    ensures var r := SetColl(st, o, c);
      RefBalance(r.collector, r.cs, x) == RefBalance(st.collector, st.cs, x) &&
      StoreBalance(r.cs, x) == StoreBalance(st.cs, x)
  {
    hide StoreSize;
    SumUpdate(st.collector, PointsTo(x), o, c);
  }

  lemma NewCollCounted(st: State, x: Cid)
    requires Registered(st.cs)
    requires forall o :: o in st.collector ==> st.collector[o] != Some(st.cs.next)
    requires forall c :: c in st.cs.forward ==> st.cs.forward[c] != Some(st.cs.next)
    requires x in st.cs.forward || x == st.cs.next
    ensures var r := NewColl(st);
      RefBalance(r.collector, r.cs, x) == (if x == st.cs.next then 0 else RefBalance(st.collector, st.cs, x)) &&
      StoreBalance(r.cs, x) == (if x == st.cs.next then 0 else StoreBalance(st.cs, x))
  {
    NewCollRefs(st, x);
    NewCollStores(st, x);
    hide RefBalance, StoreBalance, NewColl;
  }

  lemma NewCollRefs(st: State, x: Cid)
    requires forall o :: o in st.collector ==> st.collector[o] != Some(st.cs.next)
    requires forall c :: c in st.cs.forward ==> st.cs.forward[c] != Some(st.cs.next)
    requires st.cs.next !in st.cs.forward
    ensures var r := NewColl(st);
      RefBalance(r.collector, r.cs, x) == if x == st.cs.next then 0 else RefBalance(st.collector, st.cs, x)
  {
    hide NewLists;
    SumUpdate(st.cs.forward, PointsTo(x), st.cs.next, None);
    if x == st.cs.next {
      NoPointers(st.collector, x);
      NoPointers(st.cs.forward, x);
    }
  }

  lemma NewCollStores(st: State, x: Cid)
    ensures var r := NewColl(st);
      StoreBalance(r.cs, x) == if x == st.cs.next then 0 else StoreBalance(st.cs, x)
  {
    forall k ensures ListAt(NewColl(st).cs.lists, Lid(x, k)) == if x == st.cs.next then NoList else ListAt(st.cs.lists, Lid(x, k)) {
      match k
      case Collect =>
      case Merged =>
      case Recovery =>
      case Rebuild =>
      case Clean =>
    }
    hide NewLists, ListAt;
  }

  lemma NoPointers(m: map<int, Option<Cid>>, c: Cid)
    ensures Sum(m, PointsTo(c)) == 0 <==> forall o :: o in m ==> m[o] != Some(c)
  {
    SumZero(m, PointsTo(c));
    if Sum(m, PointsTo(c)) != 0 {
      var k := SumWitness(m, PointsTo(c));
    } else {
      forall o | o in m ensures m[o] != Some(c) {
        assert PointsTo(c)(o, m[o]) == 0;
      }
    }
  }

  lemma AppendCounted(st: State, lid: Lid, o: Oid, x: Cid)
    ensures var r := Append(st, lid, o);
      RefBalance(r.collector, r.cs, x) == RefBalance(st.collector, st.cs, x) &&
      StoreBalance(r.cs, x) == StoreBalance(st.cs, x)
  {
    match lid.kind
    case Collect =>
    case Merged =>
    case Recovery =>
    case Rebuild =>
    case Clean =>
  }

  lemma PollCounted(st: State, lid: Lid, x: Cid)
    requires ListAt(st.cs.lists, lid).data != []
    ensures var r := Poll(st, lid);
      RefBalance(r.collector, r.cs, x) == RefBalance(st.collector, st.cs, x) &&
      StoreBalance(r.cs, x) == StoreBalance(st.cs, x)
  {
    match lid.kind
    case Collect =>
    case Merged =>
    case Recovery =>
    case Rebuild =>
    case Clean =>
  }

  lemma MergeCollsCounted(st: State, t: Cid, s: Cid, x: Cid)
    requires Registered(st.cs) && s in st.cs.forward && t in st.cs.forward && s != t
    requires st.cs.forward[s].None? && x in st.cs.forward
    ensures var r := MergeColls(st, t, s);
      RefBalance(r.collector, r.cs, x) == RefBalance(st.collector, st.cs, x) &&
      StoreBalance(r.cs, x) == StoreBalance(st.cs, x)
  {
    SumUpdate(st.cs.forward, PointsTo(x), s, Some(t));
    MergedListsSize(st.cs.lists, t, s, x);
    hide MergedLists, StoreSize;
  }

  lemma MergedListsSize(lists: Lists, t: Cid, s: Cid, x: Cid)
    requires s != t && forall k :: Lid(s, k) in lists && Lid(t, k) in lists
    ensures StoreSize(MergedLists(lists, t, s), x) == StoreSize(lists, x)
      + (if x == t then StoreSize(lists, s) else 0) - (if x == s then StoreSize(lists, s) else 0)
  {
    var r := MergedLists(lists, t, s);
    forall k ensures |ListAt(r, Lid(x, k)).data| == |ListAt(lists, Lid(x, k)).data|
      + (if x == t then MovedInto(lists, s, k) else 0)
      - (if x == s then |ListAt(lists, Lid(x, k)).data| else 0)
    {
    }
  }

  ghost function MovedInto(lists: Lists, s: Cid, k: Kind): int
  {
    match k
    case Merged => |ListAt(lists, Lid(s, Merged)).data| + |ListAt(lists, Lid(s, Clean)).data| + |ListAt(lists, Lid(s, Recovery)).data|
    case Collect => |ListAt(lists, Lid(s, Collect)).data|
    case Rebuild => |ListAt(lists, Lid(s, Rebuild)).data|
    case _ => 0
  }
}

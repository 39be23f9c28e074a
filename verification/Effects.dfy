/** What single operations do, told by the counts, links and claims before them. The
    invariants say that nothing goes wrong; these lemmas say what happens. */
module Effects {
  import opened Wrappers
  import opened Forwarding
  import opened Sums
  import opened Model
  import opened Conservation
  import opened Invariant
  import opened Keeping
  import opened Phantomizing
  import opened CollectPhase
  import opened RecoverPhase
  import opened CleanPhase
  import opened Reach
  import opened Runs
  import opened Deletion
  import opened Mutators

  /** No count but that of `o` has changed. */
  ghost predicate OthersCounted(a: State, b: State, o: Oid)
  {
    forall p :: p != o ==> b.Num(p) == a.Num(p)
  }

  /** No list but `lid` has changed, and that one has `o` as its new last entry. */
  ghost predicate Appended(a: Lists, b: Lists, lid: Lid, o: Oid)
  {
    && ListAt(b, lid).data == ListAt(a, lid).data + [o]
    && forall x :: x != lid ==> ListAt(b, x).data == ListAt(a, x).data
  }

  // ---- object_dec ----

  /** The reference of bit `w` is the last strong one. */
  ghost predicate LastStrong(st: State, o: Oid, w: bool)
  {
    w == st.Which(o) && st.Num(o).Plain(w) == 1
  }

  /** There are weak or phantom references besides. */
  ghost predicate OtherwiseHeld(st: State, o: Oid, w: bool)
  {
    st.Num(o).Plain(!w) != 0 || st.Num(o).n2 != 0
  }

  /** `o` waits behind all others in the collect list of its group, and points straight at
      the representative; an object without a collector got a new one, which has its task. */
  ghost predicate Enqueued(a: State, b: State, o: Oid)
  {
    match a.Coll(o)
    case Some(c) =>
      var rep := Root(a.cs.forward, c);
      b.tasks == a.tasks && b.cs.forward == a.cs.forward && b.collector == a.collector[o := Some(rep)] &&
      Appended(a.cs.lists, b.cs.lists, Lid(rep, Collect), o)
    case None =>
      var next := a.cs.next;
      next !in a.cs.forward && b.tasks == a.tasks + multiset{RunCollector(next)} &&
      b.cs.forward == a.cs.forward[next := None] && b.collector == a.collector[o := Some(next)] &&
      Appended(a.cs.lists, b.cs.lists, Lid(next, Collect), o)
  }

  lemma AppendEffect(st: State, lid: Lid, o: Oid)
    ensures Appended(st.cs.lists, Append(st, lid, o).cs.lists, lid, o)
  {
  }

  lemma AddObjectEffect(st: State, c: Cid, o: Oid)
    requires o in st.collector
    ensures var r, a := AddObject(st, c, o), Root(st.cs.forward, c);
      Appended(st.cs.lists, r.cs.lists, Lid(a, Collect), o) && r.collector == st.collector[o := Some(a)]
  {
    hide Root, Append, SetColl, PutCount, Appended;
    var s1 := PutCount(st, o, st.Num(o).AddPlain(st.Which(o), 1).AddPhantom(1));
    AppendEffect(s1, Lid(Root(st.cs.forward, c), Collect), o);
  }

  lemma SuspectEffect(st: State, o: Oid)
    requires Struct(st) && o in st.g.objs
    ensures Enqueued(st, Suspect(st, o), o)
  {
    hide LinksShape, Wired, Pointing, Listed, Counted, AddObject, SetColl, NewLists;
    match st.Coll(o) {
      case Some(c) =>
        AddObjectEffect(st, c, o);
      case None =>
        var n := NewColl(st);
        var s1 := SetColl(n, o, Some(st.cs.next));
        NextFresh(st.cs);
        NewListsAt(st.cs.lists, st.cs.next);
        NewCollEmpty(st);
        NewCollWired(st);
        RepExtend(st.cs.forward, st.cs.next);
        AddObjectEffect(s1, st.cs.next, o);
    }
  }

  lemma NewCollEmpty(st: State)
    requires Registered(st.cs)
    ensures forall x :: ListAt(NewColl(st).cs.lists, x).data == ListAt(st.cs.lists, x).data
  {
    NewListsAt(st.cs.lists, st.cs.next);
    NextFresh(st.cs);
    hide NewLists;
  }

  /** object_dec starts the deletion of an object exactly if its last reference of any kind
      has gone; then nothing else changes. */
  lemma DecDeletes(st: State, o: Oid, w: bool)
    requires Struct(st) && o in st.g.objs
    ensures var r := Dec(st, o, w);
      (r.tasks == st.tasks + multiset{DeleteObject(o)} <==> LastStrong(st, o, w) && !OtherwiseHeld(st, o, w)) &&
      (LastStrong(st, o, w) && !OtherwiseHeld(st, o, w) ==>
         r.Num(o) == NoCount && OthersCounted(st, r, o) && r.g == st.g && r.collector == st.collector && r.cs == st.cs)
  {
    hide Struct, Suspect;
    var s1 := PutCount(st, o, st.Num(o).AddPlain(w, -1));
    PutCountStruct(st, o, st.Num(o).AddPlain(w, -1));
    SuspectEffect(s1, o);
    hide Enqueued;
    if LastStrong(st, o, w) && OtherwiseHeld(st, o, w) {
      NotDeleted(s1, Suspect(s1, o), o);
    }
  }

  lemma NotDeleted(a: State, b: State, o: Oid)
    requires Enqueued(a, b, o)
    ensures b.tasks != a.tasks + multiset{DeleteObject(o)}
  {
    assert b.tasks[DeleteObject(o)] == a.tasks[DeleteObject(o)];
  }

  /** It queues the object exactly if its last strong reference has gone and others are left;
      the collector then holds a strong and a phantom reference. */
  lemma DecQueues(st: State, o: Oid, w: bool)
    requires Struct(st) && o in st.g.objs
    ensures var r := Dec(st, o, w);
      (Enqueued(st, r, o) <==> LastStrong(st, o, w) && OtherwiseHeld(st, o, w)) &&
      (LastStrong(st, o, w) && OtherwiseHeld(st, o, w) ==>
         r.Num(o).Plain(w) == 1 && r.Num(o).Plain(!w) == st.Num(o).Plain(!w) && r.Num(o).n2 == st.Num(o).n2 + 1 &&
         OthersCounted(st, r, o) && r.g == st.g)
  {
    hide Struct, Suspect, Enqueued;
    var s1 := PutCount(st, o, st.Num(o).AddPlain(w, -1));
    if LastStrong(st, o, w) && OtherwiseHeld(st, o, w) {
      PutCountStruct(st, o, st.Num(o).AddPlain(w, -1));
      SuspectEffect(s1, o);
      SuspectCounts(s1, o);
      EnqueuedSame(st, s1, Suspect(s1, o), o);
    } else {
      NotEnqueued(st, Dec(st, o, w), o);
    }
  }

  lemma EnqueuedSame(a: State, b: State, r: State, o: Oid)
    requires b.collector == a.collector && b.cs == a.cs && b.tasks == a.tasks
    ensures Enqueued(a, r, o) <==> Enqueued(b, r, o)
  {
    hide Root, Appended;
  }

  lemma NotEnqueued(a: State, b: State, o: Oid)
    requires b.cs.lists == a.cs.lists
    ensures !Enqueued(a, b, o)
  {
    hide Root;
  }

  lemma SuspectCounts(st: State, o: Oid)
    ensures Suspect(st, o).count == st.count[o := st.Num(o).AddPlain(st.Which(o), 1).AddPhantom(1)]
  {
    hide AddObject, SetColl, NewColl;
    if st.Coll(o).Some? {
      AddObjectCounts(st, st.Coll(o).value, o);
    } else {
      AddObjectCounts(SetColl(NewColl(st), o, Some(st.cs.next)), st.cs.next, o);
    }
  }

  lemma AddObjectCounts(st: State, c: Cid, o: Oid)
    ensures AddObject(st, c, o).count == st.count[o := st.Num(o).AddPlain(st.Which(o), 1).AddPhantom(1)]
  {
    hide SetColl, Append, Root;
  }

  /** In all other cases only the count of the reference changes. */
  lemma DecCounts(st: State, o: Oid, w: bool)
    requires o in st.g.objs && !LastStrong(st, o, w)
    ensures var r := Dec(st, o, w);
      r.Num(o).Plain(w) == st.Num(o).Plain(w) - 1 && r.Num(o).Plain(!w) == st.Num(o).Plain(!w) && r.Num(o).n2 == st.Num(o).n2 &&
      OthersCounted(st, r, o) && r.g == st.g && r.collector == st.collector && r.cs == st.cs && r.tasks == st.tasks
  {
    hide Suspect, Doom;
  }

  /** object_dec_phantom starts the deletion exactly if the last reference of any kind has gone,
      and takes the object from its collector if it was the last phantom reference of others. */
  lemma DecPhantomEffect(st: State, o: Oid)
    requires o in st.collector
    ensures var r, n := DecPhantom(st, o), st.Num(o);
      r.Num(o).n0 == n.n0 && r.Num(o).n1 == n.n1 && r.Num(o).n2 == n.n2 - 1 && OthersCounted(st, r, o) && r.g == st.g &&
      r.cs.lists == st.cs.lists && r.cs.forward == st.cs.forward &&
      (r.tasks == st.tasks + multiset{DeleteObject(o)} <==> n.n0 == n.n1 == 0 && n.n2 == 1) &&
      (r.tasks == st.tasks <==> !(n.n0 == n.n1 == 0 && n.n2 == 1)) &&
      r.collector == if n.n2 == 1 && (n.n0 != 0 || n.n1 != 0) then st.collector[o := None] else st.collector
  {
    hide SetColl;
    assert st.tasks + multiset{DeleteObject(o)} != st.tasks by {
      assert (st.tasks + multiset{DeleteObject(o)})[DeleteObject(o)] == st.tasks[DeleteObject(o)] + 1;
    }
  }

  // ---- object_phantomize_node ----

  /** Flags and links of every object but `o` are as before. */
  ghost predicate OthersFlagged(a: Graph, b: Graph, o: Oid)
  {
    && (forall p :: p != o ==> b.Which(p) == a.Which(p) && b.Ph(p) == a.Ph(p))
    && (forall s :: s in a.links && s.src != o ==> s in b.links && b.links[s] == a.links[s])
  }

  /** Nothing but the strong count of `o` goes down by one, and `o` points straight at its
      representative. */
  ghost predicate OnlyGivenBack(a: State, b: State, o: Oid)
  {
    && b.g == a.g && b.tasks == a.tasks && b.cs.lists == a.cs.lists && b.cs.forward == a.cs.forward
    && b.Num(o) == a.Num(o).AddPlain(a.Which(o), -1) && OthersCounted(a, b, o)
    && b.collector == a.collector[o := GroupOf(a, o)]
  }

  /** `o` and all its links are phantoms; its bit is the other one exactly if it had weak references. */
  ghost predicate NodePhantomized(a: State, b: State, o: Oid)
  {
    && b.g.Ph(o) && (b.Which(o) != a.Which(o) <==> a.Num(o).Plain(!a.Which(o)) > 0)
    && (forall s :: s in b.g.links && s.src == o ==> s in a.g.links && b.g.links[s] == a.g.links[s].(phantomized := true))
    && OthersFlagged(a.g, b.g, o)
  }

  /** object_phantomize_node on a suspect: as long as it has another strong reference, only the
      one of the collector is given back. If it was the last, the object becomes a phantom with
      all its links; one that was a phantom already has nothing more to mark. */
  lemma PhantomizeNodeEffect(st: State, c: Cid, o: Oid)
    requires Sane(st, CollectMode(c, Some(o), None))
    requires Balanced(st, multiset{Ref(o, Bit(st.Which(o)))}, Some(o))
    requires o in st.g.objs && Joined(st, o, c)
    ensures var r := PhantomizeNode(st, o);
      st.Num(o).Plain(st.Which(o)) >= 1 && 
      (st.Num(o).Plain(st.Which(o)) > 1 ==> OnlyGivenBack(st, r, o)) &&
      (st.Num(o).Plain(st.Which(o)) == 1 ==> NodePhantomized(st, r, o)) &&
      (st.g.Ph(o) ==> OthersCounted(st, r, o) && r.g.links == st.g.links && r.cs.lists == st.cs.lists && r.tasks == st.tasks)
  {
    hide Sane, Joined, GroupOf, Balanced, PhantomizeLinks, NodeHead;
    NodeHeadKeeps(st, c, o);
    var s1 := NodeHead(st, o);
    PhantomizeNodeHead(st, o);
    StrongLeft(st, o);
    HeadEffect(st, o, c);
    if s1.g.Ph(o) && !st.g.Ph(o) {
      var ks := st.g.Keys(o);
      var m := CollectMode(c, Some(o), Some(o));
      JoinedGroup(s1, o, c);
      KeysInLinks(s1, m);
      PhantomizeLinksKeeps(s1, o, ks, m);
      AllLinksMarked(st, s1, PhantomizeLinks(s1, o, ks), o, m);
    } else {
      LinksAgree(st, o, CollectMode(c, Some(o), None));
    }
  }

  lemma StrongLeft(st: State, o: Oid)
    requires Balanced(st, multiset{Ref(o, Bit(st.Which(o)))}, Some(o)) && o in st.g.objs
    ensures st.Num(o).Plain(st.Which(o)) >= 1 && st.Num(o).Plain(!st.Which(o)) >= 0
  {
    PhantomizeHeadBalanced(st, o);
  }

  /** The part of object_phantomize_node before its loop. */
  lemma HeadEffect(st: State, o: Oid, c: Cid)
    requires o in st.g.objs && Joined(st, o, c) 
    ensures var r, n, w := NodeHead(st, o), st.Num(o), st.Which(o);
      r.tasks == st.tasks && r.cs.lists == st.cs.lists && OthersCounted(st, r, o) && r.g.links == st.g.links &&
      OthersFlagged(st.g, r.g, o) &&
      (n.Plain(w) > 1 ==> OnlyGivenBack(st, r, o)) &&
      (n.Plain(w) <= 1 ==> r.g.Ph(o) && (r.Which(o) != w <==> n.Plain(!w) > 0))
  {
    hide SetColl, Root;
  }

  lemma AllLinksMarked(st: State, s1: State, r: State, o: Oid, m: Mode)
    requires Sane(s1, m) && s1.g.links == st.g.links && s1.g.fields == st.g.fields
    requires r.g == s1.g.(links := r.g.links) && Marked(s1.g.links, r.g.links, o, st.g.Keys(o)) && OthersFlagged(st.g, s1.g, o)
    ensures OthersFlagged(st.g, r.g, o)
    ensures forall s :: s in r.g.links && s.src == o ==> s in st.g.links && r.g.links[s] == st.g.links[s].(phantomized := true)
  {
    hide Registered, Wired, Pointing, Listed, Counted, Homed, Local, Acyclic, HeldOrCleaned, Scheduled, Positive, Anchored, Settled, Uniform;
  }

  lemma LinksAgree(st: State, o: Oid, m: Mode)
    requires Sane(st, m) && m.busy.None?
    ensures forall s :: s in st.g.links && s.src == o ==> st.g.links[s].phantomized == st.g.Ph(o)
  {
    hide Registered, Wired, Pointing, Listed, Counted, Homed, Local, Acyclic, HeldOrCleaned, Scheduled, Positive, Anchored, Settled, LinksShape;
  }

  // ---- object_rebuild_link and object_merge_collectors ----

  /** A rebuilt link is strong exactly if its target is another object that is a phantom or has
      no links. The target is queued exactly if other phantom references to it are left; if not,
      it leaves its collector. */
  lemma RebuildLinkEffect(st: State, c: Cid, s: Slot)
    requires s in st.g.links && st.g.links[s].phantomized && IsRoot(st.cs.forward, c)
    requires var t := st.g.links[s].target; t in st.collector && st.Coll(t).Some?
    ensures var r, t := RebuildLink(st, c, s), st.g.links[s].target;
      var l := if s in r.g.links then r.g.links[s] else st.g.links[s];
      r.g == st.g.(links := st.g.links[s := l]) && l.target == t && !l.phantomized &&
      (l.which == st.Which(t) <==> t != s.src && (st.g.Ph(t) || st.g.Keys(t) == [])) &&
      r.Num(t).Plain(l.which) == st.Num(t).Plain(l.which) + 1 && r.Num(t).Plain(!l.which) == st.Num(t).Plain(!l.which) &&
      r.Num(t).n2 == st.Num(t).n2 - 1 && OthersCounted(st, r, t) && r.tasks == st.tasks && r.cs.forward == st.cs.forward &&
      (if st.Num(t).n2 == 1 then r.cs.lists == st.cs.lists && r.collector == st.collector[t := None]
       else Appended(st.cs.lists, r.cs.lists, Lid(c, Rebuild), t) && r.collector == st.collector)
  {
    hide SetColl, Append, Appended, ListAdd;
    RebuildLinkShape(st, c, s);
    var s3, t := Rebuilt(st, s), st.g.links[s].target;
    if st.Num(t).n2 != 1 {
      QueueStep(s3, c, t);
      AppendEffect(s3, Lid(c, Rebuild), t);
    }
  }

  /** object_recover_node: an object with a strong reference is no phantom afterwards, nor is any
      of its links; one without is left as it is. */
  lemma RecoverNodeEffect(st: State, c: Cid, hand: Option<Oid>, o: Oid)
    requires RecoverInv(st, c, hand, Some(o)) && o in st.g.objs
    ensures var r := RecoverNode(st, c, o);
      OthersFlagged(st.g, r.g, o) && r.Which(o) == st.Which(o) &&
      (st.Num(o).Plain(st.Which(o)) > 0 ==> !r.g.Ph(o) && forall s :: s in r.g.links && s.src == o ==> !r.g.links[s].phantomized) &&
      (st.Num(o).Plain(st.Which(o)) <= 0 ==> r.g == st.g && r.count == st.count && r.cs.lists == st.cs.lists)
  {
    hide Sane, Balanced, OnlyRebuild, GroupOf, UpdateColl, PhantomLinks, RebuildLinks, Awaited, SameTargets, RecoverNode;
    var s1 := UpdateColl(st, o);
    var s2 := PutFlags(s1, o, s1.Which(o), false);
    RecoverNodeKeeps(st, c, hand, o);
    RecoverNodeShape(st, c, o);
    RebuildLinksOwn(s2, c, o, s1.g.Keys(o));
    LinksAgree(RecoverNode(st, c, o), o, RecoverMode(c, hand, None));
  }

  lemma {:induction false} RebuildLinksOwn(st: State, c: Cid, o: Oid, ks: seq<Field>)
    ensures var r := RebuildLinks(st, c, o, ks);
      r.g == st.g.(links := r.g.links) && forall x :: x in st.g.links && x.src != o ==> x in r.g.links && r.g.links[x] == st.g.links[x]
    decreases |ks|
  {
    if ks != [] {
      var s := Slot(o, ks[0]);
      if s in st.g.links {
        RestoredOne(st, c, s);
      }
      RebuildLinksOwn(RebuildLink(st, c, s), c, o, ks[1..]);
    }
    hide ListAdd, SetColl;
  }

  /** Two objects with different collectors both point at the representative of the second
      one afterwards, and the other representative, if it is another one, forwards to it. */
  lemma MergeObjsEffect(st: State, obj: Oid, target: Oid)
    requires obj in st.collector && target in st.collector
    requires st.Coll(obj).Some? && st.Coll(target).Some? && st.Coll(obj) != st.Coll(target)
    ensures var r, f := MergeObjs(st, obj, target), st.cs.forward;
      var a, b := Root(f, st.Coll(obj).value), Root(f, st.Coll(target).value);
      r.collector == st.collector[target := Some(b)][obj := Some(b)] &&
      r.cs.forward == if a == b then f else f[a := Some(b)]
  {
    hide SetColl, Root;
  }

  // ---- The lists ----

  ghost function AppendAll(st: State, lid: Lid, os: seq<Oid>): State
    decreases |os|
  {
    if os == [] then st else AppendAll(Append(st, lid, os[0]), lid, os[1..])
  }

  ghost function PollTimes(st: State, lid: Lid, k: nat): State
    decreases k
  {
    if k == 0 || ListAt(st.cs.lists, lid).data == [] then st else PollTimes(Poll(st, lid), lid, k - 1)
  }

  /** A list gives its entries back in the order in which they were added, after those that
      were there before. */
  lemma ListOrder(st: State, lid: Lid, os: seq<Oid>, k: nat)
    requires k < |ListAt(st.cs.lists, lid).data| + |os|
    ensures var r := PollTimes(AppendAll(st, lid, os), lid, k);
      ListAt(r.cs.lists, lid).data != [] && ListAt(r.cs.lists, lid).data[0] == (ListAt(st.cs.lists, lid).data + os)[k]
  {
    AppendAllData(st, lid, os);
    PollTimesData(AppendAll(st, lid, os), lid, k);
  }

  lemma {:induction false} AppendAllData(st: State, lid: Lid, os: seq<Oid>)
    ensures ListAt(AppendAll(st, lid, os).cs.lists, lid).data == ListAt(st.cs.lists, lid).data + os
    decreases |os|
  {
    if os != [] {
      AppendAllData(Append(st, lid, os[0]), lid, os[1..]);
      AppendEffect(st, lid, os[0]);
    }
    hide Append;
  }

  lemma {:induction false} PollTimesData(st: State, lid: Lid, k: nat)
    requires k <= |ListAt(st.cs.lists, lid).data|
    ensures ListAt(PollTimes(st, lid, k).cs.lists, lid).data == ListAt(st.cs.lists, lid).data[k..]
    decreases k
  {
    if k > 0 {
      PollTimesData(Poll(st, lid), lid, k - 1);
    }
  }

  // ---- object_set ----

  /** Nothing that the client sees has changed but the field `s`. */
  ghost predicate OnlyField(a: Graph, b: Graph, s: Slot)
  {
    && b.objs == a.objs && b.claims == a.claims && b.which == a.which && b.phantomized == a.phantomized
    && forall x :: x != s ==> (x in b.links <==> x in a.links) && (x in a.links ==> b.links[x] == a.links[x])
  }

  /** A new link of a live object is strong exactly if its target is another object without
      links, and weak if not; that count of the target grows by one. A phantom gets phantom links. */
  lemma NewLinkEffect(st: State, s: Slot, t: Oid, order: seq<Field>)
    ensures var r, n := NewLink(st, s, t, order), st.Num(t);
      s in r.g.links &&
      var l := r.g.links[s];
      l.target == t && l.phantomized == st.g.Ph(s.src) && OnlyField(st.g, r.g, s) && OthersCounted(st, r, t) && r.tasks == st.tasks &&
      (st.g.Ph(s.src) ==> r.Num(t).n0 == n.n0 && r.Num(t).n1 == n.n1 && r.Num(t).n2 == n.n2 + 1) &&
      (!st.g.Ph(s.src) ==>
         (l.which == st.Which(t) <==> t != s.src && st.g.Keys(t) == []) &&
         r.Num(t).Plain(l.which) == n.Plain(l.which) + 1 && r.Num(t).Plain(!l.which) == n.Plain(!l.which) && r.Num(t).n2 == n.n2 &&
         r.collector == st.collector && r.cs == st.cs)
  {
    hide MergeObjs;
  }

  /** Setting a field to what it holds already, or clearing one that holds nothing, does nothing.
      In all other cases the field holds what it is set to, by a link of the kind above, and no
      other field changes. */
  lemma SetFieldEffect(st: State, s: Slot, ref: Option<Oid>, order: seq<Field>)
    ensures var r := SetField(st, s, ref, order);
      OnlyField(st.g, r.g, s) && (s in r.g.links <==> ref.Some?) &&
      (ref == GetField(st.g, s.src, s.field) ==> r == st) &&
      (ref != GetField(st.g, s.src, s.field) && ref.Some? ==>
         var l := r.g.links[s];
         l.target == ref.value && l.phantomized == st.g.Ph(s.src) &&
         (!l.phantomized ==> (l.which == st.Which(ref.value) <==> ref.value != s.src && st.g.Keys(ref.value) == [])))
  {
    hide NewLink, LinkDec;
    assert Slot(s.src, s.field) == s;
    if ref.Some? {
      NewLinkEffect(st, s, ref.value, order);
    }
  }

  // ---- Claims ----

  /** Nothing in the graph has changed but the claims on `o`, by `d`. */
  ghost predicate OnlyClaim(a: Graph, b: Graph, o: Oid, d: int)
  {
    b == a.(claims := b.claims) && b.claims[o] == a.claims[o] + d && forall p :: p != o ==> b.claims[p] == a.claims[p]
  }

  /** acid_malloc: one claim and one strong reference on an object without links, flags or collector. */
  lemma MallocEffect(st: State, o: Oid)
    requires Inv(st) && o !in st.g.objs
    ensures var r := Malloc(st, o);
      r.g.objs == st.g.objs + {o} && r.g.links == st.g.links && r.g.claims[o] == 1 && (forall p :: p != o ==> r.g.claims[p] == st.g.claims[p]) &&
      r.Num(o) == Count(1, 0, 0) && OthersCounted(st, r, o) && !r.Which(o) && !r.g.Ph(o) && r.Coll(o).None? && r.g.Keys(o) == [] &&
      OthersFlagged(st.g, r.g, o) && (forall s :: s in r.g.links ==> s.src != o && r.g.links[s].target != o) &&
      r.cs == st.cs && r.tasks == st.tasks
  {
    Untouched(st, o);
    MallocOthers(st, o);
    hide Inv, OthersCounted, OthersFlagged;
  }

  lemma MallocOthers(st: State, o: Oid)
    requires forall s :: s in st.g.links ==> s.src != o
    ensures OthersCounted(st, Malloc(st, o), o) && OthersFlagged(st.g, Malloc(st, o).g, o)
  {
  }

  lemma Untouched(st: State, o: Oid)
    requires Inv(st) && o !in st.g.objs
    ensures st.g.claims[o] == 0 && forall s :: s in st.g.links ==> s.src != o && st.g.links[s].target != o
  {
    hide Registered, Wired, Pointing, Listed, Counted, Homed, Local, Acyclic, HeldOrCleaned, Scheduled, Positive, Anchored, Settled, Uniform, Balanced;
  }

  /** acid_harden: one claim and one strong reference more. */
  lemma HardenEffect(st: State, o: Oid)
    ensures var r, w := Harden(st, o), st.Which(o);
      OnlyClaim(st.g, r.g, o, 1) && r.Num(o).Plain(w) == st.Num(o).Plain(w) + 1 && r.Num(o).Plain(!w) == st.Num(o).Plain(!w) &&
      r.Num(o).n2 == st.Num(o).n2 && OthersCounted(st, r, o) && r.collector == st.collector && r.cs == st.cs && r.tasks == st.tasks
  {
  }

  /** acid_dissolve: one claim less. With more strong references nothing else happens; if it was
      the last one, the object is queued or, without other references, deleted. */
  lemma DissolveEffect(st: State, o: Oid)
    requires Struct(st) && o in st.g.objs && st.g.claims[o] > 0
    ensures var r, n, w := Dissolve(st, o), st.Num(o), st.Which(o);
      OnlyClaim(st.g, r.g, o, -1) && OthersCounted(st, r, o) &&
      (n.Plain(w) != 1 ==> r.Num(o) == n.AddPlain(w, -1) && r.collector == st.collector && r.cs == st.cs && r.tasks == st.tasks) &&
      (n.Plain(w) == 1 ==> (Enqueued(st, r, o) <==> n.Plain(!w) != 0 || n.n2 != 0)) &&
      (n.Plain(w) == 1 ==> (r.tasks == st.tasks + multiset{DeleteObject(o)} <==> n.Plain(!w) == 0 && n.n2 == 0))
  {
    var s1 := Claims(st, st.g.claims - multiset{o});
    assert Struct(s1) by {
      ClaimsStruct(st, st.g.claims - multiset{o});
    }
    ClaimGone(st, o);
    hide Struct, Dec, Enqueued, OnlyClaim;
    DecDeletes(s1, o, st.Which(o));
    DecQueues(s1, o, st.Which(o));
    EnqueuedSame(st, s1, Dissolve(st, o), o);
    if st.Num(o).Plain(st.Which(o)) != 1 {
      DecCounts(s1, o, st.Which(o));
    }
  }

  lemma ClaimGone(st: State, o: Oid)
    requires st.g.claims[o] > 0
    ensures OnlyClaim(st.g, Dissolve(st, o).g, o, -1)
  {
    hide Dec;
  }

  lemma ClaimsStruct(st: State, claims: multiset<Oid>)
    requires Struct(st)
    ensures Struct(Claims(st, claims))
  {
    hide Registered, Wired, Pointing, Listed, Counted;
  }

  /** Giving up a claim that was just made leaves the heap as it was, exactly if the object had
      a strong reference before. */
  lemma HardenUndone(st: State, o: Oid)
    requires Inv(st) && Reachable(st.g, o)
    ensures Dissolve(Harden(st, o), o) == st <==> st.Num(o).Plain(st.Which(o)) > 0
  {
    ReachableAlive(st, o);
    var s1 := Harden(st, o);
    hide Sane, Balanced, Reachable, Harden, Dissolve, Enqueued;
    InvParts(st, o);
    if st.Num(o).Plain(st.Which(o)) > 0 {
      HardenBack(st, o);
    } else {
      HardenKeeps(st, o);
      HardenEffect(st, o);
      InvParts(s1, o);
      DissolveEffect(s1, o);
      NotEnqueued(s1, st, o);
      assert (s1.tasks + multiset{DeleteObject(o)})[DeleteObject(o)] == s1.tasks[DeleteObject(o)] + 1;
    }
  }

  lemma HardenBack(st: State, o: Oid)
    requires o in st.count && st.Num(o).Plain(st.Which(o)) > 0
    ensures Dissolve(Harden(st, o), o) == st
  {
    var n, w := st.Num(o), st.Which(o);
    hide Suspect, Doom;
    assert n.AddPlain(w, 1).AddPlain(w, -1) == n;
    assert st.count[o := n.AddPlain(w, 1)][o := n] == st.count;
    assert st.g.claims + multiset{o} - multiset{o} == st.g.claims;
  }

  /** An assignment of the object that a variable holds already changes nothing. */
  lemma SetRawSame(st: State, o: Oid)
    requires Inv(st) && st.g.claims[o] > 0
    ensures SetRaw(st, Some(o), o) == st
  {
    hide Sane, Balanced;
    InvParts(st, o);
    ClaimCounted(st, multiset{}, o);
    HardenBack(st, o);
  }

  lemma InvParts(st: State, o: Oid)
    requires Inv(st) && o in st.g.objs
    ensures Struct(st) && o in st.count && st.Num(o).n0 >= 0 && st.Num(o).n1 >= 0 && st.Num(o).n2 >= 0
  {
    hide Registered, Wired, Pointing, Listed, Counted, Homed, Local, Acyclic, HeldOrCleaned, Scheduled, Positive, Anchored, Settled, Uniform;
    CountsNonneg(st, multiset{}, None, o);
  }
}

/** The clean phase of collector_run: the objects that could not be recovered give
    up their links and are handed to the delete task. */
module CleanPhase {
  import opened Sequences
  import opened Wrappers
  import opened Forwarding
  import opened Sums
  import opened Model
  import opened Conservation
  import opened Invariant
  import opened Keeping
  import opened Phantomizing
  import opened CollectPhase
  import opened RecoverPhase

  ghost function CleanMode(c: Cid, hand: Option<Oid>): Mode
  {
    Mode(multiset{}, hand, None, Some(c), {Lid(c, Clean)})
  }

  /** Whoever is still a phantom in the group of `c` has no plain references left. */
  ghost predicate Dead(st: State, c: Cid)
  {
    forall o :: o in st.g.objs && st.g.Ph(o) && !Doomed(st.tasks, o) && GroupOf(st, o) == Some(c) ==> st.Num(o).Unused()
  }

  // ---- Detached links ----

  /** The references that detached links stand for. */
  ghost function LooseOf(ls: seq<Link>): multiset<Ref>
    decreases |ls|
  {
    if ls == [] then multiset{} else multiset{Ref(ls[0].target, ClassOf(ls[0]))} + LooseOf(ls[1..])
  }

  ghost function Slots(o: Oid, ks: seq<Field>): set<Slot>
  {
    set k | k in ks :: Slot(o, k)
  }

  lemma {:induction false} PickedSame(a: Links, b: Links, o: Oid, ks: seq<Field>)
    requires forall k :: k in ks ==> LinkAt(a, Slot(o, k)) == LinkAt(b, Slot(o, k))
    ensures Picked(a, o, ks) == Picked(b, o, ks)
    decreases |ks|
  {
    if ks != [] {
      PickedSame(a, b, o, ks[1..]);
    }
  }

  /** Taking links out of a table turns exactly their references into loose ones. */
  lemma {:induction false} DetachSum(links: Links, o: Oid, ks: seq<Field>, p: Oid, cls: Class)
    requires NoDup(ks) && forall k :: k in ks ==> Slot(o, k) in links
    ensures InLinks(links, p, cls) == InLinks(links - Slots(o, ks), p, cls) + LooseOf(Picked(links, o, ks))[Ref(p, cls)]
    decreases |ks|
  {
    if ks == [] {
      assert links - Slots(o, ks) == links;
    } else {
      var s := Slot(o, ks[0]);
      var rest := links - {s};
      SumRemove(links, LinkInto(p, cls), s);
      forall k | k in ks[1..] ensures k != ks[0] && Slot(o, k) in rest && LinkAt(rest, Slot(o, k)) == LinkAt(links, Slot(o, k)) {
      }
      DetachSum(rest, o, ks[1..], p, cls);
      PickedSame(links, rest, o, ks[1..]);
      assert rest - Slots(o, ks[1..]) == links - Slots(o, ks);
      assert Picked(links, o, ks)[1..] == Picked(links, o, ks[1..]);
    }
  }

  lemma DetachBalanced(st: State, o: Oid, hand: Option<Oid>)
    requires LinksShape(st.g) && o in st.g.objs && Balanced(st, multiset{}, hand)
    ensures Balanced(Detach(st, o), LooseOf(Picked(st.g.links, o, st.g.Keys(o))), hand)
  {
    var ks := st.g.Keys(o);
    var r := Detach(st, o);
    var ls := Picked(st.g.links, o, ks);
    hide LooseOf, Picked, LinksShape, Balance, Detach;
    forall p, cls | p in r.g.objs
      ensures Balance(r, p, cls) == LooseOf(ls)[Ref(p, cls)] + (if cls == Phantom && hand == Some(p) then 1 else 0)
    {
      DetachBalance(st, o, p, cls);
      assert p in st.g.objs && Balance(st, p, cls) == (if cls == Phantom && hand == Some(p) then 1 else 0);
    }
  }

  lemma DetachBalance(st: State, o: Oid, p: Oid, cls: Class)
    requires LinksShape(st.g) && o in st.g.objs
    ensures Balance(Detach(st, o), p, cls) == Balance(st, p, cls) + LooseOf(Picked(st.g.links, o, st.g.Keys(o)))[Ref(p, cls)]
    ensures Detach(st, o).g.objs == st.g.objs
  {
    DetachedLinks(st.g, o);
    DetachSum(st.g.links, o, st.g.Keys(o), p, cls);
    hide InLinks, Entries, LooseOf, Picked, LinksShape;
  }

  lemma DetachedLinks(g: Graph, o: Oid)
    requires LinksShape(g) && o in g.objs
    ensures NoDup(g.Keys(o)) && forall k :: k in g.Keys(o) ==> Slot(o, k) in g.links
    ensures (map s | s in g.links && s.src != o :: g.links[s]) == g.links - Slots(o, g.Keys(o))
  {
    var ks := g.Keys(o);
    forall s | s in g.links ensures s.src == o <==> s in Slots(o, ks) {
      if s.src == o {
        assert s == Slot(o, s.field) && s.field in ks;
      }
    }
  }

  lemma DetachKeeps(st: State, o: Oid, m: Mode)
    requires Sane(st, m) && o in st.g.objs && m.busy.None?
    ensures Sane(Detach(st, o), m)
  {
    hide LinksShape, Registered, Wired, Pointing, Listed, Counted, Homed, Local, Acyclic, Uniform, HeldOrCleaned, Scheduled,
         Positive, Anchored, Settled;
    DetachShape(st.g, o);
    DetachRest(st, o, m);
  }

  lemma DetachShape(g: Graph, o: Oid)
    requires LinksShape(g) && o in g.objs && Acyclic(g) && Uniform(g, None)
    ensures var h := g.(links := map s | s in g.links && s.src != o :: g.links[s], fields := g.fields[o := []]);
      LinksShape(h) && Acyclic(h) && Uniform(h, None)
  {
    var h := g.(links := map s | s in g.links && s.src != o :: g.links[s], fields := g.fields[o := []]);
    AcyclicFewer(g, h);
    hide Acyclic;
  }

  lemma DetachRest(st: State, o: Oid, m: Mode)
    requires Local(st.g.links, st.collector, st.cs.forward) && HeldOrCleaned(st.g, st.collector, st.cs, st.tasks, m)
    requires Scheduled(st.g, st.count, st.cs.forward, st.tasks) && Positive(st.g, st.count, st.tasks)
    ensures var r := Detach(st, o);
      Local(r.g.links, r.collector, r.cs.forward) && HeldOrCleaned(r.g, r.collector, r.cs, r.tasks, m) &&
      Scheduled(r.g, r.count, r.cs.forward, r.tasks) && Positive(r.g, r.count, r.tasks)
  {
    hide Group, Held;
  }

  // ---- object_dec_phantom ----

  /** A phantom reference to `o` is about to be given up. */
  ghost predicate Dropping(st: State, o: Oid, loose: multiset<Ref>, m: Mode)
  {
    && Sane(st, m) && Balanced(st, loose + multiset{Ref(o, Phantom)}, m.hand)
    && o in st.g.objs && m.lp == multiset{} && m.busy.None? && (m.lax.Some? ==> Dead(st, m.lax.value))
  }

  lemma DropCounts(st: State, o: Oid, loose: multiset<Ref>, m: Mode)
    requires Dropping(st, o, loose, m)
    ensures o in st.count && o in st.collector && st.count[o].n2 >= 1 && !Doomed(st.tasks, o)
    ensures st.count[o].n2 == 1 ==> !Held(st.collector, st.cs, m.hand, o) && InLinks(st.g.links, o, Phantom) == 0 && Unlisted(st.cs.lists, o)
    ensures st.count[o].n2 == 1 && m.hand.Some? ==> m.hand != Some(o)
  {
    hide LinksShape, Registered, Wired, Pointing, Listed, Counted, Homed, Local, Acyclic, Uniform, HeldOrCleaned, Positive, Anchored,
         Settled, Group, InLinks, Entries, Dead, Held, Unlisted;
    assert o in st.count && st.Num(o) == st.count[o];
    assert Balance(st, o, Phantom) == (loose + multiset{Ref(o, Phantom)})[Ref(o, Phantom)] + (if m.hand == Some(o) then 1 else 0);
    NotIdleNotDoomed(st, o);
    if st.count[o].n2 == 1 {
      NoEntries(st.cs.lists, o);
      NotHeld(st, m.hand, o);
    }
  }

  /** Whoever loses its last phantom reference either has plain references and
      is no phantom, or has none and no links. */
  lemma DropLast(st: State, o: Oid, loose: multiset<Ref>, m: Mode)
    requires Dropping(st, o, loose, m) && st.count[o].n2 == 1
    ensures st.g.Ph(o) == st.Num(o).Unused()
    ensures st.g.Ph(o) ==> st.g.Keys(o) == []
  {
    DropCounts(st, o, loose, m);
    hide LinksShape, Registered, Wired, Pointing, Listed, Counted, Homed, Local, Acyclic, Uniform, Scheduled, Anchored,
         Settled, Group, InLinks, Entries, Balanced, Held, Unlisted, Doomed;
  }

  lemma DecPhantomKeeps(st: State, o: Oid, loose: multiset<Ref>, m: Mode)
    requires Dropping(st, o, loose, m)
    ensures var r := DecPhantom(st, o);
      Sane(r, m) && Balanced(r, loose, m.hand) && (m.lax.Some? ==> Dead(r, m.lax.value)) &&
      r.cs.lists == st.cs.lists && r.cs.forward == st.cs.forward
    ensures forall p :: p != o || m.hand == Some(p) ==> GroupOf(DecPhantom(st, o), p) == GroupOf(st, p)
  {
    hide Sane, Balanced, Dead, Held, InLinks, Unlisted, GroupOf, Doomed;
    DropCounts(st, o, loose, m);
    DecPhantomBalanced(st, o, loose, m.hand);
    DecPhantomFrame(st, o, m);
    if m.lax.Some? {
      DecPhantomDead(st, o, m.lax.value);
    }
    var n := st.count[o].AddPhantom(-1);
    if n.n2 != 0 {
      DropOneKeeps(st, o, m);
    } else {
      DropLast(st, o, loose, m);
      if n.Unused() {
        DoomKeeps(st, o, n, m);
      } else {
        DropCollKeeps(st, o, m);
      }
    }
  }

  lemma DecPhantomBalanced(st: State, o: Oid, loose: multiset<Ref>, hand: Option<Oid>)
    requires Balanced(st, loose + multiset{Ref(o, Phantom)}, hand)
    ensures Balanced(DecPhantom(st, o), loose, hand)
  {
    hide Balance, DecPhantom;
    var r := DecPhantom(st, o);
    forall p, cls | p in r.g.objs
      ensures Balance(r, p, cls) == loose[Ref(p, cls)] + (if cls == Phantom && hand == Some(p) then 1 else 0)
    {
      DecPhantomBalance(st, o, p, cls);
      assert Balance(st, p, cls) == (loose + multiset{Ref(o, Phantom)})[Ref(p, cls)] + (if cls == Phantom && hand == Some(p) then 1 else 0);
    }
  }

  lemma DecPhantomFrame(st: State, o: Oid, m: Mode)
    requires o in st.count && o in st.collector && (st.count[o].n2 == 1 && m.hand.Some? ==> m.hand != Some(o))
    ensures var r := DecPhantom(st, o); r.cs.lists == st.cs.lists && r.cs.forward == st.cs.forward
    ensures forall p :: p != o || m.hand == Some(p) ==> GroupOf(DecPhantom(st, o), p) == GroupOf(st, p)
  {
    hide Root;
  }

  lemma DecPhantomDead(st: State, o: Oid, c: Cid)
    requires Dead(st, c) && o in st.count && o in st.collector
    ensures Dead(DecPhantom(st, o), c)
  {
    hide Root;
    var r := DecPhantom(st, o);
    forall p | p in r.g.objs && r.g.Ph(p) && !Doomed(r.tasks, p) && GroupOf(r, p) == Some(c)
      ensures r.Num(p).Unused()
    {
      assert !Doomed(st.tasks, p) && GroupOf(st, p) == Some(c);
    }
  }

  lemma DropOneKeeps(st: State, o: Oid, m: Mode)
    requires Sane(st, m) && o in st.g.objs && o in st.count && st.count[o].n2 > 1 && !Doomed(st.tasks, o) && m.lp == multiset{}
    ensures Sane(PutCount(st, o, st.count[o].AddPhantom(-1)), m)
  {
    var n := st.count[o].AddPhantom(-1);
    ScheduledPut(st, o, n);
    PutCountStruct(st, o, n);
    hide LinksShape, Registered, Wired, Pointing, Listed, Counted, Homed, Local, Acyclic, Uniform, HeldOrCleaned, Scheduled, Settled;
  }

  /** The last phantom reference of an object that is alive takes its collector along. */
  lemma DropCollKeeps(st: State, o: Oid, m: Mode)
    requires Sane(st, m) && o in st.g.objs && o in st.count && st.count[o].n2 == 1 && !Doomed(st.tasks, o)
    requires m.lp == multiset{} && m.busy.None?
    requires !st.g.Ph(o) && InLinks(st.g.links, o, Phantom) == 0 && Unlisted(st.cs.lists, o)
    ensures Sane(SetColl(PutCount(st, o, st.count[o].AddPhantom(-1)), o, None), m)
  {
    hide LinksShape, Registered, Wired, Pointing, Listed, Counted, Homed, Local, Acyclic, Uniform, HeldOrCleaned, Scheduled, Settled,
         Positive, Anchored, InLinks, Unlisted, SetColl;
    var n := st.count[o].AddPhantom(-1);
    var s1 := PutCount(st, o, n);
    var r := SetColl(s1, o, None);
    PutCountStruct(st, o, n);
    SetCollStruct(s1, o, None);
    LeftFrame(st, s1, r, r, o);
    LeftHomed(st, r, o);
    LeftHeld(st, r, o, m);
    UntouchedByPhantoms(st.g, o);
    LeftLocal(st, r, o);
    DropCollCounts(st, o);
  }

  lemma UntouchedByPhantoms(g: Graph, o: Oid)
    requires Uniform(g, None) && !g.Ph(o) && InLinks(g.links, o, Phantom) == 0
    ensures Apart(g.links, g.links, o)
  {
    SumZero(g.links, LinkInto(o, Phantom));
  }

  lemma DropCollCounts(st: State, o: Oid)
    requires o in st.count && o in st.collector && st.count[o].n2 == 1 && !Doomed(st.tasks, o)
    requires Positive(st.g, st.count, st.tasks) && Anchored(st.count, st.collector, st.tasks, multiset{})
    requires Scheduled(st.g, st.count, st.cs.forward, st.tasks)
    ensures var r := SetColl(PutCount(st, o, st.count[o].AddPhantom(-1)), o, None);
      Positive(r.g, r.count, r.tasks) && Anchored(r.count, r.collector, r.tasks, multiset{}) &&
      Scheduled(r.g, r.count, r.cs.forward, r.tasks)
  {
    hide SetColl;
    ScheduledPut(st, o, st.count[o].AddPhantom(-1));
  }

  // ---- object_clean_node ----

  /** Giving up detached phantom links one after the other. */
  lemma {:induction false} PhantomDecsKeep(st: State, ls: seq<Link>, c: Cid, o: Oid)
    requires Sane(st, CleanMode(c, Some(o))) && Balanced(st, LooseOf(ls), Some(o)) && Dead(st, c)
    requires forall l :: l in ls ==> l.phantomized && l.target in st.g.objs
    ensures var r := LinkDecs(st, ls);
      Sane(r, CleanMode(c, Some(o))) && Balanced(r, multiset{}, Some(o)) && Dead(r, c) &&
      r.g == st.g && r.cs.lists == st.cs.lists && r.cs.forward == st.cs.forward && GroupOf(r, o) == GroupOf(st, o)
    decreases |ls|
  {
    hide Sane, Dead, GroupOf, Balanced, DecPhantom;
    if ls != [] {
      var l := ls[0];
      assert l in ls;
      var loose := LooseOf(ls[1..]);
      assert LooseOf(ls) == loose + multiset{Ref(l.target, Phantom)};
      DecPhantomKeeps(st, l.target, loose, CleanMode(c, Some(o)));
      PhantomDecsKeep(LinkDec(st, l), ls[1..], c, o);
    }
  }

  lemma {:induction false} PickedAll(links: Links, o: Oid, ks: seq<Field>, l: Link)
    requires l in Picked(links, o, ks) && forall k :: k in ks ==> Slot(o, k) in links
    ensures exists k :: k in ks && l == links[Slot(o, k)]
    decreases |ks|
  {
    if l == LinkAt(links, Slot(o, ks[0])) {
      assert ks[0] in ks;
    } else {
      assert l in Picked(links, o, ks[1..]);
      PickedAll(links, o, ks[1..], l);
      var k :| k in ks[1..] && l == links[Slot(o, k)];
      assert k in ks;
    }
  }

  lemma PickedLinks(g: Graph, o: Oid)
    requires LinksShape(g) && Uniform(g, None) && o in g.objs
    ensures forall l :: l in Picked(g.links, o, g.Keys(o)) ==> l.target in g.objs && l.phantomized == g.Ph(o)
  {
    var ks := g.Keys(o);
    forall l | l in Picked(g.links, o, ks) ensures l.target in g.objs && l.phantomized == g.Ph(o) {
      DetachedLinks(g, o);
      PickedAll(g.links, o, ks, l);
    }
  }

  /** The object in hand has no plain references: it is a dead phantom, and it
      loses its links. */
  lemma StripKeeps(st: State, c: Cid, o: Oid)
    requires Sane(st, CleanMode(c, Some(o))) && Balanced(st, multiset{}, Some(o)) && Dead(st, c)
    requires o in st.g.objs && st.Num(o).Unused() && GroupOf(st, o) == Some(c)
    ensures var r := RemoveLinks(st, o);
      Sane(r, CleanMode(c, Some(o))) && Balanced(r, multiset{}, Some(o)) && Dead(r, c) &&
      r.g == Detach(st, o).g && r.cs.lists == st.cs.lists && r.cs.forward == st.cs.forward && GroupOf(r, o) == GroupOf(st, o)
    ensures st.g.Ph(o)
  {
    UnusedPhantom(st, c, o);
    var m := CleanMode(c, Some(o));
    StripLinks(st, o, m);
    var ls := Picked(st.g.links, o, st.g.Keys(o));
    var s1 := Detach(st, o);
    DetachDead(st, c, o);
    hide Sane, Dead, GroupOf, Balanced, LinkDecs, Picked;
    DetachKeeps(st, o, m);
    PhantomDecsKeep(s1, ls, c, o);
  }

  lemma StripLinks(st: State, o: Oid, m: Mode)
    requires Sane(st, m) && Balanced(st, multiset{}, m.hand) && o in st.g.objs && m.busy.None?
    ensures Balanced(Detach(st, o), LooseOf(Picked(st.g.links, o, st.g.Keys(o))), m.hand)
    ensures forall l :: l in Picked(st.g.links, o, st.g.Keys(o)) ==> l.target in st.g.objs && l.phantomized == st.g.Ph(o)
  {
    hide LinksShape, Registered, Wired, Pointing, Listed, Counted, Homed, Local, Acyclic, Uniform, HeldOrCleaned, Scheduled,
         Positive, Anchored, Settled, Balanced, Detach;
    DetachBalanced(st, o, m.hand);
    PickedLinks(st.g, o);
  }

  lemma DetachDead(st: State, c: Cid, o: Oid)
    requires Dead(st, c)
    ensures Dead(Detach(st, o), c) && GroupOf(Detach(st, o), o) == GroupOf(st, o)
  {
    hide Root;
    var r := Detach(st, o);
    forall p ensures GroupOf(r, p) == GroupOf(st, p) && r.Num(p) == st.Num(p) && r.g.Ph(p) == st.g.Ph(p) {}
    hide GroupOf;
  }

  lemma UnusedPhantom(st: State, c: Cid, o: Oid)
    requires Sane(st, CleanMode(c, Some(o))) && Balanced(st, multiset{}, Some(o))
    requires o in st.g.objs && st.Num(o).Unused()
    ensures st.g.Ph(o) && !Doomed(st.tasks, o)
  {
    hide LinksShape, Registered, Wired, Pointing, Listed, Counted, Homed, Local, Acyclic, Uniform, HeldOrCleaned,
         Anchored, Settled;
    HandCounted(st, o);
    NotIdleNotDoomed(st, o);
  }

  lemma HandCounted(st: State, o: Oid)
    requires Balanced(st, multiset{}, Some(o)) && o in st.g.objs
    ensures st.Num(o).n2 >= 1
  {
    hide InLinks, Entries;
    assert Balance(st, o, Phantom) == 1;
  }

  /** The entry in hand is one more reference to give up. */
  lemma HandToLoose(st: State, o: Oid)
    requires Balanced(st, multiset{}, Some(o))
    ensures Balanced(st, multiset{} + multiset{Ref(o, Phantom)}, None)
  {
    hide Balance;
  }

  /** An object without links, or without the phantom flag, need not be held. */
  lemma LetGo(st: State, c: Cid, o: Oid)
    requires Sane(st, CleanMode(c, Some(o))) && GroupOf(st, o) == Some(c) && (st.g.Ph(o) && !Doomed(st.tasks, o) ==> st.g.Keys(o) == [])
    ensures Sane(st, CleanMode(c, None))
  {
    hide Struct, Homed, Local, Positive, Anchored, Scheduled, Uniform, Acyclic, Settled, Group;
    assert Group(st.collector, st.cs.forward, o) == Some(c);
  }

  lemma CleanNodeKeeps(st: State, c: Cid, o: Oid)
    requires Sane(st, CleanMode(c, Some(o))) && Balanced(st, multiset{}, Some(o)) && Dead(st, c)
    requires o in st.g.objs && GroupOf(st, o) == Some(c)
    ensures var r := CleanNode(st, o);
      Sane(r, CleanMode(c, None)) && Balanced(r, multiset{}, None) && Dead(r, c) &&
      r.g == (if st.Num(o).Unused() then Detach(st, o).g else st.g) && (st.Num(o).Unused() ==> st.g.Ph(o)) &&
      r.cs.lists == st.cs.lists && r.cs.forward == st.cs.forward
  {
    var s1 := if st.Num(o).Unused() then RemoveLinks(st, o) else st;
    hide Sane, Dead, GroupOf, Balanced, RemoveLinks, DecPhantom, Doomed, Detach;
    if st.Num(o).Unused() {
      StripKeeps(st, c, o);
      DetachFlags(st, o);
    } else {
      StillUsed(st, c, o);
    }
    LetGo(s1, c, o);
    HandToLoose(s1, o);
    DecPhantomKeeps(s1, o, multiset{}, CleanMode(c, None));
  }

  lemma DetachFlags(st: State, o: Oid)
    ensures Detach(st, o).g.objs == st.g.objs && Detach(st, o).g.Keys(o) == []
  {
  }

  lemma StillUsed(st: State, c: Cid, o: Oid)
    requires Dead(st, c) && o in st.g.objs && GroupOf(st, o) == Some(c) && !st.Num(o).Unused()
    ensures st.g.Ph(o) && !Doomed(st.tasks, o) ==> st.g.Keys(o) == []
  {
  }

  // ---- The loop ----

  ghost predicate CleanInv(st: State, c: Cid)
  {
    && Sane(st, CleanMode(c, None)) && Balanced(st, multiset{}, None) && Dead(st, c)
    && c in st.cs.forward && Data(st.cs.lists, c, Collect) == [] && Data(st.cs.lists, c, Merged) == []
  }

  lemma CleanStart(st: State, c: Cid)
    requires RebuildingInv(st, c) && Data(st.cs.lists, c, Rebuild) == []
    ensures CleanInv(st, c)
  {
    DeadStart(st, c);
    hide Struct, Homed, Local, Positive, Anchored, Scheduled, Uniform, Acyclic, GroupOf, Balanced, Dead, HeldOrCleaned, Awaited;
    StartHeld(st, c);
  }

  lemma StartHeld(st: State, c: Cid)
    requires HeldOrCleaned(st.g, st.collector, st.cs, st.tasks, RecoverMode(c, None, None))
    ensures HeldOrCleaned(st.g, st.collector, st.cs, st.tasks, CleanMode(c, None))
  {
    hide Held, Group;
  }

  lemma DeadStart(st: State, c: Cid)
    requires RebuildingInv(st, c) && Data(st.cs.lists, c, Rebuild) == []
    ensures Dead(st, c)
  {
    RecoveryFixpoint(st, c);
    hide RebuildingInv, GroupOf;
  }

  ghost function CleanStep(st: State, c: Cid): State
    requires Data(st.cs.lists, c, Clean) != []
  {
    CleanNode(Poll(st, Lid(c, Clean)), Head(st, c, Clean))
  }

  /** What one round does to the object graph: nothing, or the links of one dead
      phantom of the group are gone. */
  ghost predicate Stripped(a: State, b: State, c: Cid)
  {
    b.g == a.g ||
    exists o :: o in a.g.objs && a.g.Ph(o) && a.Num(o).Unused() && GroupOf(a, o) == Some(c) && b.g == Detach(a, o).g
  }

  lemma CleanStepKeeps(st: State, c: Cid)
    requires CleanInv(st, c) && Data(st.cs.lists, c, Clean) != []
    ensures var r := CleanStep(st, c);
      CleanInv(r, c) && Stripped(st, r, c) && OnlyOwn(st.cs, r.cs, c) &&
      |Data(r.cs.lists, c, Clean)| < |Data(st.cs.lists, c, Clean)|
  {
    hide Sane, Balanced, Poll, GroupOf, Dead, CleanNode;
    var o := Head(st, c, Clean);
    var lid := Lid(c, Clean);
    var s1 := Poll(st, lid);
    PollKeeps(st, lid, CleanMode(c, None));
    PollBalanced(st, lid);
    PollJoined(st, lid, o);
    PollShorter(st, c, Clean);
    PollGroup(st, lid, o);
    PollDead(st, lid, c);
    CleanNodeKeeps(s1, c, o);
  }

  lemma PollDead(st: State, lid: Lid, c: Cid)
    requires ListAt(st.cs.lists, lid).data != [] && Dead(st, c)
    ensures Dead(Poll(st, lid), c)
    ensures forall p :: Poll(st, lid).Num(p) == st.Num(p)
  {
    hide Root;
    forall p ensures GroupOf(Poll(st, lid), p) == GroupOf(st, p) && Poll(st, lid).Num(p) == st.Num(p) {}
    hide GroupOf;
  }

  ghost function CleanLoop(st: State, c: Cid): (r: State)
    requires CleanInv(st, c)
    ensures CleanInv(r, c) && Data(r.cs.lists, c, Clean) == [] && OnlyOwn(st.cs, r.cs, c)
    decreases |Data(st.cs.lists, c, Clean)|
  {
    if Data(st.cs.lists, c, Clean) == [] then st
    else
      CleanStepKeeps(st, c);
      CleanLoop(CleanStep(st, c), c)
  }

  // ---- The end of a run ----

  lemma EmptyLists(st: State, c: Cid)
    requires CleanInv(st, c) && Data(st.cs.lists, c, Clean) == []
    ensures forall k :: Data(st.cs.lists, c, k) == []
  {
    hide Homed, Local, Positive, Anchored, Scheduled, Uniform, Acyclic, HeldOrCleaned, LinksShape, Wired, Pointing, Listed, Counted, Root, Dead, Balanced;
    HasList(st.cs, c, Recovery);
    HasList(st.cs, c, Rebuild);
  }

  /** After the clean loop no phantom is left in the group. */
  lemma NoPhantomLeft(st: State, c: Cid, o: Oid)
    requires CleanInv(st, c) && Data(st.cs.lists, c, Clean) == []
    requires o in st.g.objs && st.g.Ph(o) && !Doomed(st.tasks, o)
    ensures GroupOf(st, o) != Some(c)
  {
    hide Homed, Local, Positive, Anchored, Scheduled, Uniform, Acyclic, HeldOrCleaned, LinksShape, Registered, Wired, Pointing, Listed, Counted, Root, Dead, Balanced;
    EmptyLists(st, c);
    if GroupOf(st, o) == Some(c) {
      LeftoverCounted(st, c, o);
      var s := SumWitness(st.g.links, LinkInto(o, Phantom));
      LeftoverLink(st, c, s);
      SameEnds(st, s);
      assert false;
    }
  }

  lemma LeftoverCounted(st: State, c: Cid, o: Oid)
    requires CleanInv(st, c) && forall k :: Data(st.cs.lists, c, k) == []
    requires o in st.g.objs && !Doomed(st.tasks, o) && GroupOf(st, o) == Some(c)
    ensures InLinks(st.g.links, o, Phantom) > 0
  {
    hide Local, Positive, Scheduled, Uniform, Acyclic, HeldOrCleaned, LinksShape, Registered, Wired, Pointing, Listed, Counted, Root, Dead,
         InLinks, Entries, Settled;
    assert st.count[o].n2 > 0;
    assert Balance(st, o, Phantom) == 0;
    forall lid | lid in st.cs.lists && lid.kind != Rebuild ensures o !in st.cs.lists[lid].data {
      assert Data(st.cs.lists, c, lid.kind) == [] && lid == Lid(lid.coll, lid.kind);
      assert o in st.cs.lists[lid].data ==> Group(st.collector, st.cs.forward, o) == Some(lid.coll);
    }
    NoEntriesSum(st.cs.lists, o);
  }

  lemma NoEntriesSum(lists: Lists, o: Oid)
    requires Unlisted(lists, o)
    ensures Entries(lists, o, false) == 0
  {
    assert forall lid :: lid in lists ==> Entry(o, false)(lid, lists[lid]) == 0;
    SumZero(lists, Entry(o, false));
  }

  /** With empty lists, no phantom link comes from the group. */
  lemma LeftoverLink(st: State, c: Cid, s: Slot)
    requires CleanInv(st, c) && forall k :: Data(st.cs.lists, c, k) == []
    requires s in st.g.links && st.g.links[s].phantomized
    ensures GroupOf(st, s.src) != Some(c)
  {
    hide Homed, Local, Positive, Anchored, Acyclic, Registered, Wired, Pointing, Listed, Counted, Root, Dead, Balanced, Settled;
    assert st.g.Ph(s.src) && s.field in st.g.Keys(s.src);
  }

  lemma SameEnds(st: State, s: Slot)
    requires Local(st.g.links, st.collector, st.cs.forward) && s in st.g.links && st.g.links[s].phantomized
    ensures GroupOf(st, s.src) == GroupOf(st, st.g.links[s].target)
  {
    hide Group;
  }

  /** The heap is at rest again when the clean loop has ended. */
  lemma CleanEnd(st: State, c: Cid)
    requires CleanInv(st, c) && Data(st.cs.lists, c, Clean) == []
    ensures Sane(st, AtRest)
  {
    EmptyLists(st, c);
    forall o | o in st.g.objs && st.g.Ph(o) && !Doomed(st.tasks, o) ensures GroupOf(st, o) != Some(c) {
      NoPhantomLeft(st, c, o);
    }
    EndHeld(st, c);
    hide Struct, Homed, Local, Positive, Anchored, Scheduled, Uniform, Acyclic, GroupOf, Balanced, HeldOrCleaned, Dead;
  }

  lemma EndHeld(st: State, c: Cid)
    requires HeldOrCleaned(st.g, st.collector, st.cs, st.tasks, CleanMode(c, None))
    requires forall o :: o in st.g.objs && st.g.Ph(o) && !Doomed(st.tasks, o) ==> GroupOf(st, o) != Some(c)
    ensures HeldOrCleaned(st.g, st.collector, st.cs, st.tasks, AtRest)
  {
    hide Root, Held;
  }
}

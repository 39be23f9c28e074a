/** What the client can reach, and why the collector never touches it. */
module Reach {
  import opened Wrappers
  import opened Forwarding
  import opened Sums
  import opened Model
  import opened Conservation
  import opened Invariant
  import opened Keeping
  import opened Phantomizing
  import opened CollectPhase
  import opened RecoverPhase
  import opened CleanPhase

  ghost predicate Edge(g: Graph, a: Oid, b: Oid)
  {
    exists s :: s in g.links && s.src == a && g.links[s].target == b
  }

  /** A chain of links from a claimed object. */
  ghost predicate Path(g: Graph, p: seq<Oid>)
  {
    |p| > 0 && g.claims[p[0]] > 0 && forall i :: 0 <= i < |p| - 1 ==> Edge(g, p[i], p[i + 1])
  }

  ghost predicate Reachable(g: Graph, o: Oid)
  {
    exists p :: Path(g, p) && p[|p| - 1] == o
  }

  lemma ClaimReach(g: Graph, o: Oid)
    requires g.claims[o] > 0
    ensures Reachable(g, o)
  {
    assert Path(g, [o]) && [o][|[o]| - 1] == o;
  }

  lemma EdgeReach(g: Graph, a: Oid, b: Oid)
    requires Reachable(g, a) && Edge(g, a, b)
    ensures Reachable(g, b)
  {
    var p :| Path(g, p) && p[|p| - 1] == a;
    var q := p + [b];
    forall i | 0 <= i < |q| - 1 ensures Edge(g, q[i], q[i + 1]) {
      if i < |p| - 1 {
        assert q[i] == p[i] && q[i + 1] == p[i + 1];
      }
    }
    assert Path(g, q) && q[|q| - 1] == b;
  }

  /** A set without claims that is closed under predecessors cannot be reached. */
  ghost predicate CutOff(g: Graph, x: set<Oid>)
  {
    (forall o :: o in x ==> g.claims[o] == 0) && (forall s :: s in g.links && g.links[s].target in x ==> s.src in x)
  }

  lemma CutOffUnreachable(g: Graph, x: set<Oid>, o: Oid)
    requires CutOff(g, x) && o in x
    ensures !Reachable(g, o)
  {
    if Reachable(g, o) {
      var p :| Path(g, p) && p[|p| - 1] == o;
      CutOffPath(g, x, p);
    }
  }

  lemma {:induction false} CutOffPath(g: Graph, x: set<Oid>, p: seq<Oid>)
    requires CutOff(g, x) && Path(g, p)
    ensures p[|p| - 1] !in x
    decreases |p|
  {
    if |p| > 1 {
      var q := p[..|p| - 1];
      forall i | 0 <= i < |q| - 1 ensures Edge(g, q[i], q[i + 1]) {
        assert Edge(g, p[i], p[i + 1]);
      }
      CutOffPath(g, x, q);
      var a, b := p[|p| - 2], p[|p| - 1];
      assert a == q[|q| - 1] && Edge(g, a, p[|p| - 2 + 1]);
      var s :| s in g.links && s.src == a && g.links[s].target == b;
    } else {
      assert p[|p| - 1] == p[0] && g.claims[p[0]] > 0;
    }
  }

  /** `b` still has everything that can be reached in `a`, and no new links. */
  ghost predicate Spared(a: Graph, b: Graph)
  {
    && b.claims == a.claims
    && (forall s :: s in b.links ==> s in a.links && b.links[s].target == a.links[s].target)
    && (forall s :: s in a.links && Reachable(a, s.src) ==> s in b.links)
    && (forall o :: o in a.objs && Reachable(a, o) ==> o in b.objs)
  }

  lemma SparedRefl(a: Graph)
    ensures Spared(a, a)
  {
  }

  lemma SparedReach(a: Graph, b: Graph)
    requires Spared(a, b)
    ensures forall o :: Reachable(b, o) <==> Reachable(a, o)
  {
    forall o | Reachable(b, o) ensures Reachable(a, o) {
      var p :| Path(b, p) && p[|p| - 1] == o;
      forall i | 0 <= i < |p| - 1 ensures Edge(a, p[i], p[i + 1]) {
        assert Edge(b, p[i], p[i + 1]);
        var s :| s in b.links && s.src == p[i] && b.links[s].target == p[i + 1];
        assert s in a.links && a.links[s].target == p[i + 1];
      }
      assert Path(a, p);
    }
    forall o | Reachable(a, o) ensures Reachable(b, o) {
      var p :| Path(a, p) && p[|p| - 1] == o;
      SparedPath(a, b, p);
    }
  }

  lemma {:induction false} SparedPath(a: Graph, b: Graph, p: seq<Oid>)
    requires Spared(a, b) && Path(a, p)
    ensures Reachable(b, p[|p| - 1]) && Reachable(a, p[|p| - 1])
    decreases |p|
  {
    if |p| == 1 {
      ClaimReach(a, p[0]);
      ClaimReach(b, p[0]);
    } else {
      var q := p[..|p| - 1];
      forall i | 0 <= i < |q| - 1 ensures Edge(a, q[i], q[i + 1]) {
        assert Edge(a, p[i], p[i + 1]);
      }
      SparedPath(a, b, q);
      var x, y := p[|p| - 2], p[|p| - 1];
      assert Edge(a, p[|p| - 2], p[|p| - 2 + 1]);
      var s :| s in a.links && s.src == x && a.links[s].target == y;
      assert s in b.links;
      EdgeReach(a, x, y);
      EdgeReach(b, x, y);
    }
  }

  lemma SparedTrans(a: Graph, b: Graph, c: Graph)
    requires Spared(a, b) && Spared(b, c)
    ensures Spared(a, c)
  {
    SparedReach(a, b);
  }

  lemma SameTargetsSpared(a: Graph, b: Graph)
    requires SameTargets(a, b)
    ensures Spared(a, b)
  {
  }

  // ---- Objects about to be deleted ----

  /** An object without counted references has no in-links and no claims. */
  lemma IdleAlone(st: State, o: Oid)
    requires Balanced(st, multiset{}, None) && o in st.g.objs && st.Num(o).Idle()
    ensures st.g.claims[o] == 0 && forall s :: s in st.g.links ==> st.g.links[s].target != o
    ensures Unlisted(st.cs.lists, o)
  {
    assert Balance(st, o, Bit(false)) == 0 && Balance(st, o, Bit(true)) == 0 && Balance(st, o, Phantom) == 0;
    NoEntries(st.cs.lists, o);
    hide Entries, Unlisted;
    forall s | s in st.g.links ensures st.g.links[s].target != o {
      if st.g.links[s].target == o {
        SumAtLeast(st.g.links, LinkInto(o, ClassOf(st.g.links[s])), s);
      }
    }
  }

  /** Whatever is handed to the delete task cannot be reached. */
  lemma DoomedUnreachable(st: State, m: Mode, o: Oid)
    requires Sane(st, m) && Balanced(st, multiset{}, None) && Doomed(st.tasks, o)
    ensures !Reachable(st.g, o)
  {
    hide LinksShape, Registered, Wired, Pointing, Listed, Counted, Homed, Local, Acyclic, Positive, Anchored, Uniform, HeldOrCleaned, Settled, Balanced, Reachable;
    IdleAlone(st, o);
    CutOffUnreachable(st.g, {o}, o);
  }

  // ---- Objects that lose their links in the clean phase ----

  /** The phantoms that are left in the group of `c`. */
  ghost predicate Leftover(st: State, c: Cid, o: Oid)
  {
    o in st.g.objs && st.g.Ph(o) && !Doomed(st.tasks, o) && GroupOf(st, o) == Some(c)
  }

  lemma LeftoverClosed(st: State, c: Cid, o: Oid)
    requires CleanInv(st, c) && Leftover(st, c, o)
    ensures st.g.claims[o] == 0
    ensures forall s :: s in st.g.links && st.g.links[s].target == o ==> Leftover(st, c, s.src)
  {
    hide Registered, Wired, Pointing, Listed, Counted, Homed, Acyclic, Positive, Anchored, HeldOrCleaned, Settled, Group, InLinks, Entries;
    assert st.Num(o).Unused();
    assert Balance(st, o, Bit(false)) == 0 && Balance(st, o, Bit(true)) == 0;
    forall s | s in st.g.links && st.g.links[s].target == o ensures Leftover(st, c, s.src) {
      if !st.g.links[s].phantomized {
        PlainLinkCounts(st.g.links, s);
        assert false;
      }
      assert Group(st.collector, st.cs.forward, s.src) == Some(c);
      assert st.g.Keys(s.src) != [];
    }
  }

  lemma PlainLinkCounts(links: Links, s: Slot)
    requires s in links
    ensures InLinks(links, links[s].target, ClassOf(links[s])) > 0
  {
    SumAtLeast(links, LinkInto(links[s].target, ClassOf(links[s])), s);
  }

  /** Whatever is stripped of its links by object_clean_node cannot be reached. */
  lemma LeftoverUnreachable(st: State, c: Cid, o: Oid)
    requires CleanInv(st, c) && Leftover(st, c, o)
    ensures !Reachable(st.g, o)
  {
    var x := set p | p in st.g.objs && Leftover(st, c, p);
    hide CleanInv, Leftover, Reachable;
    forall p | p in x ensures st.g.claims[p] == 0 && forall s :: s in st.g.links && st.g.links[s].target == p ==> s.src in x {
      LeftoverClosed(st, c, p);
      LeftoverIn(st, c);
    }
    LeftoverIn(st, c);
    CutOffUnreachable(st.g, x, o);
  }

  lemma LeftoverIn(st: State, c: Cid)
    ensures forall o :: Leftover(st, c, o) ==> o in st.g.objs
  {
  }

  lemma StrippedSpared(st: State, r: State, c: Cid)
    requires CleanInv(st, c) && Stripped(st, r, c)
    ensures Spared(st.g, r.g)
  {
    if r.g == st.g {
      SparedRefl(st.g);
    } else {
      var o :| o in st.g.objs && st.g.Ph(o) && st.Num(o).Unused() && GroupOf(st, o) == Some(c) && r.g == Detach(st, o).g;
      StrippedLive(st, c, o);
      DetachSpared(st, o);
      hide *;
    }
  }

  lemma DetachSpared(st: State, o: Oid)
    requires !Reachable(st.g, o)
    ensures Spared(st.g, Detach(st, o).g)
  {
    hide Reachable;
  }

  lemma StrippedObjs(st: State, r: State, c: Cid)
    requires Stripped(st, r, c)
    ensures r.g.objs == st.g.objs
  {
    hide GroupOf;
  }

  lemma StrippedLive(st: State, c: Cid, o: Oid)
    requires CleanInv(st, c) && o in st.g.objs && GroupOf(st, o) == Some(c) && st.g.Ph(o)
    ensures !Reachable(st.g, o)
  {
    if Doomed(st.tasks, o) {
      DoomedUnreachable(st, CleanMode(c, None), o);
    } else {
      LeftoverUnreachable(st, c, o);
    }
  }

  lemma {:induction false} CleanLoopSpared(st: State, c: Cid)
    requires CleanInv(st, c)
    ensures Spared(st.g, CleanLoop(st, c).g) && CleanLoop(st, c).g.objs == st.g.objs
    decreases |Data(st.cs.lists, c, Clean)|
  {
    hide CleanInv, Spared, CleanStep, Stripped;
    if Data(st.cs.lists, c, Clean) == [] {
      SparedRefl(st.g);
    } else {
      CleanStepKeeps(st, c);
      StrippedObjs(st, CleanStep(st, c), c);
      StrippedSpared(st, CleanStep(st, c), c);
      CleanLoopSpared(CleanStep(st, c), c);
      SparedTrans(st.g, CleanStep(st, c).g, CleanLoop(CleanStep(st, c), c).g);
    }
  }
}

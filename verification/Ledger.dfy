/** What the client has done, told without the collector: which claims it holds and what it
    has put into which field. All that the client can see of the heap, and all that is left
    of it once the tasks are done, follows from these. */
module Ledger {
  import opened Wrappers
  import opened Model
  import opened Invariant
  import opened Reach
  import opened Runs
  import opened Deletion
  import opened Mutators
  import opened Effects
  import opened Machine
  import opened Drain

  /** How many claims the client holds on an object that it was last given by acid_malloc. */
  ghost function Claimed(es: seq<Event>, o: Oid): int
    decreases |es|
  {
    if es == [] then 0 else Reclaimed(Claimed(es[..|es| - 1], o), es[|es| - 1], o)
  }

  ghost function Reclaimed(before: int, e: Event, o: Oid): int
  {
    match e
    case Allocate(p) => if p == o then 1 else before
    case Claim(p) => before + if p == o then 1 else 0
    case Unclaim(p) => before - if p == o then 1 else 0
    case Assign(prior, val) => before + (if val == o then 1 else 0) - if prior == Some(o) then 1 else 0
    case Set(_, _, _) => before
    case Work(_) => before
  }

  /** What the client has last put into a field. */
  ghost function Content(es: seq<Event>, s: Slot): Option<Oid>
    decreases |es|
  {
    if es == [] then None else Rewritten(Content(es[..|es| - 1], s), es[|es| - 1], s)
  }

  ghost function Rewritten(before: Option<Oid>, e: Event, s: Slot): Option<Oid>
  {
    match e
    case Allocate(p) => if p == s.src then None else before
    case Set(x, ref, _) => if x == s then ref else before
    case _ => before
  }

  // ---- One step ----

  lemma StepClaims(st: State, e: Event, o: Oid)
    requires Inv(st) && Enabled(st, e)
    ensures Step(st, e).g.claims[o] == Reclaimed(st.g.claims[o], e, o)
  {
    hide Inv, Reachable, MaySet, Malloc, Harden, Dissolve, SetRaw, SetField, CollectorRun, DeleteTask;
    match e {
      case Allocate(p) => MallocEffect(st, p);
      case Claim(p) => HardenEffect(st, p);
      case Unclaim(p) => ClaimGone(st, p);
      case Assign(prior, val) => AssignClaims(st, prior, val, o);
      case Set(s, ref, order) => SetFieldEffect(st, s, ref, order);
      case Work(t) => assert Spared(st.g, Step(st, e).g);
    }
  }

  lemma AssignClaims(st: State, prior: Option<Oid>, val: Oid, o: Oid)
    requires prior.Some? ==> st.g.claims[prior.value] > 0
    ensures SetRaw(st, prior, val).g.claims[o] == st.g.claims[o] + (if val == o then 1 else 0) - if prior == Some(o) then 1 else 0
    ensures SetRaw(st, prior, val).g == st.g.(claims := SetRaw(st, prior, val).g.claims)
  {
    hide Harden, Dissolve;
    HardenEffect(st, val);
    if prior.Some? {
      ClaimGone(Harden(st, val), prior.value);
    }
  }

  /** Whatever can be reached after a step could be reached before, or is the new object. */
  ghost predicate NothingGained(a: Graph, b: Graph, e: Event)
  {
    forall o :: Reachable(b, o) ==> Reachable(a, o) || e == Allocate(o)
  }

  lemma {:induction false} PathBack(a: Graph, b: Graph, newborn: set<Oid>, p: seq<Oid>)
    requires forall o :: b.claims[o] > 0 ==> o in newborn || Reachable(a, o)
    requires forall s :: s in b.links ==> s.src !in newborn && ((s in a.links && a.links[s].target == b.links[s].target) || Reachable(a, b.links[s].target))
    requires Path(b, p)
    ensures p[|p| - 1] in newborn || Reachable(a, p[|p| - 1])
    decreases |p|
  {
    if |p| > 1 {
      var q := p[..|p| - 1];
      forall i | 0 <= i < |q| - 1 ensures Edge(b, q[i], q[i + 1]) {
        assert Edge(b, p[i], p[i + 1]);
      }
      PathBack(a, b, newborn, q);
      assert Edge(b, p[|p| - 2], p[|p| - 2 + 1]);
      var s :| s in b.links && s.src == p[|p| - 2] && b.links[s].target == p[|p| - 1];
      if s in a.links && a.links[s].target == b.links[s].target {
        assert Edge(a, s.src, p[|p| - 1]);
        EdgeReach(a, s.src, p[|p| - 1]);
      }
    }
  }

  lemma ReachBack(a: Graph, b: Graph, newborn: set<Oid>)
    requires forall o :: b.claims[o] > 0 ==> o in newborn || Reachable(a, o)
    requires forall s :: s in b.links ==> s.src !in newborn && ((s in a.links && a.links[s].target == b.links[s].target) || Reachable(a, b.links[s].target))
    ensures forall o :: Reachable(b, o) ==> o in newborn || Reachable(a, o)
  {
    forall o | Reachable(b, o) ensures o in newborn || Reachable(a, o) {
      var p :| Path(b, p) && p[|p| - 1] == o;
      PathBack(a, b, newborn, p);
    }
  }

  lemma StepGains(st: State, e: Event)
    requires Inv(st) && Enabled(st, e)
    ensures NothingGained(st.g, Step(st, e).g, e)
  {
    hide Inv, Reachable, Malloc, Harden, Dissolve, SetRaw, SetField, CollectorRun, DeleteTask;
    var r := Step(st, e);
    forall o | st.g.claims[o] > 0 ensures Reachable(st.g, o) {
      ClaimReach(st.g, o);
    }
    match e {
      case Allocate(p) => MallocEffect(st, p); ReachBack(st.g, r.g, {p});
      case Claim(p) => HardenEffect(st, p); ReachBack(st.g, r.g, {});
      case Unclaim(p) => ClaimGone(st, p); ReachBack(st.g, r.g, {});
      case Assign(prior, val) =>
        forall o ensures r.g.claims[o] > 0 ==> Reachable(st.g, o) {
          AssignClaims(st, prior, val, o);
        }
        AssignClaims(st, prior, val, val);
        ReachBack(st.g, r.g, {});
      case Set(s, ref, order) => SetFieldEffect(st, s, ref, order); ReachBack(st.g, r.g, {});
      case Work(t) => SparedReach(st.g, r.g);
    }
  }

  /** A step changes no field that can be reached but the one that it sets, and a new object has
      empty fields. */
  lemma StepContent(st: State, e: Event, s: Slot)
    requires Inv(st) && Enabled(st, e) && (Reachable(st.g, s.src) || e == Allocate(s.src))
    ensures GetField(Step(st, e).g, s.src, s.field) == Rewritten(GetField(st.g, s.src, s.field), e, s)
  {
    hide Inv, Reachable, Malloc, Harden, Dissolve, SetRaw, SetField, CollectorRun, DeleteTask;
    var r := Step(st, e);
    assert Slot(s.src, s.field) == s;
    match e {
      case Allocate(p) => MallocEffect(st, p);
      case Claim(p) => HardenEffect(st, p);
      case Unclaim(p) => ClaimGone(st, p);
      case Assign(prior, val) => AssignClaims(st, prior, val, val);
      case Set(x, ref, order) => GetAfterSet(st, x, ref, order, s);
      case Work(t) => assert Spared(st.g, r.g);
    }
  }

  // ---- Whole runs ----

  lemma LastStep(es: seq<Event>) returns (st: State, e: Event)
    requires Run(es) && es != []
    ensures Run(es[..|es| - 1]) && st == After(es[..|es| - 1]) && e == es[|es| - 1]
    ensures Enabled(st, e) && After(es) == Step(st, e)
  {
    hide Enabled, Step, Inv;
    st, e := After(es[..|es| - 1]), es[|es| - 1];
  }

  /** After any run, the claims that the heap knows of are those that the client has made and
      not given up. */
  lemma {:induction false} ClaimsKept(es: seq<Event>, o: Oid)
    requires Run(es)
    ensures After(es).g.claims[o] == Claimed(es, o)
    decreases |es|
  {
    hide Inv, Step, Enabled, Run, After;
    if es == [] {
      NothingAtFirst();
    } else {
      var st, e := LastStep(es);
      ClaimsKept(es[..|es| - 1], o);
      StepClaims(st, e, o);
    }
  }

  lemma NothingAtFirst()
    ensures Run([]) && After([]) == Empty && forall o :: !Reachable(Empty.g, o)
  {
  }

  /** After any run, every field of every object that the client can reach holds what the
      client has last put there, whatever the collector did in between. */
  lemma {:induction false} FieldsKept(es: seq<Event>, s: Slot)
    requires Run(es) && Reachable(After(es).g, s.src)
    ensures GetField(After(es).g, s.src, s.field) == Content(es, s)
    decreases |es|
  {
    hide Inv, Step, Enabled, Run, After, Reachable;
    if es == [] {
      NothingAtFirst();
    } else {
      var st, e := LastStep(es);
      StepGains(st, e);
      StepContent(st, e, s);
      if Reachable(st.g, s.src) {
        FieldsKept(es[..|es| - 1], s);
      }
    }
  }

  // ---- The client's view ----

  ghost predicate Leads(es: seq<Event>, a: Oid, b: Oid)
  {
    exists k :: Content(es, Slot(a, k)) == Some(b)
  }

  /** A chain of fields from a claim, by the client's own account. */
  ghost predicate Chain(es: seq<Event>, p: seq<Oid>)
  {
    |p| > 0 && Claimed(es, p[0]) > 0 && forall i :: 0 <= i < |p| - 1 ==> Leads(es, p[i], p[i + 1])
  }

  /** The objects that the client can get at, by its own account. */
  ghost predicate Wanted(es: seq<Event>, o: Oid)
  {
    exists p :: Chain(es, p) && p[|p| - 1] == o
  }

  lemma {:induction false} ChainReach(es: seq<Event>, p: seq<Oid>)
    requires Run(es) && Chain(es, p)
    ensures Path(After(es).g, p) && Reachable(After(es).g, p[|p| - 1])
    decreases |p|
  {
    hide Inv, Run, After, Reachable, Content, Claimed;
    var g := After(es).g;
    ClaimsKept(es, p[0]);
    if |p| == 1 {
      ClaimReach(g, p[0]);
    } else {
      var q, a, b := p[..|p| - 1], p[|p| - 2], p[|p| - 1];
      forall i | 0 <= i < |q| - 1 ensures Leads(es, q[i], q[i + 1]) {
        assert Leads(es, p[i], p[i + 1]);
      }
      ChainReach(es, q);
      assert Leads(es, p[|p| - 2], p[|p| - 2 + 1]);
      var k :| Content(es, Slot(a, k)) == Some(b);
      FieldsKept(es, Slot(a, k));
      assert Edge(g, a, b);
      EdgeReach(g, a, b);
    }
  }

  lemma {:induction false} PathChain(es: seq<Event>, p: seq<Oid>)
    requires Run(es) && Path(After(es).g, p)
    ensures Chain(es, p)
    decreases |p|
  {
    hide Inv, Run, After, Reachable, Content, Claimed;
    var g := After(es).g;
    ClaimsKept(es, p[0]);
    if |p| > 1 {
      var q, a, b := p[..|p| - 1], p[|p| - 2], p[|p| - 1];
      forall i | 0 <= i < |q| - 1 ensures Edge(g, q[i], q[i + 1]) {
        assert Edge(g, p[i], p[i + 1]);
      }
      PathChain(es, q);
      ChainReach(es, q);
      assert Edge(g, p[|p| - 2], p[|p| - 2 + 1]);
      var s :| s in g.links && s.src == a && g.links[s].target == b;
      assert s == Slot(a, s.field);
      FieldsKept(es, s);
      assert Leads(es, a, b);
    }
  }

  /** What can be reached in the heap is what the client can get at by its own account. */
  lemma ReachableIsWanted(es: seq<Event>, o: Oid)
    requires Run(es)
    ensures Reachable(After(es).g, o) <==> Wanted(es, o)
  {
    hide Run, After, Inv, Edge, Leads, Claimed;
    if Reachable(After(es).g, o) {
      var p :| Path(After(es).g, p) && p[|p| - 1] == o;
      PathChain(es, p);
    }
    if Wanted(es, o) {
      var p :| Chain(es, p) && p[|p| - 1] == o;
      ChainReach(es, p);
    }
  }

  /** Whenever no task is outstanding, the objects that exist are exactly those that the client
      can get at by its own account. */
  lemma OnlyWantedAtRest(es: seq<Event>, o: Oid)
    requires Run(es) && After(es).tasks == multiset{}
    ensures o in After(es).g.objs <==> Wanted(es, o)
  {
    hide Run, After, Inv, Reachable, Wanted;
    Exactness(es);
    ReachableIsWanted(es, o);
  }

  /** When the client stops after any run, every fair schedule of the tasks ends with exactly
      the objects that the client can get at by its own account. */
  lemma OnlyWantedLeft(es: seq<Event>, f: nat -> Task) returns (k: nat)
    requires Run(es) && Fair(After(es), f)
    ensures Turns(After(es), f, k).tasks == multiset{}
    ensures forall o :: o in Turns(After(es), f, k).g.objs <==> Wanted(es, o)
  {
    hide Run, After, Inv, Turns, Fair, Reachable, Wanted;
    k := FairCollection(es, f);
    forall o ensures Reachable(After(es).g, o) <==> Wanted(es, o) {
      ReachableIsWanted(es, o);
    }
  }
}

/** The union-find forest that collectors form through their `forward` pointers. */
module Forwarding {
  import opened Wrappers

  type Cid = int
  type Forwards = map<Cid, Option<Cid>>

  /** Heights strictly grow along every forward pointer, up to a bound. */
  ghost predicate Ranked(f: Forwards, height: map<Cid, nat>, bound: nat)
  {
    height.Keys == f.Keys &&
    forall c :: c in f ==>
      height[c] <= bound &&
      (f[c].Some? ==> f[c].value in f && height[c] < height[f[c].value])
  }

  /** No forwarding cycle and no dangling forward pointer. */
  ghost predicate Forest(f: Forwards)
  {
    exists height: map<Cid, nat>, bound: nat :: Ranked(f, height, bound)
  }

  ghost function Ranking(f: Forwards): (r: (map<Cid, nat>, nat))
    requires Forest(f)
    ensures Ranked(f, r.0, r.1)
  {
    var height: map<Cid, nat>, bound: nat :| Ranked(f, height, bound);
    (height, bound)
  }

  /** How many more forwarding steps there can be from `c`. */
  ghost function Fuel(f: Forwards, c: Cid): (n: nat)
    requires Forest(f) && c in f
    ensures f[c].Some? ==> f[c].value in f && Fuel(f, f[c].value) < n
    decreases Ranking(f).1 - Ranking(f).0[c]
  {
    Ranking(f).1 - Ranking(f).0[c]
  }

  /** The representative: the end of the forwarding chain. */
  ghost function Rep(f: Forwards, c: Cid): (r: Cid)
    requires Forest(f) && c in f
    ensures r in f && f[r].None?
    ensures f[c].None? ==> r == c
    decreases Fuel(f, c)
  {
    if f[c].None? then c else Rep(f, f[c].value)
  }

  /** Forwarding root `s` to root `t` sends the whole tree of `s` to `t` and
      leaves every other representative alone. */
  lemma {:induction false} RepUnion(f: Forwards, s: Cid, t: Cid)
    requires Forest(f) && s in f && t in f && f[s].None? && f[t].None? && s != t
    ensures Forest(f[s := Some(t)])
    ensures forall c :: c in f ==> Rep(f[s := Some(t)], c) == if Rep(f, c) == s then t else Rep(f, c)
  {
    var f' := f[s := Some(t)];
    var (h, b) := Ranking(f);
    assert Ranked(f', h[t := h[t] + h[s] + 1], b + h[t] + h[s] + 1);
    forall c | c in f
      ensures Rep(f', c) == if Rep(f, c) == s then t else Rep(f, c)
    {
      RepUnionAt(f, s, t, c);
    }
  }

  lemma {:induction false} RepUnionAt(f: Forwards, s: Cid, t: Cid, c: Cid)
    requires Forest(f) && s in f && t in f && f[s].None? && f[t].None? && s != t && c in f
    requires Forest(f[s := Some(t)])
    ensures Rep(f[s := Some(t)], c) == if Rep(f, c) == s then t else Rep(f, c)
    decreases Fuel(f, c)
  {
    if f[c].Some? {
      RepUnionAt(f, s, t, f[c].value);
    }
  }

  /** A new collector is a tree of its own. */
  lemma {:induction false} RepExtend(f: Forwards, n: Cid)
    requires Forest(f) && n !in f
    ensures Forest(f[n := None])
    ensures Rep(f[n := None], n) == n
    ensures forall c :: c in f ==> Rep(f[n := None], c) == Rep(f, c)
  {
    var (h, b) := Ranking(f);
    assert Ranked(f[n := None], h[n := 0], b);
    forall c | c in f ensures Rep(f[n := None], c) == Rep(f, c) {
      RepExtendAt(f, n, c);
    }
  }

  lemma {:induction false} RepExtendAt(f: Forwards, n: Cid, c: Cid)
    requires Forest(f) && n !in f && c in f && Forest(f[n := None])
    ensures Rep(f[n := None], c) == Rep(f, c)
    decreases Fuel(f, c)
  {
    if f[c].Some? {
      RepExtendAt(f, n, f[c].value);
    }
  }

  /** Removing a collector nobody forwards to changes no other representative. */
  lemma {:induction false} RepRemove(f: Forwards, n: Cid)
    requires Forest(f) && n in f
    requires forall c :: c in f ==> f[c] != Some(n)
    ensures Forest(f - {n})
    ensures forall c :: c in f && c != n ==> Rep(f - {n}, c) == Rep(f, c)
  {
    var (h, b) := Ranking(f);
    var g := f - {n};
    assert g.Keys == f.Keys - {n};
    assert (h - {n}).Keys == h.Keys - {n};
    assert Ranked(g, h - {n}, b);
    forall c | c in f && c != n ensures Rep(g, c) == Rep(f, c) {
      RepRemoveAt(f, n, c);
    }
  }

  lemma {:induction false} RepRemoveAt(f: Forwards, n: Cid, c: Cid)
    requires Forest(f) && n in f && c in f && c != n && Forest(f - {n})
    requires forall d :: d in f ==> f[d] != Some(n)
    ensures Rep(f - {n}, c) == Rep(f, c)
    decreases Fuel(f, c)
  {
    if f[c].Some? {
      RepRemoveAt(f, n, f[c].value);
    }
  }

  /** In a forest with at least one collector, some collector has nobody
      forwarding to it. */
  lemma {:induction false} ForestHasLeaf(f: Forwards, start: Cid) returns (leaf: Cid)
    requires Forest(f) && start in f
    ensures leaf in f && forall c :: c in f ==> f[c] != Some(leaf)
  {
    var (h, b) := Ranking(f);
    leaf := start;
    while exists c :: c in f && f[c] == Some(leaf)
      invariant leaf in f
      decreases h[leaf]
    {
      var c :| c in f && f[c] == Some(leaf);
      leaf := c;
    }
  }
}

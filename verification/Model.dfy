/** The heap of the collector as one value, and what each operation of object.c,
    link.c, collector.c and safelist.c does to it. The functions are total: what
    they do with a dangling identifier is arbitrary, and module `Invariant` shows
    that the collector never holds one. */
module Model {
  import opened Wrappers
  import opened Forwarding

  type Oid = int
  type Field = int

  /** The three reference counts of an object: `n0` and `n1` are the counts of
      the two which-bits, `n2` is the phantom count. */
  datatype Count = Count(n0: int, n1: int, n2: int)
  {
    function Plain(w: bool): int { if w then n1 else n0 }
    function AddPlain(w: bool, d: int): Count { if w then this.(n1 := n1 + d) else this.(n0 := n0 + d) }
    function AddPhantom(d: int): Count { this.(n2 := n2 + d) }
    predicate Unused() { n0 == 0 && n1 == 0 }
    predicate Idle() { Unused() && n2 == 0 }
  }

  /** A field of an object: the key of one link. */
  datatype Slot = Slot(src: Oid, field: Field)

  datatype Link = Link(target: Oid, which: bool, phantomized: bool)

  /** The five work lists of a collector. */
  datatype Kind = Collect | Merged | Recovery | Rebuild | Clean
  datatype Lid = Lid(coll: Cid, kind: Kind)
  datatype SafeList = SafeList(data: seq<Oid>, forward: Option<Lid>)
  datatype Counter = Counter(refs: int, stores: int)

  datatype Task = RunCollector(c: Cid) | DeleteObject(o: Oid)

  type Lists = map<Lid, SafeList>
  type Links = map<Slot, Link>
  type Collectors = map<Oid, Option<Cid>>
  type Fields = map<Oid, seq<Field>>

  function ListAt(lists: Lists, lid: Lid): SafeList
  {
    if lid in lists then lists[lid] else NoList
  }

  function CounterAt(counter: map<Cid, Counter>, c: Cid): Counter
  {
    if c in counter then counter[c] else NoCounter
  }

  const NoList := SafeList([], None)
  const NoCounter := Counter(0, 0)
  const NoCount := Count(0, 0, 0)

  /** The object graph. `fields` lists the keys of an object's links table in the
      order in which the table iterates over them. `claims` records how often
      each object is claimed by the client; it is the only component the program
      does not store. */
  datatype Graph = Graph(
    objs: set<Oid>,
    which: map<Oid, bool>,
    phantomized: map<Oid, bool>,
    fields: Fields,
    links: Links,
    claims: multiset<Oid>)
  {
    function Which(o: Oid): bool { if o in which then which[o] else false }
    function Ph(o: Oid): bool { if o in phantomized then phantomized[o] else false }
    function Keys(o: Oid): seq<Field> { if o in fields then fields[o] else [] }
  }

  /** The collectors: forwarding pointers, counters and work lists. */
  datatype Collecting = Collecting(
    forward: Forwards,
    counter: map<Cid, Counter>,
    lists: Lists,
    next: Cid)

  /** The heap, one map per field of an object header, and the tasks that have
      been started and have not ended. */
  datatype State = State(
    g: Graph,
    count: map<Oid, Count>,
    collector: Collectors,
    cs: Collecting,
    tasks: multiset<Task>)
  {
    function Which(o: Oid): bool { g.Which(o) }
    function Num(o: Oid): Count { if o in count then count[o] else NoCount }
    function Coll(o: Oid): Option<Cid> { if o in collector then collector[o] else None }
  }

  const Empty := State(Graph({}, map[], map[], map[], map[], multiset{}), map[], map[],
                       Collecting(map[], map[], map[], 0), multiset{})

  /** Where the entries of a forwarded list go. */
  function ForwardKind(k: Kind): Kind
  {
    match k
    case Collect => Collect
    case Rebuild => Rebuild
    case _ => Merged
  }

  // ---- Collectors and their lists ----

  ghost function Root(f: Forwards, c: Cid): Cid
  {
    if c in f && Forest(f) then Rep(f, c) else c
  }

  /** Every registered collector has its five lists and an identifier below
      `next`, and forwarding never runs in a circle. */
  ghost predicate Registered(cs: Collecting)
  {
    && Forest(cs.forward)
    && (forall lid :: lid in cs.lists <==> lid.coll in cs.forward)
    && (forall c :: c in cs.forward ==> c < cs.next)
  }

  function AddCounter(cs: Collecting, c: Cid, refs: int, stores: int): Collecting
  {
    var n := CounterAt(cs.counter, c);
    cs.(counter := cs.counter[c := Counter(n.refs + refs, n.stores + stores)])
  }

  function AddRefs(cs: Collecting, c: Option<Cid>, d: int): Collecting
  {
    if c.None? then cs else AddCounter(cs, c.value, d, 0)
  }

  /** object_set_collector */
  ghost function SetColl(st: State, o: Oid, c: Option<Cid>): (r: State)
    ensures r.g == st.g && r.count == st.count && r.tasks == st.tasks
    ensures r.cs.forward == st.cs.forward && r.cs.lists == st.cs.lists && r.cs.next == st.cs.next
    ensures o in st.collector ==> r.collector == st.collector[o := c]
  {
    if st.Coll(o) == c then st
    else st.(cs := AddRefs(AddRefs(st.cs, c, 1), st.Coll(o), -1), collector := st.collector[o := c])
  }

  /** The five empty lists of a new collector. */
  function NewLists(lists: Lists, c: Cid): Lists
  {
    lists[Lid(c, Collect) := NoList][Lid(c, Merged) := NoList][Lid(c, Recovery) := NoList]
         [Lid(c, Rebuild) := NoList][Lid(c, Clean) := NoList]
  }

  function AddColl(cs: Collecting): Collecting
  {
    Collecting(cs.forward[cs.next := None], cs.counter[cs.next := Counter(0, 0)],
               NewLists(cs.lists, cs.next), cs.next + 1)
  }

  /** collector_create, together with starting its task */
  ghost function NewColl(st: State): (r: State)
    ensures r.g == st.g && r.count == st.count && r.collector == st.collector
  {
    st.(cs := AddColl(st.cs), tasks := st.tasks + multiset{RunCollector(st.cs.next)})
  }

  function PutData(lists: Lists, lid: Lid, data: seq<Oid>): Lists
  {
    lists[lid := SafeList(data, ListAt(lists, lid).forward)]
  }

  function AppendTo(cs: Collecting, lid: Lid, o: Oid): Collecting
  {
    AddCounter(cs.(lists := PutData(cs.lists, lid, ListAt(cs.lists, lid).data + [o])), lid.coll, 0, 1)
  }

  function PollFrom(cs: Collecting, lid: Lid): Collecting
    requires ListAt(cs.lists, lid).data != []
  {
    AddCounter(cs.(lists := PutData(cs.lists, lid, ListAt(cs.lists, lid).data[1..])), lid.coll, 0, -1)
  }

  /** safelist_add on a list that is not forwarded */
  ghost function Append(st: State, lid: Lid, o: Oid): (r: State)
    ensures r.g == st.g && r.count == st.count && r.collector == st.collector && r.tasks == st.tasks
    ensures r.cs.forward == st.cs.forward && r.cs.next == st.cs.next
  {
    st.(cs := AppendTo(st.cs, lid, o))
  }

  /** The end of the forwarding chain of a list. */
  ghost function ListEnd(f: Forwards, lid: Lid): Lid
  {
    if lid.coll in f && f[lid.coll].None? then lid else Lid(Root(f, lid.coll), ForwardKind(lid.kind))
  }

  /** safelist_add */
  ghost function ListAdd(st: State, lid: Lid, o: Oid): State
  {
    Append(st, ListEnd(st.cs.forward, lid), o)
  }

  /** safelist_poll on a list that is not empty */
  ghost function Poll(st: State, lid: Lid): State
    requires ListAt(st.cs.lists, lid).data != []
  {
    st.(cs := PollFrom(st.cs, lid))
  }

  /** The entries of a list after collector_merge: all that `s` holds moves to `t`. */
  function MergedData(lists: Lists, t: Cid, s: Cid, lid: Lid): seq<Oid>
  {
    var own := ListAt(lists, lid).data;
    if lid.coll == s then []
    else if lid.coll != t then own
    else match lid.kind
      case Merged =>
        own + ListAt(lists, Lid(s, Merged)).data + ListAt(lists, Lid(s, Clean)).data
            + ListAt(lists, Lid(s, Recovery)).data
      case Collect => own + ListAt(lists, Lid(s, Collect)).data
      case Rebuild => own + ListAt(lists, Lid(s, Rebuild)).data
      case _ => own
  }

  function MergedLists(lists: Lists, t: Cid, s: Cid): Lists
  {
    map lid | lid in lists ::
      SafeList(MergedData(lists, t, s, lid),
               if lid.coll == s then Some(Lid(t, ForwardKind(lid.kind))) else lists[lid].forward)
  }

  /** The number of entries in the five lists of a collector. */
  function StoreSize(lists: Lists, c: Cid): int
  {
    |ListAt(lists, Lid(c, Collect)).data| + |ListAt(lists, Lid(c, Merged)).data|
    + |ListAt(lists, Lid(c, Recovery)).data| + |ListAt(lists, Lid(c, Rebuild)).data|
    + |ListAt(lists, Lid(c, Clean)).data|
  }

  function Join(cs: Collecting, t: Cid, s: Cid): Collecting
  {
    var n := StoreSize(cs.lists, s);
    AddCounter(AddCounter(cs.(lists := MergedLists(cs.lists, t, s), forward := cs.forward[s := Some(t)]), s, 0, -n), t, 1, n)
  }

  /** collector_merge(t, s): `s` forwards to `t` from now on */
  ghost function MergeColls(st: State, t: Cid, s: Cid): (r: State)
    ensures r.g == st.g && r.count == st.count && r.tasks == st.tasks && r.collector == st.collector
  {
    st.(cs := Join(st.cs, t, s))
  }

  // ---- Counting ----

  ghost function PutCount(st: State, o: Oid, n: Count): (r: State)
    ensures r.g == st.g && r.collector == st.collector && r.cs == st.cs && r.tasks == st.tasks
  {
    st.(count := st.count[o := n])
  }

  /** collector_add_object */
  ghost function AddObject(st: State, c: Cid, o: Oid): (r: State)
    ensures r.g == st.g && r.tasks == st.tasks && r.cs.forward == st.cs.forward && r.cs.next == st.cs.next
  {
    var a := Root(st.cs.forward, c);
    SetColl(Append(PutCount(st, o, st.Num(o).AddPlain(st.Which(o), 1).AddPhantom(1)), Lid(a, Collect), o), o, Some(a))
  }

  /** object_request_delete */
  ghost function Doom(st: State, o: Oid): (r: State)
    ensures r.g == st.g && r.count == st.count && r.collector == st.collector && r.cs == st.cs
  {
    st.(tasks := st.tasks + multiset{DeleteObject(o)})
  }

  /** object_dec once the count has dropped to zero: make sure that there is a
      collector and queue the object there */
  ghost function Suspect(st: State, o: Oid): (r: State)
    ensures r.g == st.g
  {
    match st.Coll(o)
    case None => AddObject(SetColl(NewColl(st), o, Some(st.cs.next)), st.cs.next, o)
    case Some(c) => AddObject(st, c, o)
  }

  /** object_dec */
  ghost function Dec(st: State, o: Oid, w: bool): (r: State)
    ensures r.g == st.g
  {
    var n := st.Num(o).AddPlain(w, -1);
    var s1 := PutCount(st, o, n);
    if n.Plain(w) != 0 || w != st.Which(o) then s1
    else if n.Plain(!w) == 0 && n.n2 == 0 then Doom(s1, o)
    else Suspect(s1, o)
  }

  /** object_dec_phantom */
  ghost function DecPhantom(st: State, o: Oid): (r: State)
    ensures r.g == st.g
  {
    var n := st.Num(o).AddPhantom(-1);
    var s1 := PutCount(st, o, n);
    if n.n2 != 0 then s1
    else if n.Unused() then Doom(s1, o)
    else SetColl(s1, o, None)
  }

  /** object_merge_collectors */
  ghost function MergeObjs(st: State, obj: Oid, target: Oid): (r: State)
    ensures r.g == st.g && r.count == st.count && r.tasks == st.tasks
  {
    var s, t := st.Coll(obj), st.Coll(target);
    if t == s then st
    else if t.None? then SetColl(st, target, s)
    else if s.None? then SetColl(st, obj, t)
    else
      var rt, rs := Root(st.cs.forward, t.value), Root(st.cs.forward, s.value);
      var s1 := if rt == rs then st else MergeColls(st, rt, rs);
      SetColl(SetColl(s1, target, Some(rt)), obj, Some(rt))
  }

  // ---- Links ----

  ghost function PutLink(st: State, s: Slot, l: Link): State
  {
    st.(g := st.g.(links := st.g.links[s := l]))
  }

  /** link_dec */
  ghost function LinkDec(st: State, l: Link): (r: State)
    ensures r.g == st.g
  {
    if l.phantomized then DecPhantom(st, l.target) else Dec(st, l.target, l.which)
  }

  /** link_phantomize */
  ghost function PhantomizeLink(st: State, s: Slot): State
  {
    if s !in st.g.links || st.g.links[s].phantomized then st
    else
      var l := st.g.links[s];
      var s1 := PutCount(st, l.target, st.Num(l.target).AddPhantom(1));
      var s2 := Dec(s1, l.target, l.which);
      PutLink(MergeObjs(s2, s.src, l.target), s, l.(phantomized := true))
  }

  ghost function PhantomizeLinks(st: State, o: Oid, ks: seq<Field>): State
    decreases |ks|
  {
    if ks == [] then st else PhantomizeLinks(PhantomizeLink(st, Slot(o, ks[0])), o, ks[1..])
  }

  ghost function PutFlags(st: State, o: Oid, which: bool, ph: bool): State
  {
    st.(g := st.g.(which := st.g.which[o := which], phantomized := st.g.phantomized[o := ph]))
  }

  /** collector_update on the collector of an object */
  ghost function UpdateColl(st: State, o: Oid): (r: State)
    ensures r.g == st.g && r.count == st.count && r.tasks == st.tasks
    ensures r.cs.forward == st.cs.forward && r.cs.lists == st.cs.lists
  {
    match st.Coll(o)
    case None => st
    case Some(c) => SetColl(st, o, Some(Root(st.cs.forward, c)))
  }

  /** The count and the flags of a phantomized object: the strong count of the
      collector is given back, and if it was the last one the weak references,
      if any, become the strong ones. */
  ghost function PhantomizeHead(st: State, o: Oid): State
  {
    var w := st.Which(o);
    var n := st.Num(o).AddPlain(w, -1);
    var s1 := PutCount(st, o, n);
    if n.Plain(w) > 0 then s1
    else PutFlags(s1, o, if n.Plain(!w) > 0 then !w else w, true)
  }

  /** object_phantomize_node */
  ghost function PhantomizeNode(st: State, o: Oid): State
  {
    var s1 := PhantomizeHead(UpdateColl(st, o), o);
    if st.g.Ph(o) || !s1.g.Ph(o) then s1 else PhantomizeLinks(s1, o, st.g.Keys(o))
  }

  /** The bit a rebuilt link gets. */
  ghost function RebuiltWhich(g: Graph, s: Slot, t: Oid): bool
  {
    if t != s.src && (g.Ph(t) || g.Keys(t) == []) then g.Which(t) else !g.Which(t)
  }

  /** object_rebuild_link */
  ghost function RebuildLink(st: State, c: Cid, s: Slot): State
  {
    if s !in st.g.links || !st.g.links[s].phantomized then st
    else
      var t := st.g.links[s].target;
      var w := RebuiltWhich(st.g, s, t);
      var n := st.Num(t).AddPlain(w, 1).AddPhantom(-1);
      var s1 := PutCount(st, t, n);
      var s2 := if n.n2 == 0 then SetColl(s1, t, None) else s1;
      var s3 := PutLink(s2, s, Link(t, w, false));
      if s3.Coll(t).Some? then ListAdd(s3, Lid(c, Rebuild), t) else s3
  }

  ghost function RebuildLinks(st: State, c: Cid, o: Oid, ks: seq<Field>): State
    decreases |ks|
  {
    if ks == [] then st else RebuildLinks(RebuildLink(st, c, Slot(o, ks[0])), c, o, ks[1..])
  }

  /** object_recover_node */
  ghost function RecoverNode(st: State, c: Cid, o: Oid): State
  {
    var s1 := UpdateColl(st, o);
    if s1.Num(o).Plain(s1.Which(o)) > 0 then
      RebuildLinks(PutFlags(s1, o, s1.Which(o), false), c, o, st.g.Keys(o))
    else s1
  }

  function LinkAt(links: Links, s: Slot): Link
  {
    if s in links then links[s] else Link(s.src, false, false)
  }

  /** The links of an object under the given keys, in that order. */
  ghost function Picked(links: Links, o: Oid, ks: seq<Field>): seq<Link>
    decreases |ks|
  {
    if ks == [] then [] else [LinkAt(links, Slot(o, ks[0]))] + Picked(links, o, ks[1..])
  }

  /** hashtable_remove_all on the links of an object */
  ghost function Detach(st: State, o: Oid): State
  {
    st.(g := st.g.(links := map s | s in st.g.links && s.src != o :: st.g.links[s], fields := st.g.fields[o := []]))
  }

  ghost function LinkDecs(st: State, ls: seq<Link>): State
    decreases |ls|
  {
    if ls == [] then st else LinkDecs(LinkDec(st, ls[0]), ls[1..])
  }

  /** object_remove_links */
  ghost function RemoveLinks(st: State, o: Oid): State
  {
    LinkDecs(Detach(st, o), Picked(st.g.links, o, st.g.Keys(o)))
  }

  /** object_clean_node */
  ghost function CleanNode(st: State, o: Oid): State
  {
    DecPhantom(if st.Num(o).Unused() then RemoveLinks(st, o) else st, o)
  }

  /** object_del: the memory of the object is released */
  ghost function Release(st: State, o: Oid): State
  {
    var s1 := SetColl(st, o, None);
    State(Graph(s1.g.objs - {o}, s1.g.which - {o}, s1.g.phantomized - {o}, s1.g.fields - {o}, s1.g.links, s1.g.claims),
          s1.count - {o}, s1.collector - {o}, s1.cs, s1.tasks - multiset{DeleteObject(o)})
  }

  /** A whole delete task. */
  ghost function DeleteTask(st: State, o: Oid): State
  {
    Release(RemoveLinks(st, o), o)
  }

  // ---- The client ----

  /** acid_malloc: the new object is at `o`, and the client claims it. */
  function Malloc(st: State, o: Oid): State
  {
    State(Graph(st.g.objs + {o}, st.g.which[o := false], st.g.phantomized[o := false], st.g.fields[o := []], st.g.links,
                st.g.claims + multiset{o}),
          st.count[o := Count(1, 0, 0)], st.collector[o := None], st.cs, st.tasks)
  }

  function Claims(st: State, claims: multiset<Oid>): State
  {
    st.(g := st.g.(claims := claims))
  }

  /** acid_harden */
  ghost function Harden(st: State, o: Oid): State
  {
    Claims(PutCount(st, o, st.Num(o).AddPlain(st.Which(o), 1)), st.g.claims + multiset{o})
  }

  /** acid_dissolve */
  ghost function Dissolve(st: State, o: Oid): State
  {
    Dec(Claims(st, st.g.claims - multiset{o}), o, st.Which(o))
  }

  /** _acid_set_raw: the claim of a variable moves from `prior`, if there is one, to `val`. */
  ghost function SetRaw(st: State, prior: Option<Oid>, val: Oid): State
  {
    match prior
    case None => Harden(st, val)
    case Some(o) => Dissolve(Harden(st, val), o)
  }

  /** object_get */
  function GetField(g: Graph, o: Oid, k: Field): Option<Oid>
  {
    if Slot(o, k) in g.links then Some(g.links[Slot(o, k)].target) else None
  }

  /** The links table of `s.src` after a link has been put in or taken out; `order`
      is the order in which the table iterates over its keys from now on. */
  ghost function PutField(st: State, s: Slot, order: seq<Field>, l: Option<Link>): (r: State)
    ensures r.count == st.count && r.collector == st.collector && r.cs == st.cs && r.tasks == st.tasks
  {
    st.(g := st.g.(fields := st.g.fields[s.src := order], links := if l.Some? then st.g.links[s := l.value] else st.g.links - {s}))
  }

  /** object_set up to the release of the old link. */
  ghost function NewLink(st: State, s: Slot, t: Oid, order: seq<Field>): State
  {
    if st.g.Ph(s.src) then
      var s1 := MergeObjs(st, s.src, t);
      PutField(PutCount(s1, t, s1.Num(t).AddPhantom(1)), s, order, Some(Link(t, false, true)))
    else
      var w := if t != s.src && st.g.Keys(t) == [] then st.Which(t) else !st.Which(t);
      PutField(PutCount(st, t, st.Num(t).AddPlain(w, 1)), s, order, Some(Link(t, w, false)))
  }

  /** object_set */
  ghost function SetField(st: State, s: Slot, ref: Option<Oid>, order: seq<Field>): State
  {
    if s in st.g.links && ref == Some(st.g.links[s].target) then st
    else
      var s1 := if ref.Some? then NewLink(st, s, ref.value, order)
                else if s in st.g.links then PutField(st, s, order, None) else st;
      if s in st.g.links then LinkDec(s1, st.g.links[s]) else s1
  }
}

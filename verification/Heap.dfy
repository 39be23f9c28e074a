/** The program on its records. */
module Heap {
  import opened Wrappers
  import opened Forwarding
  import opened Sums
  import opened Records
  import opened Invariant
  import opened Conservation
  import opened Keeping
  import Phantomizing
  import Runs
  import M = Model

  function Ids(s: seq<ObjectRec>): seq<Oid>
  {
    seq(|s|, i requires 0 <= i < |s| => s[i].id)
  }

  ghost function CollId(c: CollectorRec?): Option<Cid>
  {
    if c == null then None else Some(c.id)
  }

  ghost function ListId(l: SafeListRec?): Option<M.Lid>
  {
    if l == null then None else Some(l.lid)
  }

  const KINDS: set<M.Kind> := {M.Collect, M.Merged, M.Recovery, M.Rebuild, M.Clean}

  lemma MinusIs<K, V>(m: map<K, V>, n: map<K, V>, k: K)
    requires forall i :: i in n <==> i in m && i != k
    requires forall i :: i in n ==> n[i] == m[i]
    ensures n == m - {k}
  {
  }

  lemma KeyOf<K, V>(m: map<K, V>, v: V) returns (k: K)
    requires v in m.Values
    ensures k in m && m[k] == v
  {
    k :| k in m && m[k] == v;
  }

  datatype Registry = Registry(collectors: map<Cid, CollectorRec>, lists: map<M.Lid, SafeListRec>, counters: map<Cid, CounterRec>)

  ghost predicate Grows(a: Registry, b: Registry)
  {
    && (forall c :: c in a.collectors ==> c in b.collectors && b.collectors[c] == a.collectors[c])
    && (forall l :: l in a.lists ==> l in b.lists && b.lists[l] == a.lists[l])
    && (forall c :: c in a.counters ==> c in b.counters && b.counters[c] == a.counters[c])
  }

  lemma GrowsTrans(a: Registry, b: Registry, c: Registry)
    requires Grows(a, b) && Grows(b, c)
    ensures Grows(a, c)
  {
  }

  class World {
    ghost var objects: map<Oid, ObjectRec>
    ghost var links: map<M.Slot, LinkRec>
    ghost var collectors: map<Cid, CollectorRec>
    ghost var lists: map<M.Lid, SafeListRec>
    ghost var counters: map<Cid, CounterRec>
    ghost var claims: multiset<Oid>
    var next: Cid
    var tasks: multiset<M.Task>

    // ---- The registries ----

    ghost predicate Known(o: ObjectRec) reads `objects { o.id in objects && objects[o.id] == o }
    ghost predicate KnownColl(c: CollectorRec?) reads `collectors { c == null || (c.id in collectors && collectors[c.id] == c) }
    ghost predicate KnownList(l: SafeListRec?) reads `lists { l == null || (l.lid in lists && lists[l.lid] == l) }

    ghost predicate ObjectsValid()
      reads `objects, `links, `collectors, objects.Values`collector, objects.Values`links
    {
      forall i :: i in objects ==>
        objects[i].id == i && KnownColl(objects[i].collector) &&
        (forall k :: k in objects[i].links <==> M.Slot(i, k) in links) &&
        (forall k :: k in objects[i].links ==> objects[i].links[k] == links[M.Slot(i, k)])
    }

    ghost predicate LinksValid()
      reads `objects, `links
    {
      forall s :: s in links ==>
        links[s].slot == s && links[s].src.id == s.src && Known(links[s].src) && Known(links[s].target)
    }

    ghost predicate CollectorsValid()
      reads `collectors, `lists, `counters, collectors.Values`forward
    {
      && counters.Keys == collectors.Keys
      && (forall lid :: lid in lists <==> lid.coll in collectors)
      && (forall c :: c in collectors ==>
            collectors[c].id == c && collectors[c].count == counters[c] && counters[c].id == c && KnownColl(collectors[c].forward) &&
            forall k :: collectors[c].List(k) == lists[M.Lid(c, k)])
    }

    ghost predicate ListsValid()
      reads `objects, `lists, `counters, lists.Values`forward, lists.Values`data
    {
      forall lid :: lid in lists ==>
        lists[lid].lid == lid && lid.coll in counters && lists[lid].count == counters[lid.coll] &&
        KnownList(lists[lid].forward) && forall o :: o in lists[lid].data ==> Known(o)
    }

    /** The records of the collectors: what may grow when an object is suspected. */
    ghost function CollRepr(): (r: set<object>)
      ensures this !in r
      ensures forall o :: o in r ==> o is CollectorRec || o is SafeListRec || o is CounterRec
      ensures forall o :: o in collectors.Values ==> o in r
      ensures forall o :: o in lists.Values ==> o in r
      ensures forall o :: o in counters.Values ==> o in r
      reads `collectors, `lists, `counters
    {
      (set c | c in collectors.Values :: c as object) + (set l | l in lists.Values :: l as object)
      + (set n | n in counters.Values :: n as object)
    }

    ghost function Repr(): (r: set<object>)
      ensures this !in r
      ensures forall o :: o in objects.Values ==> o in r
      ensures forall o :: o in links.Values ==> o in r
      ensures forall o :: o in collectors.Values ==> o in r
      ensures forall o :: o in lists.Values ==> o in r
      ensures forall o :: o in counters.Values ==> o in r
      reads `objects, `links, `collectors, `lists, `counters
    {
      (set o | o in objects.Values :: o as object) + (set l | l in links.Values :: l as object) + CollRepr()
    }

    ghost predicate Valid()
      reads this, Repr()
    {
      ObjectsValid() && LinksValid() && CollectorsValid() && ListsValid()
    }

    // ---- The abstract state ----

    ghost function Whichs(): map<Oid, bool>
      reads `objects, objects.Values`which
    {
      map i | i in objects :: objects[i].which
    }

    ghost function Phs(): map<Oid, bool>
      reads `objects, objects.Values`phantomized
    {
      map i | i in objects :: objects[i].phantomized
    }

    ghost function Orders(): map<Oid, seq<Field>>
      reads `objects, objects.Values`order
    {
      map i | i in objects :: objects[i].order
    }

    ghost function Counts(): map<Oid, Count>
      reads `objects, objects.Values`count
    {
      map i | i in objects :: objects[i].count
    }

    ghost function Colls(): map<Oid, Option<Cid>>
      reads `objects, objects.Values`collector
    {
      map i | i in objects :: CollId(objects[i].collector)
    }

    ghost function LinkMap(): map<M.Slot, M.Link>
      reads `links, links.Values
    {
      map s | s in links :: M.Link(links[s].target.id, links[s].which, links[s].phantomized)
    }

    ghost function Forwarded(): Forwards
      reads `collectors, collectors.Values`forward
    {
      map c | c in collectors :: CollId(collectors[c].forward)
    }

    ghost function CounterMap(): map<Cid, M.Counter>
      reads `counters, counters.Values
    {
      map c | c in counters :: M.Counter(counters[c].refs, counters[c].stores)
    }

    ghost function ListMap(): M.Lists
      reads `lists, lists.Values
    {
      map lid | lid in lists :: M.SafeList(Ids(lists[lid].data), ListId(lists[lid].forward))
    }

    ghost function St(): M.State
      reads this, Repr()
    {
      M.State(M.Graph(objects.Keys, Whichs(), Phs(), Orders(), LinkMap(), claims),
              Counts(), Colls(), M.Collecting(Forwarded(), CounterMap(), ListMap(), next), tasks)
    }

    // ---- Single fields ----

    method PutCount(o: ObjectRec, n: Count)
      requires Valid() && Known(o)
      modifies o`count
      ensures Valid() && St() == M.PutCount(old(St()), o.id, n) && o.count == n
    {
      hide ObjectsValid, LinksValid, CollectorsValid, ListsValid, Whichs, Phs, Orders, Counts, Colls, LinkMap, Forwarded, CounterMap, ListMap, Repr, CollRepr;
      o.count := n;
      CountPut(o, n);
    }

    twostate lemma CountPut(o: ObjectRec, new n: Count)
      requires old(ObjectsValid()) && old(Known(o)) && objects == old(objects)
      requires forall p :: p in objects.Values ==> p.count == if p == o then n else old(p.count)
      ensures Counts() == old(Counts())[o.id := n]
    {
      forall i | i in objects ensures Counts()[i] == old(Counts())[o.id := n][i] {
        assert objects[i] in objects.Values;
      }
    }

    method PutFlags(o: ObjectRec, which: bool, ph: bool)
      requires Valid() && Known(o)
      modifies o`which, o`phantomized
      ensures Valid() && St() == M.PutFlags(old(St()), o.id, which, ph) && o.which == which && o.phantomized == ph
    {
      hide ObjectsValid, LinksValid, CollectorsValid, ListsValid, Whichs, Phs, Orders, Counts, Colls, LinkMap, Forwarded, CounterMap, ListMap, Repr, CollRepr;
      o.which, o.phantomized := which, ph;
      WhichPut(o, which);
      PhPut(o, ph);
    }

    twostate lemma WhichPut(o: ObjectRec, new which: bool)
      requires old(ObjectsValid()) && old(Known(o)) && objects == old(objects)
      requires forall p :: p in objects.Values ==> p.which == if p == o then which else old(p.which)
      ensures Whichs() == old(Whichs())[o.id := which]
    {
      forall i | i in objects ensures Whichs()[i] == old(Whichs())[o.id := which][i] {
        assert objects[i] in objects.Values;
      }
    }

    twostate lemma PhPut(o: ObjectRec, new ph: bool)
      requires old(ObjectsValid()) && old(Known(o)) && objects == old(objects)
      requires forall p :: p in objects.Values ==> p.phantomized == if p == o then ph else old(p.phantomized)
      ensures Phs() == old(Phs())[o.id := ph]
    {
      forall i | i in objects ensures Phs()[i] == old(Phs())[o.id := ph][i] {
        assert objects[i] in objects.Values;
      }
    }

    method PutCollector(o: ObjectRec, c: CollectorRec?)
      requires Valid() && Known(o) && KnownColl(c)
      modifies o`collector
      ensures Valid() && St() == old(St()).(collector := old(St()).collector[o.id := CollId(c)]) && o.collector == c
    {
      hide ObjectsValid, LinksValid, CollectorsValid, ListsValid, Whichs, Phs, Orders, Counts, Colls, LinkMap, Forwarded, CounterMap, ListMap, Repr, CollRepr;
      o.collector := c;
      CollectorPut(o, c);
    }

    twostate lemma CollectorPut(o: ObjectRec, new c: CollectorRec?)
      requires old(ObjectsValid()) && old(Known(o)) && objects == old(objects) && KnownColl(c)
      requires links == old(links) && collectors == old(collectors)
      requires forall p :: p in objects.Values ==> p.collector == (if p == o then c else old(p.collector)) && p.links == old(p.links)
      ensures ObjectsValid() && Colls() == old(Colls())[o.id := CollId(c)]
    {
      forall i | i in objects
        ensures KnownColl(objects[i].collector) && objects[i].links == old(objects[i].links)
        ensures Colls()[i] == old(Colls())[o.id := CollId(c)][i]
      {
        assert objects[i] in objects.Values;
      }
    }

    method AddRefs(n: CounterRec, up: bool)
      requires Valid() && n.id in counters && counters[n.id] == n && (up || n.refs >= 1)
      modifies n`refs
      ensures n.refs == old(n.refs) + if up then 1 else -1
      ensures Valid() && St() == old(St()).(cs := M.AddCounter(old(St()).cs, n.id, if up then 1 else -1, 0))
    {
      hide ObjectsValid, LinksValid, CollectorsValid, ListsValid, Whichs, Phs, Orders, Counts, Colls, LinkMap, Forwarded, CounterMap, ListMap, Repr, CollRepr;
      if up { n.IncRef(); } else { n.DecRef(); }
      CounterPut(n, if up then 1 else -1, 0);
    }

    method AddStores(n: CounterRec, up: bool)
      requires Valid() && n.id in counters && counters[n.id] == n && (up || n.stores >= 1)
      modifies n`stores
      ensures Valid() && St() == old(St()).(cs := M.AddCounter(old(St()).cs, n.id, 0, if up then 1 else -1))
    {
      hide ObjectsValid, LinksValid, CollectorsValid, ListsValid, Whichs, Phs, Orders, Counts, Colls, LinkMap, Forwarded, CounterMap, ListMap, Repr, CollRepr;
      if up { n.IncStore(); } else { n.DecStore(); }
      CounterPut(n, 0, if up then 1 else -1);
    }

    twostate lemma CounterPut(n: CounterRec, new dr: int, new ds: int)
      requires old(CollectorsValid()) && n.id in counters && counters[n.id] == n && counters == old(counters) && collectors == old(collectors)
      requires forall m :: m in counters.Values ==> m.refs == old(m.refs) + (if m == n then dr else 0)
      requires forall m :: m in counters.Values ==> m.stores == old(m.stores) + (if m == n then ds else 0)
      ensures CounterMap() == old(CounterMap())[n.id := M.Counter(old(n.refs) + dr, old(n.stores) + ds)]
      ensures n.id in old(CounterMap()) && old(CounterMap())[n.id] == M.Counter(old(n.refs), old(n.stores))
    {
      forall c | c in counters
        ensures CounterMap()[c] == old(CounterMap())[n.id := M.Counter(old(n.refs) + dr, old(n.stores) + ds)][c]
      {
        assert counters[c] in counters.Values && c in collectors;
      }
    }

    method PutData(l: SafeListRec, data: seq<ObjectRec>)
      requires Valid() && KnownList(l) && forall o :: o in data ==> Known(o)
      modifies l`data
      ensures Valid() && St() == old(St()).(cs := old(St()).cs.(lists := M.PutData(old(St()).cs.lists, l.lid, Ids(data))))
    {
      hide ObjectsValid, LinksValid, CollectorsValid, ListsValid, Whichs, Phs, Orders, Counts, Colls, LinkMap, Forwarded, CounterMap, ListMap, Repr, CollRepr;
      l.data := data;
      DataPut(l, data);
    }

    twostate lemma DataPut(l: SafeListRec, new data: seq<ObjectRec>)
      requires old(ListsValid()) && l.lid in lists && lists[l.lid] == l && lists == old(lists)
      requires objects == old(objects) && counters == old(counters) && forall o :: o in data ==> Known(o)
      requires forall k :: k in lists.Values ==> k.data == (if k == l then data else old(k.data)) && k.forward == old(k.forward)
      ensures ListsValid() && ListMap() == M.PutData(old(ListMap()), l.lid, Ids(data))
    {
      forall lid | lid in lists
        ensures lists[lid].forward == old(lists[lid].forward)
        ensures lists[lid].data == if lists[lid] == l then data else old(lists[lid].data)
        ensures ListMap()[lid] == M.PutData(old(ListMap()), l.lid, Ids(data))[lid]
      {
        assert lists[lid] in lists.Values;
      }
    }

    method ForwardList(l: SafeListRec, f: SafeListRec)
      requires Valid() && KnownList(l) && KnownList(f)
      modifies l`forward
      ensures Valid()
      ensures St() == old(St()).(cs := old(St()).cs.(lists :=
        old(St()).cs.lists[l.lid := M.SafeList(M.ListAt(old(St()).cs.lists, l.lid).data, Some(f.lid))]))
    {
      hide ObjectsValid, LinksValid, CollectorsValid, ListsValid, Whichs, Phs, Orders, Counts, Colls, LinkMap, Forwarded, CounterMap, ListMap, Repr, CollRepr;
      l.forward := f;
      ListForwardPut(l, f);
    }

    twostate lemma ListForwardPut(l: SafeListRec, new f: SafeListRec)
      requires old(ListsValid()) && l.lid in lists && lists[l.lid] == l && lists == old(lists) && KnownList(f)
      requires objects == old(objects) && counters == old(counters)
      requires forall k :: k in lists.Values ==> k.forward == (if k == l then f else old(k.forward)) && k.data == old(k.data)
      ensures ListsValid()
      ensures ListMap() == old(ListMap())[l.lid := M.SafeList(M.ListAt(old(ListMap()), l.lid).data, Some(f.lid))]
    {
      forall lid | lid in lists
        ensures lists[lid].data == old(lists[lid].data) && KnownList(lists[lid].forward)
        ensures ListMap()[lid] == old(ListMap())[l.lid := M.SafeList(M.ListAt(old(ListMap()), l.lid).data, Some(f.lid))][lid]
      {
        assert lists[lid] in lists.Values;
      }
    }

    method ForwardCollector(c: CollectorRec, f: CollectorRec?)
      requires Valid() && KnownColl(c) && KnownColl(f)
      modifies c`forward
      ensures c.forward == f
      ensures Valid() && St() == old(St()).(cs := old(St()).cs.(forward := old(St()).cs.forward[c.id := CollId(f)]))
    {
      hide ObjectsValid, LinksValid, CollectorsValid, ListsValid, Whichs, Phs, Orders, Counts, Colls, LinkMap, Forwarded, CounterMap, ListMap, Repr, CollRepr;
      c.forward := f;
      CollForwardPut(c, f);
    }

    twostate lemma CollForwardPut(c: CollectorRec, new f: CollectorRec?)
      requires old(CollectorsValid()) && c.id in collectors && collectors[c.id] == c && collectors == old(collectors) && KnownColl(f)
      requires lists == old(lists) && counters == old(counters)
      requires forall d :: d in collectors.Values ==> d.forward == if d == c then f else old(d.forward)
      ensures CollectorsValid() && Forwarded() == old(Forwarded())[c.id := CollId(f)]
    {
      forall d | d in collectors
        ensures KnownColl(collectors[d].forward) && Forwarded()[d] == old(Forwarded())[c.id := CollId(f)][d]
      {
        assert collectors[d] in collectors.Values;
      }
    }

    method PutLink(l: LinkRec, which: bool, ph: bool)
      requires Valid() && l.slot in links && links[l.slot] == l
      modifies l`which, l`phantomized
      ensures Valid() && St() == M.PutLink(old(St()), l.slot, M.Link(l.target.id, which, ph))
    {
      hide ObjectsValid, LinksValid, CollectorsValid, ListsValid, Whichs, Phs, Orders, Counts, Colls, LinkMap, Forwarded, CounterMap, ListMap, Repr, CollRepr;
      l.which, l.phantomized := which, ph;
      LinkPut(l, which, ph);
    }

    twostate lemma LinkPut(l: LinkRec, new which: bool, new ph: bool)
      requires old(LinksValid()) && l.slot in links && links[l.slot] == l && links == old(links)
      requires forall k :: k in links.Values ==> k.which == if k == l then which else old(k.which)
      requires forall k :: k in links.Values ==> k.phantomized == if k == l then ph else old(k.phantomized)
      ensures LinkMap() == old(LinkMap())[l.slot := M.Link(l.target.id, which, ph)]
    {
      forall s | s in links ensures LinkMap()[s] == old(LinkMap())[l.slot := M.Link(l.target.id, which, ph)][s] {
        assert links[s] in links.Values;
      }
    }

    /** hashtable_remove_all on the links of an object */
    method ClearLinks(o: ObjectRec)
      requires Valid() && Known(o)
      modifies o`links, o`order, `links
      ensures Valid() && St() == M.Detach(old(St()), o.id) && o.links == map[] && o.order == []
    {
      hide Valid, St, TableOnly;
      PutTable(o, map[], [], map s | s in links && s.src != o.id :: links[s]);
      ClearedState(o);
    }

    /** A new links table for one object. */
    method PutTable(o: ObjectRec, table: map<Field, LinkRec>, order: seq<Field>, ghost registry: map<M.Slot, LinkRec>)
      modifies o`links, o`order, `links
      ensures o.links == table && o.order == order && links == registry && TableOnly(o)
    {
      hide MapsKept;
      SetTable(o, table, order, registry);
    }

    method SetTable(o: ObjectRec, table: map<Field, LinkRec>, order: seq<Field>, ghost registry: map<M.Slot, LinkRec>)
      modifies o`links, o`order, `links
      ensures o.links == table && o.order == order && links == registry && MapsKept()
    {
      hide CollectorsValid, ListsValid, Whichs, Phs, Counts, Colls, Forwarded, CounterMap, ListMap;
      o.links, o.order := table, order;
      links := registry;
    }

    /** Nothing but the table of `o` and the registry of links has changed. */
    twostate predicate TableOnly(o: ObjectRec)
      reads this, Repr()
    {
      && objects == old(objects) && collectors == old(collectors) && lists == old(lists) && counters == old(counters)
      && claims == old(claims) && next == old(next) && tasks == old(tasks)
      && RecordsKept(o) && MapsKept()
    }

    twostate predicate RecordsKept(o: ObjectRec)
      reads this, Repr()
    {
      && objects == old(objects)
      && (forall p :: p in objects.Values ==> p.collector == old(p.collector) && (p == o || (p.links == old(p.links) && p.order == old(p.order))))
      && (forall s :: s in links && s in old(links) && links[s] == old(links)[s] ==>
            links[s].which == old(links[s].which) && links[s].phantomized == old(links[s].phantomized))
    }

    twostate predicate MapsKept()
      reads this, Repr()
    {
      && Whichs() == old(Whichs()) && Phs() == old(Phs()) && Counts() == old(Counts()) && Colls() == old(Colls())
      && Forwarded() == old(Forwarded()) && CounterMap() == old(CounterMap()) && ListMap() == old(ListMap())
      && CollectorsValid() == old(CollectorsValid()) && ListsValid() == old(ListsValid())
    }

    twostate lemma ClearedState(o: ObjectRec)
      requires old(Valid()) && old(Known(o)) && TableOnly(o) && o.links == map[] && o.order == []
      requires links == map s | s in old(links) && s.src != o.id :: old(links)[s]
      ensures Valid() && St() == M.Detach(old(St()), o.id)
    {
      hide ObjectsValid, LinksValid, CollectorsValid, ListsValid, Whichs, Phs, Orders, Counts, Colls, LinkMap, Forwarded, CounterMap, ListMap, Repr, CollRepr;
      LinksCleared(o);
      ObjectsCleared(o);
      TableChanged(o, []);
    }

    twostate lemma LinksCleared(o: ObjectRec)
      requires old(LinksValid()) && TableOnly(o)
      requires links == map s | s in old(links) && s.src != o.id :: old(links)[s]
      ensures LinksValid() && LinkMap() == map s | s in old(LinkMap()) && s.src != o.id :: old(LinkMap())[s]
    {
      hide CollectorsValid, ListsValid, Whichs, Phs, Counts, Colls, Forwarded, CounterMap, ListMap;
    }

    twostate lemma ObjectsCleared(o: ObjectRec)
      requires old(ObjectsValid()) && old(Known(o)) && TableOnly(o) && o.links == map[]
      requires links == map s | s in old(links) && s.src != o.id :: old(links)[s]
      ensures ObjectsValid()
    {
      hide CollectorsValid, ListsValid, Whichs, Phs, Counts, Colls, Forwarded, CounterMap, ListMap;
      forall i | i in objects
        ensures objects[i].collector == old(objects[i].collector)
        ensures objects[i].links == if i == o.id then map[] else old(objects[i].links)
      {
        assert objects[i] in objects.Values;
      }
    }

    ghost method PutClaims(cs: multiset<Oid>)
      requires Valid()
      modifies `claims
      ensures Valid() && St() == M.Claims(old(St()), cs)
    {
      hide ObjectsValid, LinksValid, CollectorsValid, ListsValid, Whichs, Phs, Orders, Counts, Colls, LinkMap, Forwarded, CounterMap, ListMap, Repr, CollRepr;
      claims := cs;
    }

    /** A new object, with one strong reference, enters the heap: object_init_strong. */
    method NewObject(id: Oid) returns (o: ObjectRec)
      requires Valid() && id !in objects && forall k :: M.Slot(id, k) !in links
      modifies `objects
      ensures Valid() && Known(o) && o.id == id && fresh(o)
      ensures var s := old(St());
        St() == M.State(M.Graph(s.g.objs + {id}, s.g.which[id := false], s.g.phantomized[id := false],
                                s.g.fields[id := []], s.g.links, s.g.claims),
                        s.count[id := M.Count(1, 0, 0)], s.collector[id := None], s.cs, s.tasks)
    {
      hide ObjectsValid, LinksValid, CollectorsValid, ListsValid, Whichs, Phs, Orders, Counts, Colls, LinkMap, Forwarded, CounterMap, ListMap, Repr, CollRepr;
      o := new ObjectRec(id);
      o.count := o.count.AddPlain(o.which, 1);
      Insert(o);
    }

    method Insert(o: ObjectRec)
      requires Valid() && o.id !in objects && o.links == map[] && o.collector == null && forall k :: M.Slot(o.id, k) !in links
      modifies `objects
      ensures Valid() && Known(o)
      ensures var s := old(St());
        St() == M.State(M.Graph(s.g.objs + {o.id}, s.g.which[o.id := o.which], s.g.phantomized[o.id := o.phantomized],
                                s.g.fields[o.id := o.order], s.g.links, s.g.claims),
                        s.count[o.id := o.count], s.collector[o.id := None], s.cs, s.tasks)
    {
      hide ObjectsValid, LinksValid, CollectorsValid, ListsValid, Whichs, Phs, Orders, Counts, Colls, LinkMap, Forwarded, CounterMap, ListMap, Repr, CollRepr;
      objects := objects[o.id := o];
      InsertedValid(o);
      InsertedFlags(o);
      InsertedCounts(o);
      InsertedColls(o);
    }

    twostate lemma InsertedValid(new o: ObjectRec)
      requires old(Valid()) && o.id !in old(objects) && o.links == map[] && o.collector == null && objects == old(objects)[o.id := o]
      requires links == old(links) && collectors == old(collectors) && lists == old(lists) && counters == old(counters)
      requires forall k :: M.Slot(o.id, k) !in links
      requires forall l :: l in lists ==> lists[l].data == old(lists[l].data) && lists[l].forward == old(lists[l].forward)
      requires forall i :: i in old(objects) ==> objects[i].collector == old(objects[i].collector) && objects[i].links == old(objects[i].links)
      ensures ObjectsValid() && LinksValid() && ListsValid()
    {
    }

    twostate lemma InsertedFlags(new o: ObjectRec)
      requires o.id !in old(objects) && objects == old(objects)[o.id := o]
      requires forall i :: i in old(objects) ==> old(objects)[i].which == old(objects[i].which) && old(objects)[i].phantomized == old(objects[i].phantomized)
      ensures Whichs() == old(Whichs())[o.id := o.which] && Phs() == old(Phs())[o.id := o.phantomized]
      ensures objects.Keys == old(objects.Keys) + {o.id}
    {
      forall i | i in objects
        ensures Whichs()[i] == old(Whichs())[o.id := o.which][i] && Phs()[i] == old(Phs())[o.id := o.phantomized][i]
      {
        assert i != o.id ==> i in old(objects) && objects[i] == old(objects)[i];
      }
      assert objects.Keys == old(objects.Keys) + {o.id};
    }

    twostate lemma InsertedCounts(new o: ObjectRec)
      requires o.id !in old(objects) && objects == old(objects)[o.id := o]
      requires forall i :: i in old(objects) ==> old(objects)[i].order == old(objects[i].order) && old(objects)[i].count == old(objects[i].count)
      ensures Orders() == old(Orders())[o.id := o.order] && Counts() == old(Counts())[o.id := o.count]
    {
      forall i | i in objects
        ensures Orders()[i] == old(Orders())[o.id := o.order][i] && Counts()[i] == old(Counts())[o.id := o.count][i]
      {
        assert i != o.id ==> i in old(objects) && objects[i] == old(objects)[i];
      }
    }

    twostate lemma InsertedColls(new o: ObjectRec)
      requires o.id !in old(objects) && o.collector == null && objects == old(objects)[o.id := o]
      requires forall i :: i in old(objects) ==> old(objects)[i].collector == old(objects[i].collector)
      ensures Colls() == old(Colls())[o.id := None]
    {
      forall i | i in objects ensures Colls()[i] == old(Colls())[o.id := None][i] {
        assert i != o.id ==> i in old(objects) && objects[i] == old(objects)[i];
      }
    }

    /** hashtable_add: a link enters the table of its source; `order` is how the
        table iterates from now on. */
    method AddLink(o: ObjectRec, k: Field, lk: LinkRec, order: seq<Field>)
      requires Valid() && Known(o) && lk.slot == M.Slot(o.id, k) && lk.src == o && Known(lk.target)
      modifies o`links, o`order, `links
      ensures Valid() && St() == M.PutField(old(St()), lk.slot, order, Some(M.Link(lk.target.id, lk.which, lk.phantomized)))
      ensures links == old(links)[lk.slot := lk]
    {
      hide Valid, St, TableOnly;
      PutTable(o, o.links[k := lk], order, links[lk.slot := lk]);
      AddedState(o, k, lk);
    }

    twostate lemma AddedState(o: ObjectRec, new k: Field, new lk: LinkRec)
      requires old(Valid()) && old(Known(o)) && TableOnly(o) && lk.slot == M.Slot(o.id, k) && lk.src == o && Known(lk.target)
      requires o.links == old(o.links)[k := lk] && links == old(links)[lk.slot := lk]
      ensures Valid() && St() == M.PutField(old(St()), lk.slot, o.order, Some(M.Link(lk.target.id, lk.which, lk.phantomized)))
    {
      hide ObjectsValid, LinksValid, CollectorsValid, ListsValid, Whichs, Phs, Orders, Counts, Colls, LinkMap, Forwarded, CounterMap, ListMap, Repr, CollRepr;
      LinkAdded(o, lk);
      TableChanged(o, o.order);
      TableValid(o, k);
    }

    twostate lemma LinkAdded(o: ObjectRec, new lk: LinkRec)
      requires old(LinksValid()) && TableOnly(o) && Known(lk.target) && Known(lk.src) && lk.src.id == lk.slot.src
      requires links == old(links)[lk.slot := lk]
      ensures LinksValid()
      ensures LinkMap() == old(LinkMap())[lk.slot := M.Link(lk.target.id, lk.which, lk.phantomized)]
    {
      hide CollectorsValid, ListsValid, Whichs, Phs, Counts, Colls, Forwarded, CounterMap, ListMap;
      forall s | s in links
        ensures LinkMap()[s] == old(LinkMap())[lk.slot := M.Link(lk.target.id, lk.which, lk.phantomized)][s]
      {
        assert s != lk.slot ==> s in old(links) && links[s] == old(links)[s];
      }
    }

    /** hashtable_remove: a link leaves the table of its source. */
    method DropLink(o: ObjectRec, k: Field, order: seq<Field>)
      requires Valid() && Known(o)
      modifies o`links, o`order, `links
      ensures Valid() && St() == M.PutField(old(St()), M.Slot(o.id, k), order, None)
    {
      hide Valid, St, TableOnly;
      PutTable(o, o.links - {k}, order, links - {M.Slot(o.id, k)});
      DroppedState(o, k);
    }

    twostate lemma DroppedState(o: ObjectRec, new k: Field)
      requires old(Valid()) && old(Known(o)) && TableOnly(o)
      requires o.links == old(o.links) - {k} && links == old(links) - {M.Slot(o.id, k)}
      ensures Valid() && St() == M.PutField(old(St()), M.Slot(o.id, k), o.order, None)
    {
      hide ObjectsValid, LinksValid, CollectorsValid, ListsValid, Whichs, Phs, Orders, Counts, Colls, LinkMap, Forwarded, CounterMap, ListMap, Repr, CollRepr;
      LinkDropped(o, M.Slot(o.id, k));
      TableChanged(o, o.order);
      TableValid(o, k);
    }

    twostate lemma LinkDropped(o: ObjectRec, new s: M.Slot)
      requires old(LinksValid()) && TableOnly(o) && links == old(links) - {s}
      ensures LinksValid() && LinkMap() == old(LinkMap()) - {s}
    {
      hide CollectorsValid, ListsValid, Whichs, Phs, Counts, Colls, Forwarded, CounterMap, ListMap;
      forall x | x in links ensures LinkMap()[x] == old(LinkMap())[x] {
        assert links[x] == old(links)[x];
      }
      MinusIs(old(LinkMap()), LinkMap(), s);
    }

    twostate lemma TableChanged(o: ObjectRec, new order: seq<Field>)
      requires old(ObjectsValid()) && old(Known(o)) && TableOnly(o) && o.order == order
      ensures Orders() == old(Orders())[o.id := order]
    {
      hide CollectorsValid, ListsValid, Whichs, Phs, Counts, Colls, Forwarded, CounterMap, ListMap;
      forall i | i in objects ensures Orders()[i] == old(Orders())[o.id := order][i] {
        assert objects[i] in objects.Values;
      }
    }

    /** Only the entry of `k` in the table of `o` has changed, here and in the registry. */
    twostate lemma TableValid(o: ObjectRec, new k: Field)
      requires old(ObjectsValid()) && old(Known(o)) && TableOnly(o)
      requires forall x :: x != M.Slot(o.id, k) ==> (x in links <==> x in old(links)) && (x in links ==> links[x] == old(links)[x])
      requires forall j :: j != k ==> (j in o.links <==> j in old(o.links)) && (j in o.links ==> o.links[j] == old(o.links)[j])
      requires (k in o.links <==> M.Slot(o.id, k) in links) && (k in o.links ==> o.links[k] == links[M.Slot(o.id, k)])
      ensures ObjectsValid()
    {
      hide CollectorsValid, ListsValid, Whichs, Phs, Counts, Colls, Forwarded, CounterMap, ListMap;
      forall i | i in objects
        ensures objects[i].collector == old(objects[i].collector)
        ensures i == o.id || objects[i].links == old(objects[i].links)
      {
        assert objects[i] in objects.Values;
      }
    }

    /** The memory of an object that nobody refers to is released. */
    method Remove(o: ObjectRec)
      requires Valid() && Known(o) && o.links == map[]
      requires forall s :: s in links ==> links[s].target != o && links[s].src != o
      requires forall l :: l in lists ==> o !in lists[l].data
      modifies `objects
      ensures Valid()
      ensures var s := old(St());
        St() == M.State(M.Graph(s.g.objs - {o.id}, s.g.which - {o.id}, s.g.phantomized - {o.id}, s.g.fields - {o.id}, s.g.links, s.g.claims),
                        s.count - {o.id}, s.collector - {o.id}, s.cs, s.tasks)
    {
      hide ObjectsValid, LinksValid, CollectorsValid, ListsValid, Whichs, Phs, Orders, Counts, Colls, LinkMap, Forwarded, CounterMap, ListMap, Repr, CollRepr;
      objects := objects - {o.id};
      RemovedValid(o);
      RemovedFlags(o);
      RemovedCounts(o);
    }

    twostate lemma RemovedValid(o: ObjectRec)
      requires old(Valid()) && old(Known(o)) && old(o.links) == map[] && objects == old(objects) - {o.id}
      requires links == old(links) && collectors == old(collectors) && lists == old(lists) && counters == old(counters)
      requires forall s :: s in links ==> links[s].target != o && links[s].src != o
      requires forall l :: l in lists ==> o !in lists[l].data
      requires forall l :: l in lists ==> lists[l].data == old(lists[l].data) && lists[l].forward == old(lists[l].forward)
      requires forall i :: i in objects ==> objects[i].collector == old(objects[i].collector) && objects[i].links == old(objects[i].links)
      ensures ObjectsValid() && LinksValid() && ListsValid()
    {
    }

    twostate lemma RemovedFlags(o: ObjectRec)
      requires objects == old(objects) - {o.id}
      requires forall i :: i in objects ==> objects[i].which == old(objects[i].which) && objects[i].phantomized == old(objects[i].phantomized)
      ensures Whichs() == old(Whichs()) - {o.id} && Phs() == old(Phs()) - {o.id} && objects.Keys == old(objects.Keys) - {o.id}
    {
      assert objects.Keys == old(objects.Keys) - {o.id};
      forall i | i in objects ensures Whichs()[i] == old(Whichs())[i] && Phs()[i] == old(Phs())[i] {
        assert old(objects)[i] == objects[i];
      }
      MinusIs(old(Whichs()), Whichs(), o.id);
      MinusIs(old(Phs()), Phs(), o.id);
    }

    twostate lemma RemovedCounts(o: ObjectRec)
      requires objects == old(objects) - {o.id}
      requires forall i :: i in objects ==> objects[i].order == old(objects[i].order) && objects[i].count == old(objects[i].count)
      requires forall i :: i in objects ==> objects[i].collector == old(objects[i].collector)
      ensures Orders() == old(Orders()) - {o.id} && Counts() == old(Counts()) - {o.id} && Colls() == old(Colls()) - {o.id}
    {
      assert objects.Keys == old(objects.Keys) - {o.id};
      forall i | i in objects
        ensures Orders()[i] == old(Orders())[i] && Counts()[i] == old(Counts())[i] && Colls()[i] == old(Colls())[i]
      {
        assert old(objects)[i] == objects[i];
      }
      MinusIs(old(Orders()), Orders(), o.id);
      MinusIs(old(Counts()), Counts(), o.id);
      MinusIs(old(Colls()), Colls(), o.id);
    }

    /** Nobody in the heap refers to the collector or to its lists. */
    ghost predicate Unreferenced(c: CollectorRec)
      reads `objects, `collectors, `lists, objects.Values`collector, collectors.Values`forward, lists.Values`forward
    {
      && (forall i :: i in objects ==> objects[i].collector != c)
      && (forall d :: d in collectors ==> collectors[d].forward != c)
      && (forall l :: l in lists && lists[l].forward != null ==> lists[l].forward.lid.coll != c.id)
    }

    /** The memory of a collector is released. */
    method Release(c: CollectorRec)
      requires Valid() && KnownColl(c) && Unreferenced(c)
      modifies `collectors, `lists, `counters
      ensures Valid()
      ensures var cs := old(St()).cs;
        St() == old(St()).(cs := M.Collecting(cs.forward - {c.id}, cs.counter - {c.id},
                                              map l | l in cs.lists && l.coll != c.id :: cs.lists[l], cs.next))
    {
      hide Valid, St, Unreferenced, Dropped;
      Unregister(c);
      ReleasedValid(c);
      ReleasedState(c);
    }

    ghost method Unregister(c: CollectorRec)
      modifies `collectors, `lists, `counters
      ensures Dropped(c)
    {
      hide LinksValid, Whichs, Phs, Orders, Counts, Colls, LinkMap, DroppedTables;
      Forget(c);
    }

    ghost method Forget(c: CollectorRec)
      modifies `collectors, `lists, `counters
      ensures DroppedTables(c)
    {
      collectors := collectors - {c.id};
      counters := counters - {c.id};
      lists := map l | l in lists && l.coll != c.id :: lists[l];
    }

    /** The collector has left the registries; no record has changed. */
    twostate predicate Dropped(c: CollectorRec)
      reads this, Repr()
    {
      && DroppedTables(c)
      && objects == old(objects) && links == old(links) && claims == old(claims) && next == old(next) && tasks == old(tasks)
      && (forall o :: o in objects.Values ==> o.collector == old(o.collector) && o.links == old(o.links))
      && Whichs() == old(Whichs()) && Phs() == old(Phs()) && Orders() == old(Orders()) && Counts() == old(Counts())
      && Colls() == old(Colls()) && LinkMap() == old(LinkMap()) && LinksValid() == old(LinksValid())
      && (forall d :: d in collectors.Values ==> d.forward == old(d.forward))
      && (forall n :: n in counters.Values ==> n.refs == old(n.refs) && n.stores == old(n.stores))
      && (forall l :: l in lists.Values ==> l.forward == old(l.forward) && l.data == old(l.data))
    }

    twostate predicate DroppedTables(c: CollectorRec)
      reads this
    {
      && collectors == old(collectors) - {c.id} && counters == old(counters) - {c.id}
      && (lists == map l | l in old(lists) && l.coll != c.id :: old(lists)[l])
    }

    twostate lemma ReleasedValid(c: CollectorRec)
      requires old(Valid()) && old(KnownColl(c)) && old(Unreferenced(c)) && Dropped(c)
      ensures Valid()
    {
      hide Whichs, Phs, Orders, Counts, Colls, LinkMap, LinksValid, ObjectsValid, CollectorsValid, ListsValid, Unreferenced;
      ReleasedObjectsValid(c);
      ReleasedCollectorsValid(c);
      ReleasedListsValid(c);
    }

    twostate lemma ReleasedObjectsValid(c: CollectorRec)
      requires old(ObjectsValid()) && old(KnownColl(c)) && old(Unreferenced(c)) && Dropped(c)
      ensures ObjectsValid()
    {
      hide Whichs, Phs, Orders, Counts, Colls, LinkMap, LinksValid;
      assert forall i :: i in objects ==> objects[i] in objects.Values;
    }

    twostate lemma ReleasedCollectorsValid(c: CollectorRec)
      requires old(CollectorsValid()) && old(KnownColl(c)) && old(Unreferenced(c)) && Dropped(c)
      ensures CollectorsValid()
    {
      hide Whichs, Phs, Orders, Counts, Colls, LinkMap, LinksValid;
      assert counters.Keys == collectors.Keys;
      assert forall d :: d in collectors ==> collectors[d] in collectors.Values;
    }

    twostate lemma ReleasedListsValid(c: CollectorRec)
      requires old(ListsValid()) && old(KnownColl(c)) && old(Unreferenced(c)) && Dropped(c)
      ensures ListsValid()
    {
      hide Whichs, Phs, Orders, Counts, Colls, LinkMap, LinksValid;
      assert forall l :: l in lists ==> lists[l] in lists.Values;
    }

    twostate lemma ReleasedState(c: CollectorRec)
      requires Dropped(c)
      ensures var cs := old(St()).cs;
        St() == old(St()).(cs := M.Collecting(cs.forward - {c.id}, cs.counter - {c.id},
                                              map l | l in cs.lists && l.coll != c.id :: cs.lists[l], cs.next))
    {
      hide Whichs, Phs, Orders, Counts, Colls, LinkMap, Forwarded, CounterMap, ListMap;
      ReleasedCollectors(c);
      ReleasedLists(c);
    }

    twostate lemma ReleasedCollectors(c: CollectorRec)
      requires Dropped(c)
      ensures Forwarded() == old(Forwarded()) - {c.id} && CounterMap() == old(CounterMap()) - {c.id}
    {
      forall d | d in collectors ensures Forwarded()[d] == old(Forwarded())[d] {
        assert old(collectors)[d] == collectors[d] && collectors[d] in collectors.Values;
      }
      forall n | n in counters ensures CounterMap()[n] == old(CounterMap())[n] {
        assert old(counters)[n] == counters[n] && counters[n] in counters.Values;
      }
      MinusIs(old(Forwarded()), Forwarded(), c.id);
      MinusIs(old(CounterMap()), CounterMap(), c.id);
    }

    twostate lemma ReleasedLists(c: CollectorRec)
      requires Dropped(c)
      ensures ListMap() == map l | l in old(ListMap()) && l.coll != c.id :: old(ListMap())[l]
    {
      forall l | l in lists ensures ListMap()[l] == old(ListMap())[l] {
        assert old(lists)[l] == lists[l] && lists[l] in lists.Values;
      }
    }

    // ---- Reading records ----

    lemma ObjectAt(o: ObjectRec)
      requires Valid() && Known(o)
      ensures var st := St();
        o.id in st.g.objs && o.id in st.count && o.id in st.collector && st.count[o.id] == o.count && st.Num(o.id) == o.count &&
        st.Which(o.id) == o.which && st.g.Ph(o.id) == o.phantomized && st.Coll(o.id) == CollId(o.collector) &&
        st.g.Keys(o.id) == o.order
      ensures KnownColl(o.collector)
      ensures forall k :: k in o.links ==> M.Slot(o.id, k) in links && links[M.Slot(o.id, k)] == o.links[k] && o.links[k].slot == M.Slot(o.id, k)
      ensures forall k :: k in o.links <==> M.Slot(o.id, k) in St().g.links
    {
      hide CollectorsValid, ListsValid, Forwarded, CounterMap, ListMap, Repr, CollRepr;
    }

    lemma LinkOf(l: LinkRec)
      requires Valid() && l.slot in links && links[l.slot] == l
      ensures var st := St();
        l.slot in st.g.links && st.g.links[l.slot] == M.Link(l.target.id, l.which, l.phantomized) && l.slot.src == l.src.id
      ensures Known(l.src) && Known(l.target)
    {
      hide ObjectsValid, CollectorsValid, ListsValid, Forwarded, CounterMap, ListMap, Whichs, Phs, Orders, Counts, Colls, Repr;
    }

    lemma CollectorAt(c: CollectorRec)
      requires Valid() && KnownColl(c)
      ensures var st := St();
        c.id in st.cs.forward && st.cs.forward[c.id] == CollId(c.forward) &&
        c.id in st.cs.counter && st.cs.counter[c.id] == M.Counter(c.count.refs, c.count.stores)
      ensures KnownColl(c.forward) && c.count.id == c.id && c.id in counters && counters[c.id] == c.count
      ensures forall k :: KnownList(c.List(k)) && c.List(k).lid == M.Lid(c.id, k) && c.List(k) in lists.Values
    {
      hide ObjectsValid, LinksValid, ListMap, Whichs, Phs, Orders, Counts, Colls, LinkMap, Repr;
    }

    lemma ListOf(l: SafeListRec)
      requires Valid() && KnownList(l)
      ensures var st := St();
        l.lid in st.cs.lists && st.cs.lists[l.lid] == M.SafeList(Ids(l.data), ListId(l.forward)) &&
        M.ListAt(st.cs.lists, l.lid) == M.SafeList(Ids(l.data), ListId(l.forward))
      ensures KnownList(l.forward) && l.count.id == l.lid.coll && l.lid.coll in counters && counters[l.lid.coll] == l.count
      ensures l.lid.coll in St().cs.counter && St().cs.counter[l.lid.coll].stores == l.count.stores
      ensures forall o :: o in l.data ==> Known(o)
    {
      hide ObjectsValid, LinksValid, Whichs, Phs, Orders, Counts, Colls, LinkMap, Repr;
    }

    // ---- object.c, collector.c and safelist.c: pointers and lists ----

    /** The collector of an object, and the one that a collector forwards to, have
        references to give up. */
    lemma Referenced(obj: ObjectRec)
      requires Valid() && Known(obj) && Struct(St())
      ensures obj.collector != null ==> obj.collector.count.refs >= 1
    {
      hide Valid, St, LinksShape, M.Registered, Wired, Listed, RefBalance;
      if obj.collector != null {
        ObjectAt(obj);
        CollectorAt(obj.collector);
        PointedAt(St(), obj.id);
      }
    }

    lemma ForwardReferenced(c: CollectorRec)
      requires Valid() && KnownColl(c) && Struct(St())
      ensures c.forward != null ==> c.forward.count.refs >= 1
    {
      hide Valid, St, LinksShape, M.Registered, Wired, Listed, RefBalance;
      if c.forward != null {
        CollectorAt(c);
        CollectorAt(c.forward);
        ForwardedFrom(St(), c.id);
      }
    }

    /** object_set_collector */
    method SetCollector(obj: ObjectRec, c: CollectorRec?)
      requires Valid() && Known(obj) && KnownColl(c)
      requires obj.collector != null && obj.collector != c ==> obj.collector.count.refs >= 1
      modifies obj`collector, counters.Values`refs
      ensures Valid() && St() == M.SetColl(old(St()), obj.id, CollId(c)) && obj.collector == c
    {
      hide Valid, St;
      ObjectAt(obj);
      if obj.collector != c {
        if c != null {
          CollectorAt(c);
          AddRefs(c.count, true);
        }
        if obj.collector != null {
          CollectorAt(obj.collector);
          AddRefs(obj.collector.count, false);
        }
        PutCollector(obj, c);
      }
    }

    /** safelist_poll */
    method SafelistPoll(l: SafeListRec) returns (r: ObjectRec?)
      requires Valid() && KnownList(l) && (l.data != [] ==> l.count.stores >= 1)
      modifies l`data, counters.Values`stores
      ensures Valid()
      ensures r == null <==> M.ListAt(old(St()).cs.lists, l.lid).data == []
      ensures r == null ==> St() == old(St())
      ensures r != null ==> Known(r) && r.id == M.ListAt(old(St()).cs.lists, l.lid).data[0] && St() == M.Poll(old(St()), l.lid)
    {
      hide Valid, St;
      ListOf(l);
      if |l.data| == 0 {
        r := null;
      } else {
        AddStores(l.count, false);
        r := l.data[0];
        assert r in l.data;
        PutData(l, l.data[1..]);
        assert Ids(old(l.data)[1..]) == Ids(old(l.data))[1..];
      }
    }

    /** collector_update */
    method CollectorUpdate(collector: CollectorRec) returns (r: CollectorRec)
      requires Valid() && KnownColl(collector) && M.Registered(St().cs)
      ensures Valid() && St() == old(St()) && KnownColl(r) && r.id == M.Root(St().cs.forward, collector.id)
    {
      hide Valid, St;
      var c: CollectorRec := collector;
      CollectorAt(c);
      while c.forward != null
        invariant Valid() && St() == old(St()) && KnownColl(c) && c.id in St().cs.forward
        invariant M.Root(St().cs.forward, c.id) == M.Root(St().cs.forward, collector.id)
        decreases Fuel(St().cs.forward, c.id)
      {
        CollectorAt(c);
        c := c.forward;
        CollectorAt(c);
      }
      CollectorAt(c);
      r := c;
    }

    /** collector_equals, as far as its value goes */
    method CollectorEquals(collector1: CollectorRec?, collector2: CollectorRec?) returns (b: bool)
      requires Valid() && KnownColl(collector1) && KnownColl(collector2) && M.Registered(St().cs)
      ensures Valid() && St() == old(St())
      ensures b <==> RootOf(CollId(collector1)) == RootOf(CollId(collector2))
    {
      hide Valid, St;
      var c1, c2 := collector1, collector2;
      while true
        invariant Valid() && St() == old(St()) && KnownColl(c1) && KnownColl(c2)
        invariant RootOf(CollId(c1)) == RootOf(CollId(collector1)) && RootOf(CollId(c2)) == RootOf(CollId(collector2))
        decreases FuelOf(c1), FuelOf(c2)
      {
        if c1 != null { CollectorAt(c1); }
        if c2 != null { CollectorAt(c2); }
        if c1 == c2 {
          return true;
        } else if c1 != null && c1.forward != null {
          c1 := c1.forward;
          CollectorAt(c1);
        } else if c2 != null && c2.forward != null {
          c2 := c2.forward;
          CollectorAt(c2);
        } else {
          return false;
        }
      }
    }

    /** The representative of a collector, if there is one. */
    ghost function RootOf(c: Option<Cid>): Option<Cid>
      reads this, Repr()
    {
      if c.None? then None else Some(M.Root(St().cs.forward, c.value))
    }

    ghost function FuelOf(c: CollectorRec?): nat
      requires M.Registered(St().cs)
      reads this, Repr()
    {
      if c == null || c.id !in St().cs.forward then 0 else 1 + Fuel(St().cs.forward, c.id)
    }

    /** safelist_add */
    method SafelistAdd(l: SafeListRec, o: ObjectRec)
      requires Valid() && KnownList(l) && Known(o)
      requires l.forward == null || (M.Registered(St().cs) && Wired(St().cs))
      modifies lists.Values`data, counters.Values`stores
      ensures Valid()
      ensures old(l.forward) == null ==> St() == M.Append(old(St()), l.lid, o.id)
      ensures old(M.Registered(St().cs) && Wired(St().cs)) ==> St() == M.ListAdd(old(St()), l.lid, o.id)
    {
      hide Valid, St, M.Registered;
      ListOf(l);
      if l.forward == null {
        if M.Registered(St().cs) && Wired(St().cs) {
          EndHere(St().cs, l.lid);
        }
        AddHere(l, o);
      } else {
        var f: SafeListRec := l.forward;
        ListOf(f);
        EndNext(St().cs, l.lid);
        while f.forward != null
          invariant Valid() && St() == old(St()) && KnownList(f) && f.lid in St().cs.lists
          invariant M.ListEnd(St().cs.forward, f.lid) == M.ListEnd(St().cs.forward, l.lid)
          decreases ListFuel(f)
        {
          ListOf(f);
          EndNext(St().cs, f.lid);
          f := f.forward;
          ListOf(f);
        }
        ListOf(f);
        EndHere(St().cs, f.lid);
        AddHere(f, o);
      }
    }

    ghost function ListFuel(l: SafeListRec): nat
      requires M.Registered(St().cs)
      reads this, Repr()
    {
      if l.lid.coll in St().cs.forward then Fuel(St().cs.forward, l.lid.coll) else 0
    }

    lemma EndHere(cs: M.Collecting, lid: M.Lid)
      requires M.Registered(cs) && Wired(cs) && lid in cs.lists && cs.lists[lid].forward.None?
      ensures M.ListEnd(cs.forward, lid) == lid
    {
    }

    lemma EndNext(cs: M.Collecting, lid: M.Lid)
      requires M.Registered(cs) && Wired(cs) && lid in cs.lists && cs.lists[lid].forward.Some?
      ensures var f := cs.lists[lid].forward.value;
        M.ListEnd(cs.forward, f) == M.ListEnd(cs.forward, lid) && lid.coll in cs.forward && f.coll in cs.forward &&
        Fuel(cs.forward, f.coll) < Fuel(cs.forward, lid.coll)
    {
      assert lid.coll in cs.forward && cs.forward[lid.coll].Some?;
    }

    /** The end of safelist_add, on a list that is not forwarded. */
    method AddHere(l: SafeListRec, o: ObjectRec)
      requires Valid() && KnownList(l) && Known(o)
      modifies l`data, l.count`stores
      ensures Valid() && St() == M.Append(old(St()), l.lid, o.id)
    {
      hide Valid, St;
      ListOf(l);
      AddStores(l.count, true);
      PutData(l, l.data + [o]);
      assert Ids(old(l.data) + [o]) == Ids(old(l.data)) + [o.id];
    }

    /** One round of the loop of safelist_forward. */
    method ForwardOne(sl: SafeListRec, to: SafeListRec) returns (more: bool)
      requires Valid() && KnownList(sl) && KnownList(to) && to.forward == null && (sl.data != [] ==> sl.count.stores >= 1)
      modifies lists.Values`data, counters.Values`stores
      ensures Valid() && (more <==> M.ListAt(old(St()).cs.lists, sl.lid).data != [])
      ensures St() == if more then M.Append(M.Poll(old(St()), sl.lid), to.lid, M.ListAt(old(St()).cs.lists, sl.lid).data[0]) else old(St())
    {
      hide Valid, St, M.Append, M.Poll, M.ListAdd;
      var obj := SafelistPoll(sl);
      if obj == null { return false; }
      SafelistAdd(to, obj);
      more := true;
    }

    /** safelist_forward */
    method SafelistForward(sl: SafeListRec, to: SafeListRec)
      requires Valid() && KnownList(sl) && KnownList(to) && sl != to && sl.lid.coll != to.lid.coll && to.forward == null
      requires StoreBalance(St().cs, sl.lid.coll) == 0
      modifies lists.Values`data, sl`forward, counters.Values`stores
      ensures Valid() && St() == old(St()).(cs := ForwardedTo(old(St()).cs, sl.lid, to.lid))
    {
      hide Valid, St, M.Append, M.Poll, Moving;
      ghost var k, s0 := 0, St();
      ListOf(sl);
      ListOf(to);
      ghost var n := |M.ListAt(s0.cs.lists, sl.lid).data|;
      MovingNone(s0.cs, sl.lid, to.lid);
      while true
        invariant Valid() && 0 <= k <= n && St() == s0.(cs := Moving(s0.cs, sl.lid, to.lid, k))
        decreases n - k
      {
        ghost var s1 := St();
        MovingData(s0.cs, sl.lid, to.lid, k);
        MovingPaid(s0.cs, sl.lid, to.lid, k);
        ListOf(sl);
        var more := ForwardOne(sl, to);
        if !more { break; }
        MovingStep(s0, s1, sl.lid, to.lid, k);
        k := k + 1;
      }
      ForwardList(sl, to);
    }

    lemma ListsApart(c: CollectorRec, s: CollectorRec)
      requires Valid() && KnownColl(c) && KnownColl(s) && c != s
      ensures {s.collect, s.merged, s.rebuild} !! {c.collect, c.merged, c.rebuild, c.clean, c.recovery}
    {
      hide Valid, St;
      CollectorAt(c);
      CollectorAt(s);
      assert s.collect == s.List(M.Collect) && s.merged == s.List(M.Merged) && s.rebuild == s.List(M.Rebuild);
      assert c.collect == c.List(M.Collect) && c.merged == c.List(M.Merged) && c.rebuild == c.List(M.Rebuild)
        && c.clean == c.List(M.Clean) && c.recovery == c.List(M.Recovery);
    }

    /** collector_forward_safelists_to */
    method ForwardSafelists(collector: CollectorRec, s: CollectorRec)
      requires Valid() && KnownColl(collector) && KnownColl(s) && collector != s && forall k :: s.List(k).forward == null
      requires StoreBalance(St().cs, collector.id) == 0
      modifies lists.Values`data, collector.collect`forward, collector.merged`forward, collector.rebuild`forward,
        collector.clean`forward, collector.recovery`forward, counters.Values`stores
      ensures Valid() && St() == old(St()).(cs := AllForwarded(old(St()).cs, collector.id, s.id))
    {
      hide Valid, St, ForwardedTo, StoreBalance;
      CollectorAt(collector);
      CollectorAt(s);
      assert collector.id != s.id;
      ListsApart(collector, s);
      assert s.collect == s.List(M.Collect) && s.merged == s.List(M.Merged) && s.rebuild == s.List(M.Rebuild);
      assert collector.collect == collector.List(M.Collect) && collector.merged == collector.List(M.Merged)
        && collector.rebuild == collector.List(M.Rebuild) && collector.clean == collector.List(M.Clean)
        && collector.recovery == collector.List(M.Recovery);
      ForwardedPaid(St().cs, M.Lid(collector.id, M.Collect), M.Lid(s.id, M.Collect));
      SafelistForward(collector.collect, s.collect);
      ForwardedPaid(St().cs, M.Lid(collector.id, M.Merged), M.Lid(s.id, M.Merged));
      SafelistForward(collector.merged, s.merged);
      ForwardedPaid(St().cs, M.Lid(collector.id, M.Rebuild), M.Lid(s.id, M.Rebuild));
      SafelistForward(collector.rebuild, s.rebuild);
      ForwardedPaid(St().cs, M.Lid(collector.id, M.Clean), M.Lid(s.id, M.Merged));
      SafelistForward(collector.clean, s.merged);
      SafelistForward(collector.recovery, s.merged);
    }

    /** collector_set_forward */
    method SetForward(collector: CollectorRec, f: CollectorRec?)
      requires Valid() && KnownColl(collector) && KnownColl(f)
      requires collector.forward != null && collector.forward != f ==> collector.forward.count.refs >= 1
      modifies collector`forward, counters.Values`refs
      ensures Valid()
      ensures collector.forward == f
      ensures var cs := old(St()).cs;
        St() == old(St()).(cs :=
          if CollId(f) == cs.forward[collector.id] then cs
          else M.AddRefs(M.AddRefs(cs, CollId(f), 1), cs.forward[collector.id], -1).(forward := cs.forward[collector.id := CollId(f)]))
    {
      hide Valid, St;
      CollectorAt(collector);
      if f == collector.forward {
        return;
      }
      if f != null {
        CollectorAt(f);
        AddRefs(f.count, true);
      }
      if collector.forward != null {
        CollectorAt(collector.forward);
        AddRefs(collector.forward.count, false);
      }
      ForwardCollector(collector, f);
    }

    /** collector_merge: `s` forwards to `collector` from now on */
    method CollectorMerge(collector: CollectorRec, s: CollectorRec)
      requires Valid() && KnownColl(collector) && KnownColl(s) && collector != s
      requires M.Registered(St().cs) && Wired(St().cs) && collector.forward == null && s.forward == null
      requires StoreBalance(St().cs, s.id) == 0
      modifies s`forward, lists.Values`data, lists.Values`forward, counters.Values
      ensures Valid() && St() == M.MergeColls(old(St()), collector.id, s.id) && s.forward == collector
    {
      hide Valid, St, AllForwarded;
      CollectorAt(collector);
      CollectorAt(s);
      ghost var cs := St().cs;
      forall k ensures collector.List(k).forward == null {
        ListOf(collector.List(k));
      }
      assert s.collect == s.List(M.Collect) && s.merged == s.List(M.Merged) && s.rebuild == s.List(M.Rebuild)
        && s.clean == s.List(M.Clean) && s.recovery == s.List(M.Recovery);
      ForwardSafelists(s, collector);
      AllForwardedCounter(cs, s.id, collector.id);
      SetForward(s, collector);
      AllForwardedJoin(cs, s.id, collector.id);
    }

    // ---- object.c and link.c: counting ----

    ghost function Reg(): Registry
      reads `collectors, `lists, `counters
    {
      Registry(collectors, lists, counters)
    }

    /** Nothing that was in a registry has left it, and what is new is fresh. */
    twostate predicate Extends()
      reads this
    {
      Grows(old(Reg()), Reg()) && forall x :: x in CollRepr() ==> x in old(CollRepr()) || fresh(x)
    }

    /** collector_create */
    method CollectorCreate() returns (c: CollectorRec)
      requires Valid() && M.Registered(St().cs)
      modifies `collectors, `lists, `counters, `next
      ensures Valid() && Extends() && KnownColl(c) && c.id == old(next)
      ensures St() == old(St()).(cs := M.AddColl(old(St()).cs))
    {
      hide M.Registered, Valid, St, Extends, Created, LinksValid, Whichs, Phs, Orders, Counts, Colls, LinkMap;
      NextFree();
      c := NewCollector();
      CreatedAll(c);
    }

    method NewCollector() returns (c: CollectorRec)
      modifies `collectors, `lists, `counters, `next
      ensures fresh(c) && fresh(c.count) && forall k :: fresh(c.List(k))
      ensures Created(c) && c.forward == null && c.count.refs == 0 && c.count.stores == 0
      ensures forall k :: c.List(k).data == [] && c.List(k).forward == null
    {
      c := new CollectorRec(next);
      collectors := collectors[next := c];
      counters := counters[next := c.count];
      lists := lists[M.Lid(next, M.Collect) := c.collect][M.Lid(next, M.Merged) := c.merged][M.Lid(next, M.Recovery) := c.recovery]
                    [M.Lid(next, M.Rebuild) := c.rebuild][M.Lid(next, M.Clean) := c.clean];
      next := next + 1;
    }

    /** No record that was there has changed. */
    twostate predicate Untouched()
      reads this, Repr()
    {
      && (forall d :: d in old(collectors) && d in collectors ==> old(collectors)[d] == collectors[d] ==>
            collectors[d].forward == old(collectors[d].forward))
      && (forall n :: n in old(counters) && n in counters ==> old(counters)[n] == counters[n] ==>
            counters[n].refs == old(counters[n].refs) && counters[n].stores == old(counters[n].stores))
      && (forall l :: l in old(lists) && l in lists ==> old(lists)[l] == lists[l] ==>
            lists[l].data == old(lists[l].data) && lists[l].forward == old(lists[l].forward))
      && (forall p :: p in objects ==> p in old(objects) && old(objects)[p] == objects[p] ==>
            objects[p].collector == old(objects[p].collector) && objects[p].links == old(objects[p].links))
      && Whichs() == old(Whichs()) && Phs() == old(Phs()) && Orders() == old(Orders()) && Counts() == old(Counts())
      && Colls() == old(Colls()) && LinkMap() == old(LinkMap()) && LinksValid() == old(LinksValid())
      && claims == old(claims) && tasks == old(tasks)
    }

    twostate lemma CreatedAll(new c: CollectorRec)
      requires old(Valid()) && Created(c) && Untouched() && c.id !in old(collectors)
      requires fresh(c) && fresh(c.count) && forall k :: fresh(c.List(k))
      requires c.forward == null && c.count.refs == 0 && c.count.stores == 0
      requires forall k :: c.List(k).data == [] && c.List(k).forward == null
      ensures Valid() && Extends() && KnownColl(c) && St() == old(St()).(cs := M.AddColl(old(St()).cs))
    {
      hide ObjectsValid, LinksValid, CollectorsValid, ListsValid, Whichs, Phs, Orders, Counts, Colls, LinkMap, Forwarded, CounterMap, ListMap, Extends;
      CreatedCollectors(c);
      CreatedLists(c);
      CreatedObjects(c);
      CreatedRepr(c);
    }

    lemma NextFree()
      requires Valid() && M.Registered(St().cs)
      ensures next !in collectors && next !in counters && forall k :: M.Lid(next, k) !in lists
    {
      hide ObjectsValid, LinksValid, ListsValid, Whichs, Phs, Orders, Counts, Colls, LinkMap, CounterMap, ListMap, Repr, CollRepr;
      NextFresh(St().cs);
      assert forall d :: d in collectors ==> d in Forwarded();
    }

    /** The registries hold one collector more. */
    twostate predicate Created(new c: CollectorRec)
      reads this
    {
      && objects == old(objects) && links == old(links) && c.id == old(next) && next == c.id + 1
      && collectors == old(collectors)[c.id := c] && counters == old(counters)[c.id := c.count]
      && lists == old(lists)[M.Lid(c.id, M.Collect) := c.collect][M.Lid(c.id, M.Merged) := c.merged]
                            [M.Lid(c.id, M.Recovery) := c.recovery][M.Lid(c.id, M.Rebuild) := c.rebuild][M.Lid(c.id, M.Clean) := c.clean]
      && c.count.id == c.id && forall k :: c.List(k).lid == M.Lid(c.id, k) && c.List(k).count == c.count
    }

    twostate lemma CreatedLookup(new c: CollectorRec)
      requires old(Valid()) && Created(c)
      ensures lists.Keys == old(lists.Keys) + set k | k in KINDS :: M.Lid(c.id, k)
      ensures forall lid :: lid in lists ==> lists[lid] == if lid.coll == c.id then c.List(lid.kind) else old(lists)[lid]
      ensures forall lid: M.Lid :: lid.coll == c.id ==> lid in lists
    {
      forall lid: M.Lid
        ensures lid in lists <==> lid in old(lists) || lid.coll == c.id
        ensures lid in lists ==> lists[lid] == if lid.coll == c.id then c.List(lid.kind) else old(lists)[lid]
      {
        match lid.kind
        case Collect =>
        case Merged =>
        case Recovery =>
        case Rebuild =>
        case Clean =>
      }
    }

    twostate lemma CreatedCollectors(new c: CollectorRec)
      requires old(Valid()) && Created(c) && c.id !in old(collectors) && c.forward == null
      requires c.count.refs == 0 && c.count.stores == 0
      requires Untouched()
      ensures CollectorsValid() && Forwarded() == old(Forwarded())[c.id := None]
      ensures CounterMap() == old(CounterMap())[c.id := M.Counter(0, 0)]
    {
      hide ObjectsValid, LinksValid, ListsValid, Whichs, Phs, Orders, Counts, Colls, LinkMap, Forwarded, CounterMap;
      assert c.id !in old(counters);
      CreatedCollectorsValid(c);
      CreatedMaps(c);
    }

    twostate lemma CreatedMaps(new c: CollectorRec)
      requires c.forward == null && c.count.refs == 0 && c.count.stores == 0 && c.id !in old(collectors) && c.id !in old(counters)
      requires collectors == old(collectors)[c.id := c] && counters == old(counters)[c.id := c.count]
      requires forall d :: d in old(collectors) ==> old(collectors)[d].forward == old(collectors[d].forward)
      requires forall n :: n in old(counters) ==> old(counters)[n].refs == old(counters[n].refs) && old(counters)[n].stores == old(counters[n].stores)
      ensures Forwarded() == old(Forwarded())[c.id := None]
      ensures CounterMap() == old(CounterMap())[c.id := M.Counter(0, 0)]
    {
      forall d | d in collectors ensures Forwarded()[d] == old(Forwarded())[c.id := None][d] {
        assert d != c.id ==> d in old(collectors) && collectors[d] == old(collectors)[d];
      }
      forall n | n in counters ensures CounterMap()[n] == old(CounterMap())[c.id := M.Counter(0, 0)][n] {
        assert n != c.id ==> n in old(counters) && counters[n] == old(counters)[n];
      }
    }

    twostate lemma CreatedCollectorsValid(new c: CollectorRec)
      requires old(CollectorsValid()) && Created(c) && c.id !in old(collectors) && c.forward == null && old(Valid())
      requires forall d :: d in old(collectors) ==> d in collectors && collectors[d] == old(collectors)[d] && collectors[d].forward == old(collectors[d].forward)
      ensures CollectorsValid()
    {
      hide ObjectsValid, LinksValid, ListsValid;
      CreatedLookup(c);
    }

    twostate lemma CreatedLists(new c: CollectorRec)
      requires old(Valid()) && Created(c) && c.id !in old(collectors)
      requires forall k :: c.List(k).data == [] && c.List(k).forward == null
      requires Untouched()
      ensures ListsValid() && ListMap() == M.NewLists(old(ListMap()), c.id)
    {
      hide ObjectsValid, LinksValid, Whichs, Phs, Orders, Counts, Colls, LinkMap, ListMap;
      CreatedLookup(c);
      CreatedListMap(c);
      CreatedListsValid(c);
    }

    twostate lemma CreatedListMap(new c: CollectorRec)
      requires forall k :: c.List(k).data == [] && c.List(k).forward == null
      requires forall lid :: lid in lists <==> lid in old(lists) || lid.coll == c.id
      requires forall lid :: lid in lists ==> lists[lid] == if lid.coll == c.id then c.List(lid.kind) else old(lists)[lid]
      requires forall lid :: lid in old(lists) ==> lid.coll != c.id && lists[lid].data == old(lists[lid].data) && lists[lid].forward == old(lists[lid].forward)
      ensures ListMap() == M.NewLists(old(ListMap()), c.id)
    {
      NewListsAt(old(ListMap()), c.id);
      hide M.NewLists;
      assert Ids([]) == [];
      forall lid | lid in lists ensures ListMap()[lid] == M.NewLists(old(ListMap()), c.id)[lid] {
      }
    }

    twostate lemma CreatedListsValid(new c: CollectorRec)
      requires old(ListsValid()) && objects == old(objects) && c.id !in old(counters) && counters == old(counters)[c.id := c.count]
      requires forall k :: c.List(k).data == [] && c.List(k).forward == null && c.List(k).lid == M.Lid(c.id, k) && c.List(k).count == c.count
      requires forall lid :: lid in lists <==> lid in old(lists) || lid.coll == c.id
      requires forall lid :: lid in lists ==> lists[lid] == if lid.coll == c.id then c.List(lid.kind) else old(lists)[lid]
      requires forall lid :: lid in old(lists) ==> lid.coll != c.id && lists[lid].data == old(lists[lid].data) && lists[lid].forward == old(lists[lid].forward)
      ensures ListsValid()
    {
    }

    twostate lemma CreatedObjects(new c: CollectorRec)
      requires old(Valid()) && Created(c) && c.id !in old(collectors)
      requires Untouched()
      ensures ObjectsValid()
    {
      hide LinksValid, ListsValid, CollectorsValid, Whichs, Phs, Orders, Counts, Colls, LinkMap;
    }

    twostate lemma CreatedRepr(new c: CollectorRec)
      requires old(Valid()) && Created(c) && c.id !in old(collectors) && fresh(c) && fresh(c.count) && forall k :: fresh(c.List(k))
      ensures Extends() && KnownColl(c)
    {
      hide ObjectsValid, LinksValid, ListsValid;
      CreatedLookup(c);
      forall l | l in lists.Values ensures l in old(lists.Values) || fresh(l) {
        var lid := KeyOf(lists, l);
        if lid.coll != c.id {
          assert old(lists)[lid] in old(lists.Values);
        }
      }
      forall d | d in collectors.Values ensures d in old(collectors.Values) || fresh(d) {
        var i := KeyOf(collectors, d);
        if i != c.id {
          assert old(collectors)[i] in old(collectors.Values);
        }
      }
      forall n | n in counters.Values ensures n in old(counters.Values) || fresh(n) {
        var i := KeyOf(counters, n);
        if i != c.id {
          assert old(counters)[i] in old(counters.Values);
        }
      }
    }

    /** collector_add_object */
    method CollectorAddObject(collector: CollectorRec, obj: ObjectRec)
      requires Valid() && KnownColl(collector) && Known(obj) && M.Registered(St().cs) && Wired(St().cs)
      requires obj.collector != null ==> obj.collector.count.refs >= 1
      modifies obj`count, obj`collector, lists.Values`data, counters.Values
      ensures Valid() && St() == M.AddObject(old(St()), collector.id, obj.id)
    {
      hide Valid, St;
      var addTo := Enqueue(collector, obj);
      SetCollector(obj, addTo);
    }

    /** The part of collector_add_object that puts the object into the collect list. */
    method Enqueue(collector: CollectorRec, obj: ObjectRec) returns (addTo: CollectorRec)
      requires Valid() && KnownColl(collector) && Known(obj) && M.Registered(St().cs) && Wired(St().cs)
      modifies obj`count, lists.Values`data, counters.Values`stores
      ensures Valid() && Known(obj) && KnownColl(addTo) && addTo.id == M.Root(old(St()).cs.forward, collector.id)
      ensures var s0, n := old(St()), old(St()).Num(obj.id).AddPlain(old(St()).Which(obj.id), 1).AddPhantom(1);
        St() == M.Append(M.PutCount(s0, obj.id, n), M.Lid(addTo.id, M.Collect), obj.id)
    {
      hide Valid, St, M.Registered, Wired, M.Append;
      addTo := CollectorUpdate(collector);
      CollectorAt(addTo);
      ObjectAt(obj);
      CollectorAt(collector);
      RootList(St(), collector.id);
      assert addTo.collect == addTo.List(M.Collect);
      ListOf(addTo.collect);
      PutCount(obj, obj.count.AddPlain(obj.which, 1).AddPhantom(1));
      SafelistAdd(addTo.collect, obj);
    }

    /** The lists of a representative are not forwarded. */
    lemma RootList(st: M.State, c: Cid)
      requires M.Registered(st.cs) && Wired(st.cs) && c in st.cs.forward
      ensures var r := M.Root(st.cs.forward, c);
        r in st.cs.forward && M.Lid(r, M.Collect) in st.cs.lists && st.cs.lists[M.Lid(r, M.Collect)].forward.None?
    {
      RootRoot(st.cs.forward, c);
    }

    method PutTasks(ts: multiset<M.Task>)
      requires Valid()
      modifies `tasks
      ensures Valid() && St() == old(St()).(tasks := ts) && tasks == ts
    {
      hide ObjectsValid, LinksValid, CollectorsValid, ListsValid, Whichs, Phs, Orders, Counts, Colls, LinkMap, Forwarded, CounterMap, ListMap, Repr, CollRepr;
      tasks := ts;
    }

    lemma TasksAre()
      ensures St().tasks == tasks
    {
    }

    /** task_start: one more task that has not ended */
    method TaskStart(t: M.Task)
      requires Valid()
      modifies `tasks
      ensures Valid() && St() == old(St()).(tasks := old(St()).tasks + multiset{t})
    {
      hide Valid, St;
      TasksAre();
      PutTasks(tasks + multiset{t});
    }

    /** The task has ended. */
    method TaskEnd(t: M.Task)
      requires Valid()
      modifies `tasks
      ensures Valid() && St() == old(St()).(tasks := old(St()).tasks - multiset{t})
    {
      hide Valid, St;
      TasksAre();
      PutTasks(tasks - multiset{t});
    }

    /** object_request_delete */
    method RequestDelete(obj: ObjectRec)
      requires Valid()
      modifies `tasks
      ensures Valid() && St() == M.Doom(old(St()), obj.id)
    {
      TaskStart(M.DeleteObject(obj.id));
    }

    lemma NextIs()
      ensures St().cs.next == next
    {
    }

    lemma SetCollTasks(st: M.State, o: Oid, c: Cid)
      requires c == st.cs.next
      ensures var s1 := M.SetColl(st.(cs := M.AddColl(st.cs)), o, Some(c));
        s1.(tasks := s1.tasks + multiset{M.RunCollector(c)}) == M.SetColl(M.NewColl(st), o, Some(c))
    {
      hide M.AddColl;
    }

    /** The part of object_dec that sees to it that the object has a collector. */
    method EnsureCollector(obj: ObjectRec)
      requires Valid() && Known(obj) && M.Registered(St().cs) && obj.collector == null
      modifies `collectors, `lists, `counters, `next, `tasks, objects.Values`count, objects.Values`collector, CollRepr()
      ensures Valid() && Extends() && Known(obj) && KnownColl(obj.collector) && obj.collector != null && obj.collector.id == old(next)
      ensures St() == M.SetColl(M.NewColl(old(St())), obj.id, Some(old(next)))
    {
      hide Valid, St, Repr, CollRepr, M.SetColl, M.Registered;
      ghost var s0 := St();
      NextIs();
      var c := CollectorCreate();
      SetCollector(obj, c);
      TaskStart(M.RunCollector(c.id));
      SetCollTasks(s0, obj.id, c.id);
    }

    /** The part of object_dec that hands the object to a collector. */
    method Suspect(obj: ObjectRec)
      requires Valid() && Known(obj) && Struct(St())
      modifies `collectors, `lists, `counters, `next, `tasks, objects.Values`count, objects.Values`collector, CollRepr()
      ensures Valid() && Extends() && St() == M.Suspect(old(St()), obj.id)
    {
      hide Valid, St, Struct, Repr, CollRepr, M.Registered, Wired, M.AddObject, M.SetColl, M.NewColl;
      ghost var s0 := St();
      ObjectAt(obj);
      StructParts(s0);
      if obj.collector == null {
        NextIs();
        EnsureCollector(obj);
        SuspectStruct(s0, obj.id);
        StructParts(St());
      }
      Referenced(obj);
      CollectorAddObject(obj.collector, obj);
    }

    lemma SuspectStruct(st: M.State, o: Oid)
      requires Struct(st) && o in st.g.objs
      ensures Struct(M.SetColl(M.NewColl(st), o, Some(st.cs.next)))
    {
      NewCollStruct(st);
      hide M.NewColl, Struct;
      SetCollStruct(M.NewColl(st), o, Some(st.cs.next));
    }

    /** object_dec */
    method ObjectDec(obj: ObjectRec, w: bool)
      requires Valid() && Known(obj) && Struct(St()) && obj.count.Plain(w) >= 1
      modifies `collectors, `lists, `counters, `next, `tasks, objects.Values`count, objects.Values`collector, CollRepr()
      ensures Valid() && Extends() && Struct(St()) && St() == M.Dec(old(St()), obj.id, w)
    {
      hide Valid, St, Struct, Repr, CollRepr, M.Suspect, M.Doom;
      ghost var s0 := St();
      ObjectAt(obj);
      DecStruct(s0, obj.id, w);
      PutCountStruct(s0, obj.id, obj.count.AddPlain(w, -1));
      PutCount(obj, obj.count.AddPlain(w, -1));
      assert obj.count.Plain(w) >= 0;
      if obj.count.Plain(w) == 0 && w == obj.which {
        if obj.count.Plain(!obj.which) == 0 && obj.count.n2 == 0 {
          RequestDelete(obj);
        } else {
          ExtendsSame();
          Suspect(obj);
        }
      }
    }

    twostate lemma ExtendsSame()
      requires collectors == old(collectors) && lists == old(lists) && counters == old(counters)
      ensures Extends() && CollRepr() == old(CollRepr())
    {
    }

    lemma StructParts(st: M.State)
      requires Struct(st)
      ensures M.Registered(st.cs) && Wired(st.cs)
    {
    }

    lemma DecStruct(st: M.State, o: Oid, w: bool)
      requires Struct(st) && o in st.g.objs
      ensures Struct(M.Dec(st, o, w))
    {
      Phantomizing.DecEffect(st, o, w);
    }
  }

  /** The first `k` entries of one list have moved to the end of another. */
  ghost function Moving(cs: M.Collecting, from: M.Lid, to: M.Lid, k: int): M.Collecting
    requires 0 <= k <= |M.ListAt(cs.lists, from).data|
  {
    var df, dt := M.ListAt(cs.lists, from).data, M.ListAt(cs.lists, to).data;
    M.AddCounter(M.AddCounter(cs.(lists := M.PutData(M.PutData(cs.lists, from, df[k..]), to, dt + df[..k])), from.coll, 0, -k), to.coll, 0, k)
  }

  /** All entries of a list have moved, and it is forwarded. */
  ghost function ForwardedTo(cs: M.Collecting, from: M.Lid, to: M.Lid): (r: M.Collecting)
    ensures r.forward == cs.forward && r.next == cs.next
  {
    var r := Moving(cs, from, to, |M.ListAt(cs.lists, from).data|);
    r.(lists := r.lists[from := M.SafeList([], Some(to))])
  }

  lemma MovingNone(cs: M.Collecting, from: M.Lid, to: M.Lid)
    requires from in cs.lists && to in cs.lists && from.coll in cs.counter && to.coll in cs.counter && from != to
    ensures Moving(cs, from, to, 0) == cs
  {
    var df, dt := cs.lists[from].data, cs.lists[to].data;
    assert df[0..] == df && dt + df[..0] == dt;
    assert Moving(cs, from, to, 0).lists == cs.lists;
    assert Moving(cs, from, to, 0).counter == cs.counter;
  }

  lemma MovingData(cs: M.Collecting, from: M.Lid, to: M.Lid, k: int)
    requires 0 <= k <= |M.ListAt(cs.lists, from).data| && from != to
    ensures var r := Moving(cs, from, to, k);
      M.ListAt(r.lists, from).data == M.ListAt(cs.lists, from).data[k..] &&
      M.ListAt(r.lists, to).data == M.ListAt(cs.lists, to).data + M.ListAt(cs.lists, from).data[..k]
  {
  }

  /** While the entries of a list move, its collector counts at least those that are left. */
  lemma MovingPaid(cs: M.Collecting, from: M.Lid, to: M.Lid, k: int)
    requires 0 <= k <= |M.ListAt(cs.lists, from).data| && from.coll != to.coll && StoreBalance(cs, from.coll) == 0
    ensures M.CounterAt(Moving(cs, from, to, k).counter, from.coll).stores >= |M.ListAt(cs.lists, from).data| - k
  {
    StorePart(cs.lists, from);
  }

  lemma StorePart(lists: M.Lists, lid: M.Lid)
    ensures M.StoreSize(lists, lid.coll) >= |M.ListAt(lists, lid).data|
  {
    match lid.kind
    case Collect =>
    case Merged =>
    case Recovery =>
    case Rebuild =>
    case Clean =>
  }

  /** Emptying one list takes its entries off the size of the store. */
  lemma StoreWithout(a: M.Lists, b: M.Lists, lid: M.Lid)
    requires forall k :: M.ListAt(b, M.Lid(lid.coll, k)).data == if k == lid.kind then [] else M.ListAt(a, M.Lid(lid.coll, k)).data
    ensures M.StoreSize(b, lid.coll) == M.StoreSize(a, lid.coll) - |M.ListAt(a, lid).data|
  {
    match lid.kind
    case Collect =>
    case Merged =>
    case Recovery =>
    case Rebuild =>
    case Clean =>
  }

  lemma ForwardedPaid(cs: M.Collecting, from: M.Lid, to: M.Lid)
    requires from.coll != to.coll
    ensures StoreBalance(ForwardedTo(cs, from, to), from.coll) == StoreBalance(cs, from.coll)
  {
    ForwardedCounter(cs, from, to);
    var r := ForwardedTo(cs, from, to);
    forall k
      ensures M.ListAt(r.lists, M.Lid(from.coll, k)).data == if k == from.kind then [] else M.ListAt(cs.lists, M.Lid(from.coll, k)).data
    {
      ForwardedAt(cs, from, to, M.Lid(from.coll, k));
    }
    hide ForwardedTo, M.StoreSize;
    StoreWithout(cs.lists, r.lists, from);
  }

  lemma PointedAt(st: M.State, o: Oid)
    requires Struct(st) && o in st.collector && st.collector[o].Some?
    ensures var c := st.collector[o].value; c in st.cs.counter && st.cs.counter[c].refs >= 1
  {
    hide LinksShape, M.Registered, Listed, StoreBalance;
    var c := st.collector[o].value;
    SumAtLeast(st.collector, PointsTo(c), o);
    assert RefBalance(st.collector, st.cs, c) == 0;
  }

  lemma ForwardedFrom(st: M.State, d: Cid)
    requires Struct(st) && d in st.cs.forward && st.cs.forward[d].Some?
    ensures var c := st.cs.forward[d].value; c in st.cs.counter && st.cs.counter[c].refs >= 1
  {
    hide LinksShape, Pointing, Listed, StoreBalance;
    var c := st.cs.forward[d].value;
    Runs.ForwardTarget(st.cs.forward, d);
    SumAtLeast(st.cs.forward, PointsTo(c), d);
    assert RefBalance(st.collector, st.cs, c) == 0;
  }

  lemma MovingStep(s: M.State, a: M.State, from: M.Lid, to: M.Lid, k: int)
    requires 0 <= k < |M.ListAt(s.cs.lists, from).data| && from.coll != to.coll
    requires a == s.(cs := Moving(s.cs, from, to, k)) && M.ListAt(a.cs.lists, from).data != []
    ensures M.Append(M.Poll(a, from), to, M.ListAt(a.cs.lists, from).data[0]) == s.(cs := Moving(s.cs, from, to, k + 1))
  {
    var df, dt := M.ListAt(s.cs.lists, from).data, M.ListAt(s.cs.lists, to).data;
    MovingData(s.cs, from, to, k);
    assert df[k..][1..] == df[k + 1..];
    assert dt + df[..k] + [df[k]] == dt + df[..k + 1];
    MovingLists(s, a, from, to, k);
    MovingCounters(s, a, from, to, k);
  }

  lemma MovingLists(s: M.State, a: M.State, from: M.Lid, to: M.Lid, k: int)
    requires 0 <= k < |M.ListAt(s.cs.lists, from).data| && from.coll != to.coll
    requires a == s.(cs := Moving(s.cs, from, to, k)) && M.ListAt(a.cs.lists, from).data != []
    ensures M.Append(M.Poll(a, from), to, M.ListAt(a.cs.lists, from).data[0]).cs.lists == Moving(s.cs, from, to, k + 1).lists
  {
    var df, dt := M.ListAt(s.cs.lists, from).data, M.ListAt(s.cs.lists, to).data;
    assert df[k..][1..] == df[k + 1..];
    assert dt + df[..k] + [df[k]] == dt + df[..k + 1];
  }

  lemma MovingCounters(s: M.State, a: M.State, from: M.Lid, to: M.Lid, k: int)
    requires 0 <= k < |M.ListAt(s.cs.lists, from).data| && from.coll != to.coll
    requires a == s.(cs := Moving(s.cs, from, to, k)) && M.ListAt(a.cs.lists, from).data != []
    ensures M.Append(M.Poll(a, from), to, M.ListAt(a.cs.lists, from).data[0]).cs.counter == Moving(s.cs, from, to, k + 1).counter
  {
  }

  /** All five lists of `s` have moved to `t`. */
  ghost function AllForwarded(cs: M.Collecting, s: Cid, t: Cid): M.Collecting
  {
    var c1 := ForwardedTo(cs, M.Lid(s, M.Collect), M.Lid(t, M.Collect));
    var c2 := ForwardedTo(c1, M.Lid(s, M.Merged), M.Lid(t, M.Merged));
    var c3 := ForwardedTo(c2, M.Lid(s, M.Rebuild), M.Lid(t, M.Rebuild));
    var c4 := ForwardedTo(c3, M.Lid(s, M.Clean), M.Lid(t, M.Merged));
    ForwardedTo(c4, M.Lid(s, M.Recovery), M.Lid(t, M.Merged))
  }

  lemma ForwardedAt(cs: M.Collecting, from: M.Lid, to: M.Lid, lid: M.Lid)
    requires from != to
    ensures var r, df := ForwardedTo(cs, from, to), M.ListAt(cs.lists, from).data;
      (lid in r.lists <==> lid in cs.lists || lid == from || lid == to) &&
      M.ListAt(r.lists, lid) ==
        if lid == from then M.SafeList([], Some(to))
        else if lid == to then M.SafeList(M.ListAt(cs.lists, to).data + df, M.ListAt(cs.lists, to).forward)
        else M.ListAt(cs.lists, lid)
  {
    var df := M.ListAt(cs.lists, from).data;
    assert df[..|df|] == df;
  }

  lemma ForwardedCounter(cs: M.Collecting, from: M.Lid, to: M.Lid)
    requires from.coll != to.coll
    ensures ForwardedTo(cs, from, to).counter ==
      M.AddCounter(M.AddCounter(cs, from.coll, 0, -|M.ListAt(cs.lists, from).data|), to.coll, 0, |M.ListAt(cs.lists, from).data|).counter
  {
  }

  /** Forwarding the five lists one after the other and then the collector is a merge. */
  lemma AllForwardedJoin(cs: M.Collecting, s: Cid, t: Cid)
    requires M.Registered(cs) && s in cs.forward && t in cs.forward && s != t && s in cs.counter && t in cs.counter
    ensures M.AddCounter(AllForwarded(cs, s, t), t, 1, 0).(forward := cs.forward[s := Some(t)]) == M.Join(cs, t, s)
  {
    hide AllForwarded, M.MergedLists, M.StoreSize, M.Registered, M.Join;
    AllForwardedLists(cs, s, t);
    AllForwardedCounter(cs, s, t);
    JoinParts(cs, s, t);
  }

  lemma JoinParts(cs: M.Collecting, s: Cid, t: Cid)
    requires s in cs.counter && t in cs.counter && s != t
    ensures var n := M.StoreSize(cs.lists, s);
      M.Join(cs, t, s) == M.Collecting(cs.forward[s := Some(t)],
        cs.counter[s := M.Counter(cs.counter[s].refs, cs.counter[s].stores - n)]
                  [t := M.Counter(cs.counter[t].refs + 1, cs.counter[t].stores + n)], M.MergedLists(cs.lists, t, s), cs.next)
  {
    hide M.MergedLists, M.StoreSize;
  }

  lemma AllForwardedCounter(cs: M.Collecting, s: Cid, t: Cid)
    requires s != t && s in cs.counter && t in cs.counter
    ensures var n := M.StoreSize(cs.lists, s);
      AllForwarded(cs, s, t).counter ==
        cs.counter[s := M.Counter(cs.counter[s].refs, cs.counter[s].stores - n)][t := M.Counter(cs.counter[t].refs, cs.counter[t].stores + n)]
    ensures AllForwarded(cs, s, t).forward == cs.forward && AllForwarded(cs, s, t).next == cs.next
  {
    hide ForwardedTo;
    var c1 := ForwardedTo(cs, M.Lid(s, M.Collect), M.Lid(t, M.Collect));
    var c2 := ForwardedTo(c1, M.Lid(s, M.Merged), M.Lid(t, M.Merged));
    var c3 := ForwardedTo(c2, M.Lid(s, M.Rebuild), M.Lid(t, M.Rebuild));
    var c4 := ForwardedTo(c3, M.Lid(s, M.Clean), M.Lid(t, M.Merged));
    ForwardedCounter(cs, M.Lid(s, M.Collect), M.Lid(t, M.Collect));
    ForwardedCounter(c1, M.Lid(s, M.Merged), M.Lid(t, M.Merged));
    ForwardedCounter(c2, M.Lid(s, M.Rebuild), M.Lid(t, M.Rebuild));
    ForwardedCounter(c3, M.Lid(s, M.Clean), M.Lid(t, M.Merged));
    ForwardedCounter(c4, M.Lid(s, M.Recovery), M.Lid(t, M.Merged));
    SourceData(cs, s, t, c1, c2, c3, c4);
    assert AllForwarded(cs, s, t).counter ==
      cs.counter[s := M.Counter(cs.counter[s].refs, cs.counter[s].stores - M.StoreSize(cs.lists, s))]
                [t := M.Counter(cs.counter[t].refs, cs.counter[t].stores + M.StoreSize(cs.lists, s))];
  }

  /** What each of the five lists of `s` holds when its turn has come. */
  lemma SourceData(cs: M.Collecting, s: Cid, t: Cid, c1: M.Collecting, c2: M.Collecting, c3: M.Collecting, c4: M.Collecting)
    requires s != t
    requires c1 == ForwardedTo(cs, M.Lid(s, M.Collect), M.Lid(t, M.Collect))
    requires c2 == ForwardedTo(c1, M.Lid(s, M.Merged), M.Lid(t, M.Merged))
    requires c3 == ForwardedTo(c2, M.Lid(s, M.Rebuild), M.Lid(t, M.Rebuild))
    requires c4 == ForwardedTo(c3, M.Lid(s, M.Clean), M.Lid(t, M.Merged))
    ensures Data(c1.lists, s, M.Merged) == Data(cs.lists, s, M.Merged)
    ensures Data(c2.lists, s, M.Rebuild) == Data(cs.lists, s, M.Rebuild)
    ensures Data(c3.lists, s, M.Clean) == Data(cs.lists, s, M.Clean)
    ensures Data(c4.lists, s, M.Recovery) == Data(cs.lists, s, M.Recovery)
  {
    hide ForwardedTo, M.ListAt;
    ForwardedAt(cs, M.Lid(s, M.Collect), M.Lid(t, M.Collect), M.Lid(s, M.Merged));
    ForwardedAt(cs, M.Lid(s, M.Collect), M.Lid(t, M.Collect), M.Lid(s, M.Rebuild));
    ForwardedAt(cs, M.Lid(s, M.Collect), M.Lid(t, M.Collect), M.Lid(s, M.Clean));
    ForwardedAt(cs, M.Lid(s, M.Collect), M.Lid(t, M.Collect), M.Lid(s, M.Recovery));
    ForwardedAt(c1, M.Lid(s, M.Merged), M.Lid(t, M.Merged), M.Lid(s, M.Rebuild));
    ForwardedAt(c1, M.Lid(s, M.Merged), M.Lid(t, M.Merged), M.Lid(s, M.Clean));
    ForwardedAt(c1, M.Lid(s, M.Merged), M.Lid(t, M.Merged), M.Lid(s, M.Recovery));
    ForwardedAt(c2, M.Lid(s, M.Rebuild), M.Lid(t, M.Rebuild), M.Lid(s, M.Clean));
    ForwardedAt(c2, M.Lid(s, M.Rebuild), M.Lid(t, M.Rebuild), M.Lid(s, M.Recovery));
    ForwardedAt(c3, M.Lid(s, M.Clean), M.Lid(t, M.Merged), M.Lid(s, M.Recovery));
  }

  lemma AllForwardedLists(cs: M.Collecting, s: Cid, t: Cid)
    requires M.Registered(cs) && s in cs.forward && t in cs.forward && s != t
    ensures AllForwarded(cs, s, t).lists == M.MergedLists(cs.lists, t, s)
  {
    hide ForwardedTo;
    var r := AllForwarded(cs, s, t);
    forall lid: M.Lid
      ensures lid in r.lists <==> lid in cs.lists
      ensures lid in cs.lists ==> r.lists[lid] == M.MergedLists(cs.lists, t, s)[lid]
    {
      AllForwardedAt(cs, s, t, lid);
      hide AllForwarded, M.MergedLists;
    }
    hide AllForwarded;
  }

  lemma AllForwardedAt(cs: M.Collecting, s: Cid, t: Cid, lid: M.Lid)
    requires M.Registered(cs) && s in cs.forward && t in cs.forward && s != t
    ensures var r := AllForwarded(cs, s, t);
      (lid in r.lists <==> lid in cs.lists) && (lid in cs.lists ==> r.lists[lid] == M.MergedLists(cs.lists, t, s)[lid])
  {
    hide ForwardedTo, Forest;
    var c1 := ForwardedTo(cs, M.Lid(s, M.Collect), M.Lid(t, M.Collect));
    var c2 := ForwardedTo(c1, M.Lid(s, M.Merged), M.Lid(t, M.Merged));
    var c3 := ForwardedTo(c2, M.Lid(s, M.Rebuild), M.Lid(t, M.Rebuild));
    var c4 := ForwardedTo(c3, M.Lid(s, M.Clean), M.Lid(t, M.Merged));
    SourceData(cs, s, t, c1, c2, c3, c4);
    ForwardedAt(cs, M.Lid(s, M.Collect), M.Lid(t, M.Collect), lid);
    ForwardedAt(c1, M.Lid(s, M.Merged), M.Lid(t, M.Merged), lid);
    ForwardedAt(c2, M.Lid(s, M.Rebuild), M.Lid(t, M.Rebuild), lid);
    ForwardedAt(c3, M.Lid(s, M.Clean), M.Lid(t, M.Merged), lid);
    ForwardedAt(c4, M.Lid(s, M.Recovery), M.Lid(t, M.Merged), lid);
    match lid.kind
    case Collect =>
    case Merged =>
    case Recovery =>
    case Rebuild =>
    case Clean =>
  }
}

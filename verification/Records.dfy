/** The records of the program: objects, links, collectors, safelists and counters,
    and the heap that they form. Everything a method changes is a field of a
    record; the registries of the heap are ghosts. */
module Records {
  import opened Forwarding
  import M = Model

  type Oid = M.Oid
  type Field = M.Field
  type Count = M.Count

  class CounterRec {
    ghost const id: Cid
    var refs: nat
    var stores: nat

    constructor (ghost id: Cid)
      ensures this.id == id && refs == 0 && stores == 0
    {
      this.id := id;
      refs, stores := 0, 0;
    }

    /** counter_inc_ref */
    method IncRef()
      modifies `refs
      ensures refs == old(refs) + 1
    {
      refs := refs + 1;
    }

    /** counter_dec_ref */
    method DecRef()
      requires refs >= 1
      modifies `refs
      ensures refs == old(refs) - 1
    {
      refs := refs - 1;
    }

    /** counter_inc_store */
    method IncStore()
      modifies `stores
      ensures stores == old(stores) + 1
    {
      stores := stores + 1;
    }

    /** counter_dec_store */
    method DecStore()
      requires stores >= 1
      modifies `stores
      ensures stores == old(stores) - 1
    {
      stores := stores - 1;
    }
  }

  class SafeListRec {
    ghost const lid: M.Lid
    const count: CounterRec
    var data: seq<ObjectRec>
    var forward: SafeListRec?

    /** safelist_init */
    constructor (ghost lid: M.Lid, count: CounterRec)
      ensures this.lid == lid && this.count == count && data == [] && forward == null
    {
      this.lid, this.count := lid, count;
      data, forward := [], null;
    }
  }

  class CollectorRec {
    const id: Cid
    var forward: CollectorRec?
    const count: CounterRec
    const collect: SafeListRec
    const merged: SafeListRec
    const recovery: SafeListRec
    const rebuild: SafeListRec
    const clean: SafeListRec

    /** collector_create */
    constructor (id: Cid)
      ensures this.id == id && forward == null && fresh(count) && count.id == id && count.refs == 0 && count.stores == 0
      ensures forall k :: fresh(List(k)) && List(k).lid == M.Lid(id, k) && List(k).count == count
      ensures forall k :: List(k).data == [] && List(k).forward == null
    {
      this.id := id;
      forward := null;
      var n := new CounterRec(id);
      count := n;
      collect := new SafeListRec(M.Lid(id, M.Collect), n);
      merged := new SafeListRec(M.Lid(id, M.Merged), n);
      recovery := new SafeListRec(M.Lid(id, M.Recovery), n);
      rebuild := new SafeListRec(M.Lid(id, M.Rebuild), n);
      clean := new SafeListRec(M.Lid(id, M.Clean), n);
    }

    ghost function List(k: M.Kind): SafeListRec
    {
      match k
      case Collect => collect
      case Merged => merged
      case Recovery => recovery
      case Rebuild => rebuild
      case Clean => clean
    }
  }

  class ObjectRec {
    const id: Oid
    var which: bool
    var count: Count
    var phantomized: bool
    var collector: CollectorRec?
    var links: map<Field, LinkRec>
    var order: seq<Field>

    /** object_init */
    constructor (id: Oid)
      ensures this.id == id && !which && count == M.Count(0, 0, 0) && !phantomized && collector == null
      ensures links == map[] && order == []
    {
      this.id := id;
      which, count, phantomized, collector := false, M.Count(0, 0, 0), false, null;
      links, order := map[], [];
    }
  }

  class LinkRec {
    ghost const slot: M.Slot
    const src: ObjectRec
    const target: ObjectRec
    var which: bool
    var phantomized: bool

    /** link_create */
    constructor (ghost slot: M.Slot, src: ObjectRec, target: ObjectRec)
      ensures this.slot == slot && this.src == src && this.target == target && !which && !phantomized
    {
      this.slot, this.src, this.target := slot, src, target;
      which, phantomized := false, false;
    }
  }
}

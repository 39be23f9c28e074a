/** hashtable.c: chained buckets, with the NULL key in bucket 0. A key is `None` for NULL;
    `hash` and the equality of keys stand for the functions the table is configured with. */
module HashTables {
  import opened Capacity
  import opened Sequences
  import opened Wrappers

  const MAX_POW_TWO: nat := Pow2(31)

  class Entry<K(==), V> {
    const key: Option<K>
    const hash: nat
    var value: V
    var next: Entry?<K, V>

    constructor (key: Option<K>, hash: nat, value: V, next: Entry?<K, V>)
      ensures this.key == key && this.hash == hash && this.value == value && this.next == next
    {
      this.key, this.hash, this.value, this.next := key, hash, value, next;
    }
  }

  datatype Stat = Ok | MaxCapacity | KeyNotFound

  /** hash & (capacity - 1) */
  function Index(hash: nat, capacity: nat): (i: nat)
    requires IsPow2(capacity)
    ensures i < capacity
  {
    MaskInRange(hash, capacity);
    And(hash, capacity - 1)
  }

  lemma MaskInRange(hash: nat, capacity: nat)
    requires IsPow2(capacity)
    ensures capacity >= 1 && And(hash, capacity - 1) == hash % capacity < capacity
  {
    var k: nat :| capacity == Pow2(k);
    MaskIsRemainder(hash, k);
  }

  lemma DoubleFits(c: nat)
    requires IsPow2(c) && c < MAX_POW_TWO
    ensures 2 * c <= MAX_POW_TWO
  {
    var k: nat :| c == Pow2(k);
    if k >= 31 {
      Pow2Monotone(31, k);
      assert false;
    }
    Pow2Monotone(k + 1, 31);
  }

  lemma ZeroIndex(capacity: nat)
    requires IsPow2(capacity)
    ensures Index(0, capacity) == 0
  {
    hide And;
    MaskInRange(0, capacity);
  }

  // ---- Chains ----

  ghost function Node<K, V>(chain: seq<Entry<K, V>>, j: nat): Entry?<K, V>
  {
    if j < |chain| then chain[j] else null
  }

  /** The entries of `chain`, in order, hang on `head`. */
  ghost predicate Linked<K, V>(head: Entry?<K, V>, chain: seq<Entry<K, V>>)
    reads chain
  {
    head == Node(chain, 0) && forall j :: 0 <= j < |chain| ==> chain[j].next == Node(chain, j + 1)
  }

  /** No entry is in two places. */
  ghost predicate Apart<K, V>(chains: seq<seq<Entry<K, V>>>)
  {
    && (forall i :: 0 <= i < |chains| ==> NoDup(chains[i]))
    && (forall h, i, e :: 0 <= h < |chains| && 0 <= i < |chains| && e in chains[h] && e in chains[i] ==> h == i)
  }

  /** The chains hold exactly the given entries, each one in the bucket of its hash. */
  ghost predicate Housed<K, V>(capacity: nat, chains: seq<seq<Entry<K, V>>>, entries: set<Entry<K, V>>)
  {
    && IsPow2(capacity) && |chains| == capacity
    && (forall i, j :: 0 <= i < |chains| && 0 <= j < |chains[i]| ==> chains[i][j] in entries && Index(chains[i][j].hash, capacity) == i)
    && (forall e :: e in entries ==> e in chains[Index(e.hash, capacity)])
    && (forall i :: 0 <= i < |chains| ==> NoDup(chains[i]))
  }

  /** The chains from bucket `from` on hang in the array. */
  ghost predicate Hung<K, V>(buckets: array<Entry?<K, V>>, chains: seq<seq<Entry<K, V>>>, entries: set<Entry<K, V>>, from: nat)
    reads buckets, entries
  {
    && |chains| == buckets.Length
    && forall i :: from <= i < |chains| ==> (forall e :: e in chains[i] ==> e in entries) && Linked(buckets[i], chains[i])
  }

  lemma HousedPush<K, V>(capacity: nat, chains: seq<seq<Entry<K, V>>>, entries: set<Entry<K, V>>, i: nat, e: Entry<K, V>)
    requires Housed(capacity, chains, entries) && e !in entries && i == Index(e.hash, capacity)
    ensures Housed(capacity, chains[i := [e] + chains[i]], entries + {e})
  {
    hide Index, IsPow2;
    var more := chains[i := [e] + chains[i]];
    forall f | f in entries + {e} ensures f in more[Index(f.hash, capacity)] {
      if f == e {
        assert more[i][0] == e;
      } else {
        assert f in chains[Index(f.hash, capacity)];
      }
    }
  }

  /** entry->next = bucket[i]; bucket[i] = entry */
  method PushFront<K, V>(buckets: array<Entry?<K, V>>, i: nat, e: Entry<K, V>,
      ghost chains: seq<seq<Entry<K, V>>>, ghost entries: set<Entry<K, V>>)
    requires Hung(buckets, chains, entries, 0) && e !in entries && i < buckets.Length
    modifies buckets, e`next
    ensures Hung(buckets, chains[i := [e] + chains[i]], entries + {e}, 0)
  {
    e.next := buckets[i];
    buckets[i] := e;
    ghost var chain := [e] + chains[i];
    assert Linked(e, chain) by {
      assert forall j :: 0 < j < |chain| ==> chain[j] == chains[i][j - 1];
    }
  }

  lemma HousedDrop<K, V>(capacity: nat, chains: seq<seq<Entry<K, V>>>, entries: set<Entry<K, V>>, i: nat, j: nat)
    requires Housed(capacity, chains, entries) && i < |chains| && j < |chains[i]|
    ensures Housed(capacity, chains[i := Without(chains[i], j)], entries - {chains[i][j]})
  {
    hide Index, IsPow2;
    var e := chains[i][j];
    var fewer := chains[i := Without(chains[i], j)];
    forall f | f in entries - {e} ensures f in fewer[Index(f.hash, capacity)] {
      var h := Index(f.hash, capacity);
      var k :| 0 <= k < |chains[h]| && chains[h][k] == f;
      assert h == i ==> f == fewer[h][if k < j then k else k - 1];
    }
  }

  /** The entries of the chains from bucket `i`, entry `j`, on have not moved yet, the others have. */
  ghost predicate Leaving<K, V>(chains: seq<seq<Entry<K, V>>>, entries: set<Entry<K, V>>, moved: set<Entry<K, V>>, i: nat, j: nat)
  {
    && moved <= entries
    && forall h, k :: 0 <= h < |chains| && 0 <= k < |chains[h]| ==> (chains[h][k] in moved <==> h < i || (h == i && k < j))
  }

  /** move_entries; the result is the new chains. */
  method MoveEntries<K, V>(src: array<Entry?<K, V>>, dest: array<Entry?<K, V>>, srcSize: nat, destSize: nat,
      ghost chains: seq<seq<Entry<K, V>>>, ghost entries: set<Entry<K, V>>) returns (ghost chains': seq<seq<Entry<K, V>>>)
    requires src != dest && src.Length == srcSize && dest.Length == destSize && IsPow2(destSize)
    requires Housed(srcSize, chains, entries) && Hung(src, chains, entries, 0) && forall i :: 0 <= i < destSize ==> dest[i] == null
    modifies dest, entries`next
    ensures Housed(destSize, chains', entries) && Hung(dest, chains', entries, 0)
  {
    hide IsPow2, Index;
    chains' := seq(destSize, i => []);
    ghost var moved: set<Entry<K, V>> := {};
    for i := 0 to srcSize
      invariant Housed(destSize, chains', moved) && Hung(dest, chains', moved, 0)
      invariant Hung(src, chains, entries, i) && Leaving(chains, entries, moved, i, 0)
    {
      chains', moved := MoveChain(src, dest, i, destSize, chains, entries, chains', moved);
    }
    assert moved == entries by {
      forall e | e in entries ensures e in moved {
        assert e in chains[Index(e.hash, srcSize)];
      }
    }
  }

  /** The entries of one bucket are moved. */
  method MoveChain<K, V>(src: array<Entry?<K, V>>, dest: array<Entry?<K, V>>, i: nat, destSize: nat,
      ghost chains: seq<seq<Entry<K, V>>>, ghost entries: set<Entry<K, V>>, ghost to: seq<seq<Entry<K, V>>>, ghost there: set<Entry<K, V>>)
    returns (ghost to': seq<seq<Entry<K, V>>>, ghost there': set<Entry<K, V>>)
    requires src != dest && dest.Length == destSize && IsPow2(destSize) && Housed(src.Length, chains, entries) && i < src.Length
    requires Housed(destSize, to, there) && Hung(dest, to, there, 0)
    requires Hung(src, chains, entries, i) && Leaving(chains, entries, there, i, 0)
    modifies dest, entries`next
    ensures Housed(destSize, to', there') && Hung(dest, to', there', 0)
    ensures Hung(src, chains, entries, i + 1) && Leaving(chains, entries, there', i + 1, 0)
  {
    hide IsPow2, Index, Housed, Linked;
    to', there' := to, there;
    var entry := src[i];
    ghost var j := 0;
    assert entry == Node(chains[i], 0) && Tail(chains[i], entries, 0) by {
      TailOf(src, chains, entries, i);
    }
    while entry != null
      invariant j <= |chains[i]| && entry == Node(chains[i], j) && Tail(chains[i], entries, j)
      invariant Housed(destSize, to', there') && Hung(dest, to', there', 0)
      invariant Hung(src, chains, entries, i + 1) && Leaving(chains, entries, there', i, j)
      decreases |chains[i]| - j
    {
      var next := entry.next;
      to', there' := MoveOne(src, dest, entry, i, j, destSize, chains, entries, to', there');
      entry := next;
      j := j + 1;
    }
  }

  /** The entries of a chain from the j-th on are still linked as they were. */
  ghost predicate Tail<K, V>(chain: seq<Entry<K, V>>, entries: set<Entry<K, V>>, j: nat)
    reads entries
  {
    (forall e :: e in chain ==> e in entries) && forall k :: j <= k < |chain| ==> chain[k] in chain && chain[k].next == Node(chain, k + 1)
  }

  lemma TailOf<K, V>(src: array<Entry?<K, V>>, chains: seq<seq<Entry<K, V>>>, entries: set<Entry<K, V>>, i: nat)
    requires Hung(src, chains, entries, i) && i < |chains|
    ensures src[i] == Node(chains[i], 0) && Tail(chains[i], entries, 0)
  {
    assert (forall e :: e in chains[i] ==> e in entries) && Linked(src[i], chains[i]);
  }

  /** One entry is moved. */
  method MoveOne<K, V>(src: array<Entry?<K, V>>, dest: array<Entry?<K, V>>, entry: Entry<K, V>, ghost i: nat, ghost j: nat, destSize: nat,
      ghost chains: seq<seq<Entry<K, V>>>, ghost entries: set<Entry<K, V>>, ghost to: seq<seq<Entry<K, V>>>, ghost there: set<Entry<K, V>>)
    returns (ghost to': seq<seq<Entry<K, V>>>, ghost there': set<Entry<K, V>>)
    requires src != dest && dest.Length == destSize && IsPow2(destSize) && Housed(src.Length, chains, entries)
    requires i < |chains| && j < |chains[i]| && entry == chains[i][j] && Tail(chains[i], entries, j)
    requires Housed(destSize, to, there) && Hung(dest, to, there, 0)
    requires Hung(src, chains, entries, i + 1) && Leaving(chains, entries, there, i, j)
    modifies dest, entry`next
    ensures Housed(destSize, to', there') && Hung(dest, to', there', 0)
    ensures Hung(src, chains, entries, i + 1) && Leaving(chains, entries, there', i, j + 1) && Tail(chains[i], entries, j + 1)
  {
    hide IsPow2, Index, Housed, Node;
    LeavingStep(src.Length, chains, entries, there, i, j);
    var index := Index(entry.hash, destSize);
    HousedPush(destSize, to, there, index, entry);
    HungLength(dest, to, there);
    PushFront(dest, index, entry, to, there);
    to' := to[index := [entry] + to[index]];
    there' := there + {entry};
  }

  lemma HungLength<K, V>(buckets: array<Entry?<K, V>>, chains: seq<seq<Entry<K, V>>>, entries: set<Entry<K, V>>)
    requires Hung(buckets, chains, entries, 0)
    ensures |chains| == buckets.Length
  {
  }

  lemma LeavingStep<K, V>(capacity: nat, chains: seq<seq<Entry<K, V>>>, entries: set<Entry<K, V>>, moved: set<Entry<K, V>>, i: nat, j: nat)
    requires Housed(capacity, chains, entries) && Leaving(chains, entries, moved, i, j) && i < |chains| && j < |chains[i]|
    ensures Leaving(chains, entries, moved + {chains[i][j]}, i, j + 1) && chains[i][j] !in moved
  {
    hide Index, IsPow2;
  }

  lemma HungAt<K, V>(buckets: array<Entry?<K, V>>, chains: seq<seq<Entry<K, V>>>, entries: set<Entry<K, V>>, i: nat)
    requires Hung(buckets, chains, entries, i) && i < buckets.Length
    ensures i < |chains| && buckets[i] == Node(chains[i], 0) && Tail(chains[i], entries, 0)
  {
    TailOf(buckets, chains, entries, i);
  }

  lemma HungSeq<K, V>(buckets: array<Entry?<K, V>>, chains: seq<seq<Entry<K, V>>>, entries: set<Entry<K, V>>, i: nat)
    requires Hung(buckets, chains, entries, i)
    ensures |chains| == buckets.Length
    ensures forall h :: i <= h < |chains| ==> (forall e :: e in chains[h] ==> e in entries) && Linked(buckets[..][h], chains[h])
  {
    assert forall h :: i <= h < |chains| ==> buckets[h] == buckets[..][h];
  }

  lemma HungTail<K, V>(buckets: array<Entry?<K, V>>, chains: seq<seq<Entry<K, V>>>, entries: set<Entry<K, V>>, i: nat, before: seq<Entry?<K, V>>)
    requires |chains| == buckets.Length == |before| && i < buckets.Length && buckets[..] == before[i := null]
    requires forall h :: i <= h < |chains| ==> (forall e :: e in chains[h] ==> e in entries) && Linked(before[h], chains[h])
    ensures Hung(buckets, chains, entries, i + 1)
  {
    assert forall h :: i < h < |chains| ==> buckets[h] == buckets[..][h];
  }

  class HashTable<K(!new, ==), V> {
    const hash: K -> nat
    const limit: nat -> nat
    var capacity: nat
    var size: nat
    var threshold: nat
    var buckets: array<Entry?<K, V>>
    ghost var chains: seq<seq<Entry<K, V>>>
    ghost var entries: set<Entry<K, V>>
    ghost var contents: map<Option<K>, V>

    function HashOf(key: Option<K>): nat
    {
      match key case None => 0 case Some(k) => hash(k)
    }

    /** Each key has one entry, which carries its hash and its value. */
    ghost predicate Keyed()
      reads `entries, `contents, entries
    {
      && (forall e :: e in entries ==> e.hash == HashOf(e.key) && e.key in contents && contents[e.key] == e.value)
      && (forall e, f :: e in entries && f in entries && e.key == f.key ==> e == f)
      && (forall k :: k in contents ==> exists e :: e in entries && e.key == k)
    }

    ghost predicate Valid()
      reads this, buckets, entries
    {
      && capacity == buckets.Length && capacity <= MAX_POW_TWO && threshold == limit(capacity)
      && Housed(capacity, chains, entries)
      && Hung(buckets, chains, entries, 0)
      && Keyed() && |contents| == size
    }

    /** hashtable_new_conf */
    constructor (hash: K -> nat, limit: nat -> nat, initial: nat)
      requires initial <= MAX_POW_TWO
      ensures Valid() && contents == map[] && this.hash == hash && this.limit == limit
      ensures fresh(buckets)
    {
      hide Pow2, Housed, Hung, Keyed, IsPow2;
      this.hash, this.limit := hash, limit;
      new;
      var c := Rounded(initial);
      buckets := new Entry?<K, V>[c](i => null);
      capacity, size, threshold := c, 0, limit(c);
      chains, entries, contents := seq(c, i => []), {}, map[];
      EmptyTable();
    }

    static method Rounded(initial: nat) returns (c: nat)
      requires initial <= MAX_POW_TWO
      ensures IsPow2(c) && c <= MAX_POW_TWO
    {
      Pow2Monotone(31, 32);
      Pow2Monotone(1, 31);
      assert Pow2(1) == 2 && IsPow2(MAX_POW_TWO);
      hide Pow2, Dense;
      c := RoundPowTwo(initial, 31);
    }

    // ---- Looking up ----

    /** What the invariant says about the j-th entry of a bucket. */
    lemma EntryAt(i: nat, j: nat)
      requires Valid() && i < |chains| && j < |chains[i]|
      ensures var e := chains[i][j];
        e in entries && e.hash == HashOf(e.key) && Index(e.hash, capacity) == i && e.key in contents && contents[e.key] == e.value &&
        e.next == Node(chains[i], j + 1)
    {
      assert chains[i][j] in chains[i];
    }

    /** A key is in no bucket but its own. */
    lemma Missing(key: Option<K>, i: nat)
      requires Valid() && i == Index(HashOf(key), capacity)
      requires forall j :: 0 <= j < |chains[i]| ==> chains[i][j].key != key
      ensures key !in contents
    {
    }

    lemma HeadAt(i: nat)
      requires Valid()
      ensures IsPow2(capacity) && |chains| == buckets.Length == capacity
      ensures i < capacity ==> buckets[i] == Node(chains[i], 0)
    {
    }

    lemma NullBucket()
      requires Valid()
      ensures IsPow2(capacity) && Index(HashOf(None), capacity) == 0
    {
      hide Index, Hung, Keyed;
      ZeroIndex(capacity);
    }

    /** hashtable_get */
    method Get(key: Option<K>) returns (r: Option<V>)
      requires Valid()
      ensures r == if key in contents then Some(contents[key]) else None
    {
      hide Valid, IsPow2, Index;
      if key.None? {
        r := GetNull();
        return;
      }
      HeadAt(0);
      var index := Index(hash(key.value), capacity);
      HeadAt(index);
      var bucket := buckets[index];
      ghost var j := 0;
      while bucket != null
        invariant j <= |chains[index]| && bucket == Node(chains[index], j)
        invariant forall k :: 0 <= k < j ==> chains[index][k].key != key
        decreases |chains[index]| - j
      {
        EntryAt(index, j);
        if bucket.key.Some? && bucket.key.value == key.value {
          return Some(bucket.value);
        }
        bucket := bucket.next;
        j := j + 1;
      }
      Missing(key, index);
      return None;
    }

    /** get_null_key */
    method GetNull() returns (r: Option<V>)
      requires Valid()
      ensures r == if None in contents then Some(contents[None]) else None
    {
      hide Valid, IsPow2;
      NullBucket();
      HeadAt(0);
      var bucket := buckets[0];
      ghost var j := 0;
      while bucket != null
        invariant j <= |chains[0]| && bucket == Node(chains[0], j)
        invariant forall k :: 0 <= k < j ==> chains[0][k].key != None
        decreases |chains[0]| - j
      {
        EntryAt(0, j);
        if bucket.key == None {
          return Some(bucket.value);
        }
        bucket := bucket.next;
        j := j + 1;
      }
      Missing(None, 0);
      return None;
    }

    // ---- Adding ----

    /** replace->value = val */
    method Replace(e: Entry<K, V>, val: V)
      requires Valid() && e in entries
      modifies e`value, `contents
      ensures Valid() && contents == old(contents)[e.key := val]
    {
      hide Housed, Hung, Keyed, IsPow2, Index;
      e.value := val;
      contents := contents[e.key := val];
      ReplacedKeyed(e, val);
      StillHung();
    }

    twostate lemma StillHung()
      requires buckets == old(buckets) && buckets[..] == old(buckets[..]) && chains == old(chains) && entries == old(entries)
      requires forall f :: f in entries ==> f.next == old(f.next)
      requires old(Hung(buckets, chains, entries, 0))
      ensures Hung(buckets, chains, entries, 0)
    {
    }

    twostate lemma ReplacedKeyed(e: Entry<K, V>, new val: V)
      requires old(Keyed()) && e in entries && entries == old(entries) && contents == old(contents)[e.key := val]
      requires forall f :: f in entries ==> f.value == if f == e then val else old(f.value)
      ensures Keyed() && |contents| == old(|contents|)
    {
      assert contents.Keys == old(contents.Keys);
    }

    /** A new entry at the front of a bucket. */
    method Push(i: nat, key: Option<K>, hash: nat, val: V)
      requires Valid() && key !in contents && hash == HashOf(key) && i == Index(hash, capacity)
      modifies `size, `chains, `entries, `contents, buckets
      ensures Valid() && contents == old(contents)[key := val]
    {
      hide Housed, Hung, Keyed, IsPow2, Index, Linked, Node, NoDup;
      var e := new Entry(key, hash, val, null);
      HeadAt(0);
      HousedPush(capacity, chains, entries, i, e);
      PushFront(buckets, i, e, chains, entries);
      size := size + 1;
      ghost var longer, more := chains[i := [e] + chains[i]], entries + {e};
      chains, entries, contents := longer, more, contents[key := val];
      assert Housed(capacity, chains, entries);
      assert Hung(buckets, chains, entries, 0);
      PushedKeyed(e);
    }

    twostate lemma PushedKeyed(new e: Entry<K, V>)
      requires old(Keyed()) && e !in old(entries) && entries == old(entries) + {e} && e.key !in old(contents)
      requires e.hash == HashOf(e.key) && contents == old(contents)[e.key := e.value]
      requires forall f :: f in old(entries) ==> f.value == old(f.value)
      ensures Keyed() && |contents| == old(|contents|) + 1
    {
      assert contents.Keys == old(contents.Keys) + {e.key};
    }

    /** hashtable_add: at the largest capacity, a table that is full refuses every key,
        even one that it holds. */
    method Add(key: Option<K>, val: V) returns (stat: Stat)
      requires Valid()
      modifies this, buckets, entries`next, entries`value
      ensures Valid() && (buckets == old(buckets) || fresh(buckets))
      ensures stat == if old(size) >= old(threshold) && old(capacity) == MAX_POW_TWO then MaxCapacity else Ok
      ensures contents == if stat.Ok? then old(contents)[key := val] else old(contents)
      ensures capacity == if old(size) >= old(threshold) && stat.Ok? then 2 * old(capacity) else old(capacity)
    {
      hide Valid, IsPow2, Index;
      stat := Ok;
      if size >= threshold {
        stat := Resize(2 * capacity);
        if stat != Ok {
          return;
        }
      }
      if key.None? {
        AddNull(val);
      } else {
        AddKey(key, val);
      }
    }

    /** The search of hashtable_add for the key, which is not NULL. */
    method AddKey(key: Option<K>, val: V)
      requires Valid() && key.Some?
      modifies `size, `chains, `entries, `contents, buckets, entries`value
      ensures Valid() && contents == old(contents)[key := val]
    {
      hide Valid, IsPow2, Index;
      HeadAt(0);
      var h := hash(key.value);
      var i := Index(h, capacity);
      HeadAt(i);
      var replace := buckets[i];
      ghost var j := 0;
      while replace != null
        invariant Valid() && unchanged(this)
        invariant j <= |chains[i]| && replace == Node(chains[i], j)
        invariant forall k :: 0 <= k < j ==> chains[i][k].key != key
        decreases |chains[i]| - j
      {
        EntryAt(i, j);
        if replace.key.Some? && replace.key.value == key.value {
          Replace(replace, val);
          return;
        }
        replace := replace.next;
        j := j + 1;
      }
      Missing(key, i);
      Push(i, key, h, val);
    }

    /** add_null_key */
    method AddNull(val: V)
      requires Valid()
      modifies `size, `chains, `entries, `contents, buckets, entries`value
      ensures Valid() && contents == old(contents)[None := val]
    {
      hide Valid, IsPow2, Index;
      HeadAt(0);
      NullBucket();
      var replace := buckets[0];
      ghost var j := 0;
      while replace != null
        invariant Valid() && unchanged(this)
        invariant j <= |chains[0]| && replace == Node(chains[0], j)
        invariant forall k :: 0 <= k < j ==> chains[0][k].key != None
        decreases |chains[0]| - j
      {
        EntryAt(0, j);
        if replace.key == None {
          Replace(replace, val);
          return;
        }
        replace := replace.next;
        j := j + 1;
      }
      Missing(None, 0);
      Push(0, None, 0, val);
    }

    // ---- Growing ----

    /** resize */
    method Resize(newCapacity: nat) returns (stat: Stat)
      requires Valid() && newCapacity == 2 * capacity
      modifies this, entries`next
      ensures Valid() && contents == old(contents) && size == old(size) && entries == old(entries)
      ensures stat == if old(capacity) == MAX_POW_TWO then MaxCapacity else Ok
      ensures if stat.Ok? then capacity == newCapacity && fresh(buckets) else capacity == old(capacity) && buckets == old(buckets)
    {
      hide IsPow2, Index, Housed, Hung, Keyed, Pow2, Linked;
      if capacity == MAX_POW_TWO {
        return MaxCapacity;
      }
      HeadAt(0);
      DoublePow2(capacity);
      DoubleFits(capacity);
      var newBuckets := new Entry?<K, V>[newCapacity](i => null);
      ghost var moved := MoveEntries(buckets, newBuckets, capacity, newCapacity, chains, entries);
      buckets, chains := newBuckets, moved;
      capacity := newCapacity;
      threshold := limit(newCapacity);
      StillKeyed();
      return Ok;
    }

    twostate lemma StillKeyed()
      requires old(Keyed()) && entries == old(entries) && contents == old(contents)
      requires forall f :: f in entries ==> f.value == old(f.value)
      ensures Keyed()
    {
    }

    // ---- Removing ----

    /** The entry is taken out of its chain, in which it follows `prev`, or is the first. */
    method Unlink(i: nat, prev: Entry?<K, V>, e: Entry<K, V>, next: Entry?<K, V>, ghost j: nat)
      requires Valid() && i < |chains| && j < |chains[i]| && e == chains[i][j] && next == e.next
      requires prev == if j == 0 then null else chains[i][j - 1]
      modifies `size, `chains, `entries, `contents, buckets, entries`next
      ensures Valid() && contents == old(contents) - {e.key}
    {
      hide Housed, Hung, Keyed, IsPow2, Index, Linked, NoDup, Bypassed, Node, Without, HashOf;
      HousedDrop(capacity, chains, entries, i, j);
      HeadAt(i);
      EntryAt(i, j);
      if j > 0 {
        EntryAt(i, j - 1);
      }
      Bypass(i, prev, next, j);
      BypassedHung(i, j);
      ghost var fewer, rest := chains[i := Without(chains[i], j)], entries - {e};
      size := size - 1;
      chains, entries, contents := fewer, rest, contents - {e.key};
      assert Housed(capacity, chains, entries);
      assert Hung(buckets, chains, entries, 0);
      UnlinkedKeyed(e);
    }

    method Bypass(i: nat, prev: Entry?<K, V>, next: Entry?<K, V>, ghost j: nat)
      requires |chains| == buckets.Length && i < |chains| && j < |chains[i]| && (prev != null ==> prev in entries)
      requires prev == (if j == 0 then null else chains[i][j - 1]) && next == Node(chains[i], j + 1)
      modifies buckets, entries`next
      ensures Bypassed(i, j)
    {
      if prev == null {
        buckets[i] := next;
      } else {
        prev.next := next;
      }
    }

    /** The pointer to the j-th entry of chain i now leads to the entry after it. */
    twostate predicate Bypassed(new i: nat, new j: nat)
      reads this, buckets, entries
    {
      && buckets == old(buckets) && chains == old(chains) && entries == old(entries)
      && |chains| == buckets.Length && i < |chains| && j < |chains[i]|
      && (forall h :: 0 <= h < buckets.Length ==> buckets[h] == if j == 0 && h == i then Node(chains[i], 1) else old(buckets[h]))
      && (forall f :: f in entries ==> f.next == if j > 0 && f == chains[i][j - 1] then Node(chains[i], j + 1) else old(f.next))
    }

    twostate lemma BypassedHung(new i: nat, new j: nat)
      requires old(Hung(buckets, chains, entries, 0)) && Housed(capacity, chains, entries) && Bypassed(i, j)
      ensures Hung(buckets, chains[i := Without(chains[i], j)], entries - {chains[i][j]}, 0)
    {
      var fewer := chains[i := Without(chains[i], j)];
      forall h | 0 <= h < |fewer|
        ensures (forall e :: e in fewer[h] ==> e in entries - {chains[i][j]}) && Linked(buckets[h], fewer[h])
      {
        if h == i {
          BypassedChain(i, j);
        } else {
          BypassedOther(i, j, h);
        }
      }
    }

    twostate lemma BypassedChain(new i: nat, new j: nat)
      requires old(Hung(buckets, chains, entries, 0)) && Housed(capacity, chains, entries) && Bypassed(i, j)
      ensures forall e :: e in Without(chains[i], j) ==> e in entries - {chains[i][j]}
      ensures Linked(buckets[i], Without(chains[i], j))
    {
      hide IsPow2, Index;
      var c, w := chains[i], Without(chains[i], j);
      assert NoDup(c) && forall k :: 0 <= k < |c| ==> c[k] in entries;
      hide Housed;
      forall k | 0 <= k < |w| ensures w[k] in entries - {c[j]} && w[k].next == Node(w, k + 1) {
        assert w[k] == c[if k < j then k else k + 1];
      }
    }

    twostate lemma BypassedOther(new i: nat, new j: nat, new h: nat)
      requires old(Hung(buckets, chains, entries, 0)) && Housed(capacity, chains, entries) && Bypassed(i, j) && h < |chains| && h != i
      ensures forall e :: e in chains[h] ==> e in entries - {chains[i][j]}
      ensures Linked(buckets[h], chains[h])
    {
    }

    twostate lemma UnlinkedKeyed(e: Entry<K, V>)
      requires old(Keyed()) && e in old(entries) && entries == old(entries) - {e} && contents == old(contents) - {e.key}
      requires forall f :: f in old(entries) ==> f.value == old(f.value)
      ensures Keyed() && |contents| == old(|contents|) - 1
    {
      assert contents.Keys == old(contents.Keys) - {e.key};
    }

    /** hashtable_remove; the result is the removed value, or None if the key was not found. */
    method Remove(key: Option<K>) returns (r: Option<V>)
      requires Valid()
      modifies `size, `chains, `entries, `contents, buckets, entries`next
      ensures Valid() && contents == old(contents) - {key}
      ensures r == if key in old(contents) then Some(old(contents)[key]) else None
    {
      hide Valid, IsPow2, Index;
      if key.None? {
        r := RemoveNull();
        return;
      }
      HeadAt(0);
      var i := Index(hash(key.value), capacity);
      HeadAt(i);
      var e := buckets[i];
      var prev: Entry?<K, V> := null;
      ghost var j := 0;
      while e != null
        invariant Valid() && unchanged(this)
        invariant j <= |chains[i]| && e == Node(chains[i], j) && prev == if j == 0 then null else chains[i][j - 1]
        invariant forall k :: 0 <= k < j ==> chains[i][k].key != key
        decreases |chains[i]| - j
      {
        EntryAt(i, j);
        var next := e.next;
        if e.key.Some? && key.value == e.key.value {
          r := Some(e.value);
          Unlink(i, prev, e, next, j);
          return;
        }
        prev := e;
        e := next;
        j := j + 1;
      }
      Missing(key, i);
      return None;
    }

    /** remove_null_key */
    method RemoveNull() returns (r: Option<V>)
      requires Valid()
      modifies `size, `chains, `entries, `contents, buckets, entries`next
      ensures Valid() && contents == old(contents) - {None}
      ensures r == if None in old(contents) then Some(old(contents)[None]) else None
    {
      hide Valid, IsPow2, Index;
      HeadAt(0);
      NullBucket();
      var e := buckets[0];
      var prev: Entry?<K, V> := null;
      ghost var j := 0;
      while e != null
        invariant Valid() && unchanged(this)
        invariant j <= |chains[0]| && e == Node(chains[0], j) && prev == if j == 0 then null else chains[0][j - 1]
        invariant forall k :: 0 <= k < j ==> chains[0][k].key != None
        decreases |chains[0]| - j
      {
        EntryAt(0, j);
        var next := e.next;
        if e.key == None {
          r := Some(e.value);
          Unlink(0, prev, e, next, j);
          return;
        }
        prev := e;
        e := next;
        j := j + 1;
      }
      Missing(None, 0);
      return None;
    }

    /** hashtable_remove_all */
    method RemoveAll()
      requires Valid()
      modifies `size, `chains, `entries, `contents, buckets
      ensures Valid() && contents == map[] && size == 0 && capacity == old(capacity)
    {
      hide IsPow2, Index, Housed, Hung, Keyed, Leaving, Left, Pow2, Linked;
      HeadAt(0);
      ghost var gone: set<Entry<K, V>>, left := {}, contents;
      AllLeft();
      for i := 0 to capacity
        invariant unchanged(`chains) && unchanged(`entries) && unchanged(`contents) && forall h :: 0 <= h < i ==> buckets[h] == null
        invariant Hung(buckets, chains, entries, i) && Leaving(chains, entries, gone, i, 0) && Left(gone, left) && Keyed() && |left| == size
      {
        HungAt(buckets, chains, entries, i);
        gone, left := FreeChain(buckets[i], i, gone, left);
        ghost var before := buckets[..];
        HungSeq(buckets, chains, entries, i);
        buckets[i] := null;
        HungTail(buckets, chains, entries, i, before);
      }
      NoneLeft(gone, left);
      chains, entries, contents := seq(capacity, i => []), {}, map[];
      EmptyTable();
    }

    /** `left` is what remains of the contents when the entries in `gone` are freed. */
    ghost predicate Left(gone: set<Entry<K, V>>, left: map<Option<K>, V>)
      reads `entries, `contents
    {
      (forall k :: k in left ==> k in contents) && forall e :: e in entries ==> (e.key in left <==> e !in gone)
    }

    lemma AllLeft()
      requires Valid()
      ensures Leaving(chains, entries, {}, 0, 0) && Left({}, contents)
    {
      hide Housed, Linked;
    }

    lemma NoneLeft(gone: set<Entry<K, V>>, left: map<Option<K>, V>)
      requires Housed(capacity, chains, entries) && Keyed() && Leaving(chains, entries, gone, capacity, 0) && Left(gone, left)
      ensures left == map[]
    {
      hide Index, IsPow2;
      forall e | e in entries ensures e in gone {
        assert e in chains[Index(e.hash, capacity)];
      }
      assert forall k :: k !in left;
    }

    lemma EmptyTable()
      requires IsPow2(capacity) && chains == seq(capacity, i => []) && entries == {} && contents == map[]
      requires buckets.Length == capacity && forall i :: 0 <= i < capacity ==> buckets[i] == null
      ensures Housed(capacity, chains, entries) && Hung(buckets, chains, entries, 0) && Keyed()
    {
    }

    /** The entries of one bucket are freed. */
    method FreeChain(head: Entry?<K, V>, ghost i: nat, ghost gone: set<Entry<K, V>>, ghost left: map<Option<K>, V>)
      returns (ghost gone': set<Entry<K, V>>, ghost left': map<Option<K>, V>)
      requires Housed(capacity, chains, entries) && i < |chains| && head == Node(chains[i], 0) && Tail(chains[i], entries, 0)
      requires Leaving(chains, entries, gone, i, 0) && Left(gone, left) && Keyed() && |left| == size
      modifies `size
      ensures Leaving(chains, entries, gone', i + 1, 0) && Left(gone', left') && |left'| == size
    {
      hide IsPow2, Index, Housed;
      gone', left' := gone, left;
      var entry := head;
      ghost var j := 0;
      while entry != null
        invariant j <= |chains[i]| && entry == Node(chains[i], j)
        invariant Leaving(chains, entries, gone', i, j) && Left(gone', left') && |left'| == size
        decreases |chains[i]| - j
      {
        var next := entry.next;
        LeavingStep(capacity, chains, entries, gone', i, j);
        left' := FreeOne(entry, gone', left');
        gone' := gone' + {entry};
        size := size - 1;
        entry := next;
        j := j + 1;
      }
    }

    lemma FreeOne(e: Entry<K, V>, gone: set<Entry<K, V>>, left: map<Option<K>, V>) returns (fewer: map<Option<K>, V>)
      requires Keyed() && Left(gone, left) && e in entries && e !in gone
      ensures Left(gone + {e}, fewer) && |fewer| == |left| - 1
    {
      fewer := left - {e.key};
      assert fewer.Keys == left.Keys - {e.key};
    }

    /** All entries, bucket by bucket, are each entry once. */
    lemma AllOnce()
      requires Valid()
      ensures NoDup(Flat(chains)) && (forall e :: e in Flat(chains) <==> e in entries) && |Flat(chains)| == size
    {
      hide Linked, Keyed, Index, IsPow2;
      HousedApart(capacity, chains, entries);
      FlatNoDup(chains);
      forall e ensures e in Flat(chains) <==> e in entries {
        FlatMember(chains, e);
        if e in entries {
          assert e in chains[Index(e.hash, capacity)];
        }
      }
      CountKeys(Flat(chains));
    }

    /** The keys in the order of iteration are each key of the contents once: what an object
        of the heap keeps as the order of its links. */
    lemma IterationOrder()
      requires Valid()
      ensures NoDup(KeysOf(Flat(chains))) && forall k :: k in KeysOf(Flat(chains)) <==> k in contents
    {
      hide Housed, Hung, Keyed, Flat, NoDup;
      AllOnce();
      KeysOnce(Flat(chains));
    }

    lemma KeysOnce(s: seq<Entry<K, V>>)
      requires Keyed() && NoDup(s) && forall e :: e in s <==> e in entries
      ensures NoDup(KeysOf(s)) && forall k :: k in KeysOf(s) <==> k in contents
    {
      var ks := KeysOf(s);
      assert forall j :: 0 <= j < |s| ==> s[j] in s && ks[j] == s[j].key;
      forall k | k in contents ensures k in ks {
        var e :| e in entries && e.key == k;
        var j :| 0 <= j < |s| && s[j] == e;
        assert ks[j] == k;
      }
    }

    lemma SizeIs()
      requires Valid()
      ensures |contents| == size
    {
    }

    lemma CountKeys(s: seq<Entry<K, V>>)
      requires Keyed() && NoDup(s) && (forall e :: e in s <==> e in entries)
      ensures |s| == |contents|
    {
      assert forall j, k :: 0 <= j < k < |s| ==> s[j] in s && s[k] in s && s[j].key != s[k].key;
      var keys := set e | e in entries :: e.key;
      assert keys == contents.Keys;
      KeyCount(s);
      assert keys == set e | e in s :: e.key;
    }
  }

  ghost function KeysOf<K, V>(s: seq<Entry<K, V>>): (ks: seq<Option<K>>)
    ensures |ks| == |s| && forall j :: 0 <= j < |s| ==> ks[j] == s[j].key
  {
    seq(|s|, j requires 0 <= j < |s| => s[j].key)
  }

  /** The entries of all buckets in order. */
  ghost function Flat<K, V>(chains: seq<seq<Entry<K, V>>>): seq<Entry<K, V>>
  {
    if chains == [] then [] else chains[0] + Flat(chains[1..])
  }

  lemma HousedApart<K, V>(capacity: nat, chains: seq<seq<Entry<K, V>>>, entries: set<Entry<K, V>>)
    requires Housed(capacity, chains, entries)
    ensures Apart(chains)
  {
    hide Index, IsPow2;
  }

  lemma {:induction false} FlatMember<K, V>(chains: seq<seq<Entry<K, V>>>, e: Entry<K, V>)
    ensures e in Flat(chains) <==> exists i :: 0 <= i < |chains| && e in chains[i]
  {
    if chains != [] {
      FlatMember(chains[1..], e);
      if i :| 0 <= i < |chains| && e in chains[i] {
        assert i > 0 ==> e in chains[1..][i - 1];
      }
      if i :| 0 <= i < |chains[1..]| && e in chains[1..][i] {
        assert e in chains[i + 1];
      }
    }
  }

  lemma {:induction false} FlatNoDup<K, V>(chains: seq<seq<Entry<K, V>>>)
    requires Apart(chains)
    ensures NoDup(Flat(chains))
  {
    if chains != [] {
      var rest := chains[1..];
      assert Apart(rest) by {
        assert forall i :: 0 <= i < |rest| ==> rest[i] == chains[i + 1];
      }
      FlatNoDup(rest);
      forall e | e in chains[0] ensures e !in Flat(rest) {
        FlatMember(rest, e);
      }
      assert forall j :: 0 <= j < |chains[0]| ==> chains[0][j] in chains[0];
      assert forall j :: 0 <= j < |Flat(rest)| ==> Flat(rest)[j] in Flat(rest);
    }
  }

  lemma {:induction false} KeyCount<K, V>(s: seq<Entry<K, V>>)
    requires forall j, k :: 0 <= j < k < |s| ==> s[j].key != s[k].key
    ensures |set e | e in s :: e.key| == |s|
  {
    if s != [] {
      var t, last := s[..|s| - 1], s[|s| - 1];
      KeyCount(t);
      assert forall e :: e in s <==> e in t || e == last;
      assert (set e | e in s :: e.key) == (set e | e in t :: e.key) + {last.key};
      assert last.key !in set e | e in t :: e.key;
    }
  }

  lemma FlatSkip<K, V>(chains: seq<seq<Entry<K, V>>>, i: nat)
    requires i < |chains|
    ensures Flat(chains[i..]) == chains[i] + Flat(chains[i + 1..])
  {
    assert chains[i..][1..] == chains[i + 1..];
  }

  class HashTableIter<K(!new, ==), V> {
    const table: HashTable<K, V>
    var bucketIndex: nat
    var prevEntry: Entry?<K, V>
    var nextEntry: Entry?<K, V>
    ghost var pos: nat

    ghost predicate Valid()
      reads this, table, table.buckets, table.entries
    {
      && table.Valid()
      && (nextEntry != null ==>
            bucketIndex < |table.chains| && pos < |table.chains[bucketIndex]| && nextEntry == table.chains[bucketIndex][pos])
    }

    /** The entries still to come. */
    ghost function Rest(): seq<Entry<K, V>>
      requires Valid()
      reads this, table, table.buckets, table.entries
    {
      if nextEntry == null then [] else table.chains[bucketIndex][pos..] + Flat(table.chains[bucketIndex + 1..])
    }

    /** hashtable_iter_init, whose loop finds a bucket in any table that is not empty. */
    constructor (table: HashTable<K, V>)
      requires table.Valid() && table.contents != map[]
      ensures Valid() && this.table == table && Rest() == Flat(table.chains)
    {
      hide table.Valid, Flat;
      this.table := table;
      bucketIndex, pos, prevEntry, nextEntry := 0, 0, null, null;
      new;
      var i, e := FirstBucket(table, 0);
      assert table.chains[0..] == table.chains;
      if e == null {
        NoneFound(table);
        assert false;
      }
      assert table.chains[i][0..] == table.chains[i];
      bucketIndex, nextEntry, prevEntry := i, e, null;
    }

    static lemma NoneFound(table: HashTable<K, V>)
      requires table.Valid() && Flat(table.chains) == []
      ensures table.contents == map[]
    {
      hide table.Valid;
      table.AllOnce();
      table.SizeIs();
    }

    /** hashtable_iter_next; null stands for CC_ITER_END. */
    method Next() returns (te: Entry?<K, V>)
      requires Valid()
      modifies this
      ensures Valid()
      ensures if old(Rest()) == [] then te == null && Rest() == [] else te == old(Rest())[0] && Rest() == old(Rest())[1..]
    {
      hide table.Valid, Flat, Rest;
      RestIs();
      if nextEntry == null {
        return null;
      }
      table.EntryAt(bucketIndex, pos);
      prevEntry := nextEntry;
      nextEntry := nextEntry.next;
      if nextEntry != null {
        pos := pos + 1;
        RestIs();
        return prevEntry;
      }
      var i, e := FirstBucket(table, bucketIndex + 1);
      if e != null {
        bucketIndex, nextEntry, pos := i, e, 0;
      }
      RestIs();
      return prevEntry;
    }

    lemma RestIs()
      requires Valid()
      ensures nextEntry == null ==> Rest() == []
      ensures nextEntry != null ==>
        Rest() == [nextEntry] + table.chains[bucketIndex][pos + 1..] + Flat(table.chains[bucketIndex + 1..])
    {
      hide table.Valid, Flat;
      if nextEntry != null {
        assert table.chains[bucketIndex][pos..] == [nextEntry] + table.chains[bucketIndex][pos + 1..];
      }
    }
  }

  /** The loop over the buckets for the next list, in hashtable_iter_init and hashtable_iter_next. */
  method FirstBucket<K(!new, ==), V>(table: HashTable<K, V>, from: nat) returns (i: nat, e: Entry?<K, V>)
    requires table.Valid() && from <= |table.chains|
    ensures e == null ==> Flat(table.chains[from..]) == []
    ensures e != null ==> i < |table.chains| && table.chains[i] != [] && e == table.chains[i][0]
    ensures e != null ==> Flat(table.chains[from..]) == table.chains[i] + Flat(table.chains[i + 1..])
  {
    hide table.Valid, Flat;
    table.HeadAt(0);
    i := from;
    while i < table.capacity
      invariant from <= i <= table.capacity && Flat(table.chains[i..]) == Flat(table.chains[from..])
    {
      FlatSkip(table.chains, i);
      table.HeadAt(i);
      e := table.buckets[i];
      if e != null {
        return;
      }
      i := i + 1;
    }
    FlatNone(table.chains[i..]);
    e := null;
  }

  lemma FlatNone<K, V>(none: seq<seq<Entry<K, V>>>)
    requires none == []
    ensures Flat(none) == []
  {
  }

  /** HASHTABLE_FOREACH over a table that is not empty: every entry is visited once,
      and there are as many as the size of the table says. */
  method Foreach<K(!new, ==), V>(table: HashTable<K, V>) returns (visited: seq<Entry<K, V>>)
    requires table.Valid() && table.contents != map[]
    ensures NoDup(visited) && |visited| == table.size
    ensures forall e :: e in visited <==> e in table.entries
  {
    hide table.Valid, Flat, NoDup, HashTableIter.Valid, HashTableIter.Rest;
    var iter := new HashTableIter(table);
    ghost var all := iter.Rest();
    visited := [];
    var entry := iter.Next();
    while entry != null
      invariant fresh(iter) && iter.Valid() && iter.table == table && table.Valid()
      invariant entry == null ==> iter.Rest() == []
      invariant visited + (if entry == null then [] else [entry]) + iter.Rest() == all
      decreases |iter.Rest()|, entry != null
    {
      visited := visited + [entry];
      entry := iter.Next();
    }
    assert visited == all;
    table.AllOnce();
  }
}
